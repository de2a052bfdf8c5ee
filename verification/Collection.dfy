/**
 Garbage collection: it removes exactly what the cache proves to be orphaned, an entry goes last,
 and a pass cut anywhere can be finished later.
 */
module Collection {
  import opened Options
  import opened AuthentikServer
  import opened AuthentikApi
  import opened Reconciler
  import opened Ownership
  import opened SyncProofs
  import opened Invariant

  // ---- The invariant --------------------------------------------------------------------

  /** Objects only disappear. */
  ghost predicate Shrinks(s: Server, s': Server) {
    && s'.next == s.next
    && (forall slug :: slug in s'.apps ==> slug in s.apps)
    && (forall p :: p in s'.providers ==> p in s.providers && s'.providers[p] == s.providers[p])
  }

  lemma LocalCollect(ids: nat -> Names, n: Net, n': Net, l: Local, r: nat, retired: set<nat>)
    requires LocalOk(ids, n, l, retired) && r in retired
    requires WorkFor(ids, r, n.server, n'.server) && Shrinks(n.server, n'.server) && n.sent <= n'.sent
    ensures LocalOk(ids, n', l, retired)
  {
    forall q: nat | Rel(q) in l.cache ensures EntryOk(ids(q), n', l, q, q in retired) {
      if q != r {
        EntryElsewhere(ids(q), n, n', l, q, q in retired);
      } else {
        assert EntryOk(ids(r), n, l, r, true);
        assert forall p :: p in n'.server.providers && Bears(ids(r), n.server, p) ==> Bears(ids(r), n'.server, p);
      }
    }
  }

  /** A request that deletes an object of a retired relation keeps the invariant. */
  lemma DeleteInv(ids: nat -> Names, w: World, w': World, r: nat, q: Request)
    requires Inv(ids, w) && r in w.retired
    requires q.DeleteApplication? || q.DeleteProvider?
    requires Proper(ids(r), w.net.server, q)
    requires w' == w.(net := w'.net) && w.net.sent <= w'.net.sent
    requires w'.net.server == w.net.server || w'.net.server == After(w.net.server, q)
    ensures Inv(ids, w') && WorkFor(ids, r, w.net.server, w'.net.server)
  {
    if w'.net.server == w.net.server {
      ReadInv(ids, w, w');
    } else {
      ProperWork(ids, r, w.net.server, q);
      WorkSound(ids, r, w.net.server, w'.net.server);
      LocalCollect(ids, w.net, w'.net, w.work, r, w.retired);
      LocalCollect(ids, w.net, w'.net, w.saved, r, w.retired);
      forall k: nat | k !in w.retired ensures Live(ids(k), w'.net.server) {
        SameLive(ids(k), w.net.server, w'.net.server);
      }
    }
  }

  /** A change of a retired relation's entry that leaves it true. */
  lemma RetiredEntryInv(ids: nat -> Names, w: World, w': World, r: nat)
    requires Inv(ids, w) && r in w.retired
    requires w' == w.(work := w.work.(cache := w'.work.cache))
    requires w.work.cache - {Rel(r)} == w'.work.cache - {Rel(r)}
    requires Rel(r) in w'.work.cache ==>
      && EntryOk(ids(r), w'.net, w'.work, r, true)
      && Rel(r) in w.work.cache
      && (w'.work.cache[Rel(r)].pk.None? || w'.work.cache[Rel(r)].pk == w.work.cache[Rel(r)].pk)
    ensures Inv(ids, w')
  {
    UnsharedStep(ids, w, w', r);
    forall q: nat | Rel(q) in w'.work.cache ensures EntryOk(ids(q), w'.net, w'.work, q, q in w.retired) {
      if q != r {
        assert Rel(q) in w'.work.cache - {Rel(r)};
        assert Rel(q) in w.work.cache - {Rel(r)} && w.work.cache[Rel(q)] == w'.work.cache[Rel(q)];
        assert EntryOk(ids(q), w.net, w.work, q, q in w.retired);
      }
    }
  }

  /** Work for a retired relation is work of the hook. */
  lemma RetiredWorking(ids: nat -> Names, w: World, w': World, r: nat)
    requires r in w.retired && WorkFor(ids, r, w.net.server, w'.net.server) && w.net.sent <= w'.net.sent
    requires w'.saved == w.saved && w'.retired == w.retired && w'.peer == w.peer
    ensures Working(ids, w, w')
  {
    forall q: nat | q !in w.retired ensures Stays(ids(q), w.net.server, w'.net.server) {
      SameStays(ids(q), w.net.server, w'.net.server);
    }
  }

  ghost predicate CollectFacts(c: Context, w: World, r: nat, w': World) {
    && Inv(c.ids, w') && Working(c.ids, w, w')
    && WorkFor(c.ids, r, w.net.server, w'.net.server)
  }

  lemma CollectApplicationInv(c: Context, w: World, r: nat)
    requires Inv(c.ids, w) && r in w.retired && w.peer && Rel(r) in w.work.cache
    ensures var a := CollectApplication(c, w, w.work.cache, Rel(r));
      && CollectFacts(c, w, r, a.world)
      && (a.Done? ==> a.value.slug == "" && a.world.work.cache == w.work.cache[Rel(r) := a.value])
  {
    var key, e := Rel(r), w.work.cache[Rel(r)];
    assert EntryOk(c.ids(r), w.net, w.work, r, true);
    NoWork(c.ids, r, w.net.server);
    if e.slug == "" {
      assert w.work.cache[key := e] == w.work.cache;
    } else {
      RemoveApplicationOutcome(c.faults, w.net, e.slug);
      var b := RemoveApplication(c.faults, w.net, e.slug);
      var w1 := w.(net := b.net);
      DeleteInv(c.ids, w, w1, r, DeleteApplication(e.slug));
      RetiredWorking(c.ids, w, w1, r);
      if b.Ok? {
        var w2 := SaveCache(w1, w.work.cache[key := e.(slug := "", hash := None)]);
        assert EntryOk(c.ids(r), w1.net, w1.work, r, true);
        assert w1.work.cache - {key} == w2.work.cache - {key};
        RetiredEntryInv(c.ids, w1, w2, r);
      }
    }
  }

  lemma CollectProviderInv(c: Context, w: World, r: nat)
    requires Inv(c.ids, w) && r in w.retired && w.peer && Rel(r) in w.work.cache && w.work.cache[Rel(r)].slug == ""
    ensures var a := CollectProvider(c, w, w.work.cache, Rel(r));
      && CollectFacts(c, w, r, a.world)
      && (a.Done? ==> a.world.work.cache == w.work.cache[Rel(r) := a.value])
  {
    var key, e := Rel(r), w.work.cache[Rel(r)];
    assert EntryOk(c.ids(r), w.net, w.work, r, true);
    NoWork(c.ids, r, w.net.server);
    if e.pk.None? {
      assert w.work.cache[key := e] == w.work.cache;
    } else {
      RemoveProviderOutcome(c.faults, w.net, e.pk.value);
      var b := RemoveProvider(c.faults, w.net, e.pk.value);
      var w1 := w.(net := b.net);
      DeleteInv(c.ids, w, w1, r, DeleteProvider(e.pk.value));
      RetiredWorking(c.ids, w, w1, r);
      if b.Ok? {
        var w2 := SaveCache(w1, w.work.cache[key := e.(pk := None)]);
        assert EntryOk(c.ids(r), w1.net, w1.work, r, true);
        assert w1.work.cache - {key} == w2.work.cache - {key};
        RetiredEntryInv(c.ids, w1, w2, r);
      }
    }
  }

  lemma CollectEntryInv(c: Context, w: World, r: nat)
    requires Inv(c.ids, w) && r in w.retired && w.peer && Rel(r) in w.work.cache
    ensures var a := CollectEntry(c, w, w.work.cache, Rel(r));
      && CollectFacts(c, w, r, a.world)
      && (a.Done? ==> a.world.work.cache == w.work.cache - {Rel(r)})
  {
    var key := Rel(r);
    CollectApplicationInv(c, w, r);
    var a1 := CollectApplication(c, w, w.work.cache, key);
    if a1.Done? {
      CollectProviderInv(c, a1.world, r);
      var a2 := CollectProvider(c, a1.world, a1.world.work.cache, key);
      WorkTransitive(c.ids, r, w.net.server, a1.world.net.server, a2.world.net.server);
      WorkingTransitive(c.ids, w, a1.world, a2.world);
      if a2.Done? {
        var w3 := SaveCache(a2.world, w.work.cache - {key});
        assert a2.world.work.cache - {key} == w3.work.cache - {key};
        RetiredEntryInv(c.ids, a2.world, w3, r);
      }
    }
  }

  /** The keys a pass over `keys` removes. */
  ghost function Orphans(keys: seq<Key>, active: set<nat>): set<Key> {
    set k | k in keys && Collectable(k, active)
  }

  /**
   A pass, cut anywhere, keeps the invariant and leaves every object of a relation it does not
   collect exactly as it was.
   */
  lemma {:induction false} CollectAllInv(c: Context, w: World, active: set<nat>, keys: seq<Key>)
    requires Inv(c.ids, w) && w.peer
    requires Distinct(keys) && forall i :: 0 <= i < |keys| ==> keys[i] in w.work.cache
    requires forall k :: k in keys && Collectable(k, active) ==> k.id in w.retired
    ensures var a := CollectAll(c, w, active, w.work.cache, keys);
      && Inv(c.ids, a.world) && Working(c.ids, w, a.world)
      && (forall q: nat :: Rel(q) !in Orphans(keys, active) ==> Same(c.ids(q), w.net.server, a.world.net.server))
      && (a.Done? ==> a.world.work.cache == w.work.cache - Orphans(keys, active))
    decreases |keys|
  {
    if keys == [] {
    } else {
      assert keys[0] in keys;
      assert Orphans(keys, active) == Orphans(keys[1..], active) + if Collectable(keys[0], active) then {keys[0]}
          else {};
      if !Collectable(keys[0], active) {
        CollectAllInv(c, w, active, keys[1..]);
      } else {
        CollectEntryInv(c, w, keys[0].id);
        var a1 := CollectEntry(c, w, w.work.cache, keys[0]);
        if a1.Done? {
          CollectAllInv(c, a1.world, active, keys[1..]);
          var a := CollectAll(c, a1.world, active, a1.world.work.cache, keys[1..]);
          WorkingTransitive(c.ids, w, a1.world, a.world);
          forall q: nat | Rel(q) !in Orphans(keys, active) ensures Same(c.ids(q), w.net.server, a.world.net.server) {
            SameTransitive(c.ids(q), w.net.server, a1.world.net.server, a.world.net.server);
          }
        }
      }
    }
  }

  // ---- Any cut, from any state ----------------------------------------------------------

  /** What was deleted is gone: a field leaves an entry only after its object is absent. */
  ghost predicate Justified(s: Server, before: Entry, key: Key, after: Cache) {
    && (before.slug != "" && (key in after ==> after[key].slug == "") ==> before.slug !in s.apps)
    && (before.pk.Some? && (key in after ==> after[key].pk.None?) ==> before.pk.value !in s.providers)
    && (key in after ==>
      && (after[key].slug == before.slug || after[key].slug == "")
      && (after[key].pk == before.pk || after[key].pk.None?)
      && (after[key].hash == before.hash || after[key].hash.None?)
      && (after[key].slug != before.slug ==> after[key].hash.None?))
  }

  /** The state in which a pass, cut or not, leaves server and cache. */
  ghost predicate Passed(s: Server, s': Server, before: Cache, after: Cache, orphans: set<Key>) {
    && Shrinks(s, s')
    && after.Keys <= before.Keys
    && (forall k :: k in before && k !in orphans ==> k in after && after[k] == before[k])
    && (forall k :: k in before && k in orphans ==> Justified(s', before[k], k, after))
  }

  /** The objects an entry still names. */
  function Fields(e: Entry): nat { (if e.slug != "" then 1 else 0) + if e.pk.Some? then 1 else 0 }

  function Remaining(cache: Cache, active: set<nat>, keys: seq<Key>): nat {
    if keys == [] then 0
    else (if Collectable(keys[0], active) && keys[0] in cache then Fields(cache[keys[0]]) else 0)
         + Remaining(cache, active, keys[1..])
  }

  lemma CollectApplicationPass(c: Context, w: World, key: Key)
    requires w.peer && key in w.work.cache
    ensures var a := CollectApplication(c, w, w.work.cache, key); var e := w.work.cache[key];
      && Passed(w.net.server, a.world.net.server, w.work.cache, a.world.work.cache, {key})
      && a.world.peer && w.net.sent <= a.world.net.sent
      && (a.Done? ==> a.world.work.cache == w.work.cache[key := a.value] && a.value.slug == "" && a.value.pk == e.pk)
      && (Calm(c.faults, |w.net.sent|) ==>
        a.Done? && |a.world.net.sent| == |w.net.sent| + if e.slug != "" then 1 else 0)
  {
    var e := w.work.cache[key];
    if e.slug == "" {
      assert w.work.cache[key := e] == w.work.cache;
    } else {
      RemoveApplicationOutcome(c.faults, w.net, e.slug);
    }
  }

  lemma CollectProviderPass(c: Context, w: World, key: Key)
    requires w.peer && key in w.work.cache && w.work.cache[key].slug == ""
    ensures var a := CollectProvider(c, w, w.work.cache, key); var e := w.work.cache[key];
      && Passed(w.net.server, a.world.net.server, w.work.cache, a.world.work.cache, {key})
      && a.world.peer && w.net.sent <= a.world.net.sent
      && (a.Done? ==> a.world.work.cache == w.work.cache[key := a.value] && a.value.slug == "" && a.value.pk.None?)
      && (Calm(c.faults, |w.net.sent|) ==>
        a.Done? && |a.world.net.sent| == |w.net.sent| + if e.pk.Some? then 1 else 0)
  {
    var e := w.work.cache[key];
    if e.pk.None? {
      assert w.work.cache[key := e] == w.work.cache;
    } else {
      RemoveProviderOutcome(c.faults, w.net, e.pk.value);
    }
  }

  /** Two successive changes of the same entry. */
  lemma PassedAgain(s: Server, t: Server, u: Server, a: Cache, b: Cache, d: Cache, key: Key)
    requires key in a && Passed(s, t, a, b, {key}) && Passed(t, u, b, d, {key})
    ensures Passed(s, u, a, d, {key})
  {
    assert Justified(t, a[key], key, b);
    if key in b {
      assert Justified(u, b[key], key, d);
    }
  }

  lemma CollectEntryPass(c: Context, w: World, key: Key)
    requires w.peer && key in w.work.cache
    ensures var a := CollectEntry(c, w, w.work.cache, key);
      && Passed(w.net.server, a.world.net.server, w.work.cache, a.world.work.cache, {key})
      && a.world.peer && w.net.sent <= a.world.net.sent
      && (a.Done? ==> a.world.work.cache == w.work.cache - {key})
      && (Calm(c.faults, |w.net.sent|) ==> a.Done? && |a.world.net.sent| == |w.net.sent| + Fields(w.work.cache[key]))
  {
    var s, cache := w.net.server, w.work.cache;
    CollectApplicationPass(c, w, key);
    var a1 := CollectApplication(c, w, cache, key);
    if a1.Done? {
      var w1 := a1.world;
      CollectProviderPass(c, w1, key);
      var a2 := CollectProvider(c, w1, w1.work.cache, key);
      PassedAgain(s, w1.net.server, a2.world.net.server, cache, w1.work.cache, a2.world.work.cache, key);
      if a2.Done? {
        assert Justified(a2.world.net.server, cache[key], key, cache - {key});
      }
    }
  }

  lemma PassedTransitive(s: Server, t: Server, u: Server, a: Cache, b: Cache, d: Cache, first: Key, rest: set<Key>)
    requires Passed(s, t, a, b, {first}) && b == a - {first} && first in a
    requires Passed(t, u, b, d, rest)
    ensures Passed(s, u, a, d, rest + {first})
  {
    assert first !in d;
    forall k | k in a && k in rest + {first} ensures Justified(u, a[k], k, d) {
      if k != first {
        assert k in b && b[k] == a[k];
        assert Justified(u, b[k], k, d);
      } else {
        assert Justified(t, a[k], k, b);
      }
    }
  }

  lemma PassedMore(s: Server, t: Server, a: Cache, b: Cache, fewer: set<Key>, more: set<Key>)
    requires Passed(s, t, a, b, fewer) && fewer <= more
    ensures Passed(s, t, a, b, more)
  {
    forall k | k in a && k in more ensures Justified(t, a[k], k, b) {
      if k !in fewer {
        assert k in b && b[k] == a[k];
      }
    }
  }

  ghost predicate PassFacts(o: Oracle, w: World, a: Step<()>, orphans: set<Key>, requests: nat) {
    && Passed(w.net.server, a.world.net.server, w.work.cache, a.world.work.cache, orphans)
    && a.world.peer && w.net.sent <= a.world.net.sent
    && (a.Done? ==> a.world.work.cache == w.work.cache - orphans)
    && (Calm(o, |w.net.sent|) ==> a.Done? && |a.world.net.sent| == |w.net.sent| + requests)
  }

  /** The first orphan of a pass, then the rest of it. */
  lemma PassStep(o: Oracle, w: World, w1: World, a: Step<()>, key: Key, rest: set<Key>, requests: nat)
    requires key in w.work.cache && w1.work.cache == w.work.cache - {key} && w.net.sent <= w1.net.sent
    requires Passed(w.net.server, w1.net.server, w.work.cache, w1.work.cache, {key})
    requires Calm(o, |w.net.sent|) ==> |w1.net.sent| == |w.net.sent| + Fields(w.work.cache[key])
    requires PassFacts(o, w1, a, rest, requests)
    ensures PassFacts(o, w, a, rest + {key}, requests + Fields(w.work.cache[key]))
  {
    PassedTransitive(w.net.server, w1.net.server, a.world.net.server, w.work.cache, w1.work.cache,
        a.world.work.cache, key, rest);
    assert w.work.cache - (rest + {key}) == w1.work.cache - rest;
  }

  /**
   A pass from any state, cut at any call: an entry loses a field, and leaves, only when the
   objects are absent; other entries are untouched. Without faults it ends, after exactly one
   request for each remaining field, with just the active and the malformed keys.
   */
  lemma {:induction false} CollectAllPass(c: Context, w: World, active: set<nat>, keys: seq<Key>)
    requires w.peer && Distinct(keys) && forall i :: 0 <= i < |keys| ==> keys[i] in w.work.cache
    ensures PassFacts(c.faults, w, CollectAll(c, w, active, w.work.cache, keys),
                      Orphans(keys, active), Remaining(w.work.cache, active, keys))
    decreases |keys|
  {
    if keys != [] {
      var key, rest := keys[0], Orphans(keys[1..], active);
      assert Orphans(keys, active) == rest + if Collectable(key, active) then {key} else {};
      if !Collectable(key, active) {
        CollectAllPass(c, w, active, keys[1..]);
      } else {
        CollectEntryPass(c, w, key);
        var a1 := CollectEntry(c, w, w.work.cache, key);
        assert key !in rest;
        if a1.Done? {
          CollectAllPass(c, a1.world, active, keys[1..]);
          RemainingElsewhere(w.work.cache, a1.world.work.cache, active, keys[1..]);
          PassStep(c.faults, w, a1.world, CollectAll(c, a1.world, active, a1.world.work.cache, keys[1..]), key, rest,
            Remaining(w.work.cache, active, keys[1..]));
        } else {
          PassedMore(w.net.server, a1.world.net.server, w.work.cache, a1.world.work.cache, {key},
              Orphans(keys, active));
        }
      }
    }
  }

  lemma RemainingElsewhere(a: Cache, b: Cache, active: set<nat>, keys: seq<Key>)
    requires forall k :: k in keys ==> k in a && k in b && a[k] == b[k]
    ensures Remaining(a, active, keys) == Remaining(b, active, keys)
  {
    if keys != [] {
      assert keys[0] in keys;
    }
  }

  /** Collection writes nothing but the cache. */
  lemma {:induction false} CollectAllWrites(c: Context, w: World, active: set<nat>, cache: Cache, keys: seq<Key>)
    requires Distinct(keys) && forall i :: 0 <= i < |keys| ==> keys[i] in cache
    ensures var w' := CollectAll(c, w, active, cache, keys).world;
      w' == w.(net := w'.net, work := w.work.(cache := w'.work.cache))
    decreases |keys|
  {
    if keys != [] {
      if !Collectable(keys[0], active) {
        CollectAllWrites(c, w, active, cache, keys[1..]);
      } else {
        var a := CollectEntry(c, w, cache, keys[0]);
        if a.Done? {
          CollectAllWrites(c, a.world, active, a.value, keys[1..]);
        }
      }
    }
  }

  /** The orphans of a whole cache. */
  ghost function OrphansOf(cache: Cache, active: set<nat>): set<Key> { set k | k in cache && Collectable(k, active) }

  lemma GarbageCollectPass(c: Context, w: World, active: set<nat>)
    requires w.peer && Lists(c.order)
    ensures PassFacts(c.faults, w, GarbageCollect(c, w, active),
                      OrphansOf(w.work.cache, active), Remaining(w.work.cache, active, c.order(w.work.cache.Keys)))
  {
    var keys := c.order(w.work.cache.Keys);
    CollectAllPass(c, w, active, keys);
    assert Orphans(keys, active) == OrphansOf(w.work.cache, active);
  }

  /**
   A pass cut anywhere is finished by a later pass without faults, from what the cut pass wrote:
   exactly the active and malformed entries remain, as they were, and every object that any
   collected entry named is absent.
   */
  lemma CutPassResumes(c: Context, d: Context, w: World, active: set<nat>)
    requires w.peer && Lists(c.order) && Lists(d.order)
    requires Calm(d.faults, |GarbageCollect(c, w, active).world.net.sent|)
    ensures var w1 := GarbageCollect(c, w, active).world;
      var a := GarbageCollect(d, w1, active);
      && a.Done?
      && a.world.work.cache == w.work.cache - OrphansOf(w.work.cache, active)
      && forall k :: k in OrphansOf(w.work.cache, active) ==>
          && w.work.cache[k].slug !in a.world.net.server.apps - {""}
          && (w.work.cache[k].pk.Some? ==> w.work.cache[k].pk.value !in a.world.net.server.providers)
  {
    GarbageCollectPass(c, w, active);
    var w1 := GarbageCollect(c, w, active).world;
    GarbageCollectPass(d, w1, active);
    var a := GarbageCollect(d, w1, active);
    var before, mid := w.work.cache, w1.work.cache;
    assert mid - OrphansOf(mid, active) == before - OrphansOf(before, active);
    forall k | k in OrphansOf(before, active)
      ensures before[k].slug !in a.world.net.server.apps - {""}
      ensures before[k].pk.Some? ==> before[k].pk.value !in a.world.net.server.providers
    {
      assert Justified(w1.net.server, before[k], k, mid);
      if k in mid {
        assert k in OrphansOf(mid, active);
        assert Justified(a.world.net.server, mid[k], k, a.world.work.cache);
      }
    }
  }

  /** Nothing is left to do when no key is an orphan. */
  lemma {:induction false} NothingToCollect(c: Context, w: World, active: set<nat>, cache: Cache, keys: seq<Key>)
    requires Distinct(keys) && forall i :: 0 <= i < |keys| ==> keys[i] in cache
    requires Orphans(keys, active) == {}
    ensures CollectAll(c, w, active, cache, keys) == Done(w, ())
    decreases |keys|
  {
    if keys != [] {
      assert keys[0] in keys;
      assert keys[0] !in Orphans(keys, active);
      assert Orphans(keys[1..], active) <= Orphans(keys, active);
      NothingToCollect(c, w, active, cache, keys[1..]);
    }
  }
}
