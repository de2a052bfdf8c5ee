/**
 One pass over the relations without faults: how far it gets, and what it brings about. Mappings are
 remembered by the joined text of the scopes, so what a relation is served depends on who asked first.
 */
module Passes {
  import opened Options
  import opened Text
  import opened AuthentikServer
  import opened AuthentikApi
  import opened ConfigKey
  import opened Reconciler
  import opened Ownership
  import opened SyncProofs
  import opened Invariant

  // ---- What decides a pass --------------------------------------------------------------

  datatype Pass = Pass(model: map<nat, Relation>, ids: seq<nat>, authorization: string, invalidation: string) {
    function Tail(): Pass
      requires ids != []
    {
      this.(ids := ids[1..])
    }
  }

  /** A relation with a valid configuration that the charm will act on. */
  predicate Ready(model: map<nat, Relation>, id: nat) { id in model && model[id].ready && model[id].client.Valid? }

  /** A ready relation that is not recorded as synchronized with the flows of the pass. */
  predicate Pending(w: World, p: Pass, id: nat) {
    id in p.model && NeedsWrite(w, p.model[id], p.authorization, p.invalidation)
  }

  function WantIn(p: Pass, id: nat): Want
    requires Ready(p.model, id)
  {
    WantOf(p.model[id], p.authorization, p.invalidation)
  }

  function ScopesOf(p: Pass, id: nat): seq<string>
    requires id in p.model
  {
    Scopes(p.model[id].scope)
  }

  /** The error with which a relation stops a pass that nothing else stops, if any. */
  function Hinders(w: World, p: Pass, id: nat): Option<ApiError> {
    if id in p.model then Hindrance(w, p.model[id], p.authorization, p.invalidation) else None
  }

  /** The state after the first relation, as far as the next ones depend on it. */
  function Next(w: World, p: Pass): World
    requires p.ids != []
  {
    if p.ids[0] in p.model then w.(resolved := Learned(w, p.model[p.ids[0]], p.authorization, p.invalidation)) else w
  }

  /** The same after the first `j` relations. */
  function At(w: World, p: Pass, j: nat): World
    requires j <= |p.ids|
    decreases j
  {
    if j == 0 then w else At(Next(w, p), p.Tail(), j - 1)
  }

  function HinderedAt(w: World, p: Pass, j: nat): Option<ApiError>
    requires j < |p.ids|
  {
    Hinders(At(w, p, j), p, p.ids[j])
  }

  /** The scopes whose mappings the relation at `j` gets. */
  function ServedAt(w: World, p: Pass, j: nat): seq<string>
    requires j < |p.ids| && p.ids[j] in p.model
  {
    Served(At(w, p, j), ScopesOf(p, p.ids[j]))
  }

  /** How many relations a pass without faults gets through. */
  function Reach(w: World, p: Pass): (k: nat)
    ensures k <= |p.ids|
    ensures forall j :: 0 <= j < k ==> HinderedAt(w, p, j) == None
    ensures k < |p.ids| ==> HinderedAt(w, p, k) != None
    decreases |p.ids|
  {
    if p.ids == [] || Hinders(w, p, p.ids[0]).Some? then 0
    else
      var k := Reach(Next(w, p), p.Tail());
      assert forall j :: 0 < j <= |p.ids| ==> At(w, p, j) == At(Next(w, p), p.Tail(), j - 1);
      assert forall j :: 0 < j < |p.ids| ==> HinderedAt(w, p, j) == HinderedAt(Next(w, p), p.Tail(), j - 1);
      1 + k
  }

  /** Two states in which a pass has the same before it. */
  ghost predicate Alike(w: World, w': World, p: Pass) {
    && w'.resolved == w.resolved
    && w'.net.server.mappings == w.net.server.mappings && w'.net.server.accepted == w.net.server.accepted
    && forall q :: q in p.ids ==>
      && EntryOf(ReadCache(w'), q) == EntryOf(ReadCache(w), q)
      && BagOf(w'.work, q).credentials == BagOf(w.work, q).credentials
  }

  lemma AlikeHere(w: World, w': World, p: Pass, q: nat)
    requires ModelOk(p.model) && Alike(w, w', p) && q in p.ids
    ensures Pending(w', p, q) == Pending(w, p, q) && Hinders(w', p, q) == Hinders(w, p, q)
    ensures q in p.model ==> Served(w', ScopesOf(p, q)) == Served(w, ScopesOf(p, q))
  {}

  lemma AlikeNext(w: World, w': World, p: Pass)
    requires ModelOk(p.model) && Alike(w, w', p) && p.ids != []
    ensures Alike(Next(w, p), Next(w', p), p.Tail())
  {
    assert p.ids[0] in p.ids;
    AlikeHere(w, w', p, p.ids[0]);
  }

  lemma {:induction false} AlikeAt(w: World, w': World, p: Pass, j: nat)
    requires ModelOk(p.model) && Alike(w, w', p) && j < |p.ids|
    ensures HinderedAt(w', p, j) == HinderedAt(w, p, j) && Pending(w', p, p.ids[j]) == Pending(w, p, p.ids[j])
    ensures p.ids[j] in p.model ==> ServedAt(w', p, j) == ServedAt(w, p, j)
    decreases j
  {
    AlikeHere(w, w', p, p.ids[j]);
    if j > 0 {
      AlikeNext(w, w', p);
      AlikeAt(Next(w, p), Next(w', p), p.Tail(), j - 1);
    }
  }

  lemma {:induction false} AlikeReach(w: World, w': World, p: Pass)
    requires ModelOk(p.model) && Alike(w, w', p)
    ensures Reach(w', p) == Reach(w, p)
    decreases |p.ids|
  {
    if p.ids != [] {
      AlikeHere(w, w', p, p.ids[0]);
      AlikeNext(w, w', p);
      AlikeReach(Next(w, p), Next(w', p), p.Tail());
    }
  }

  // ---- Who asked first ------------------------------------------------------------------

  /** The relation at `i` looks up mappings under the joined text `key`. */
  predicate Asks(w: World, p: Pass, i: nat, key: string) {
    i < |p.ids| && Pending(w, p, p.ids[i]) && Join(ScopesOf(p, p.ids[i])) == key
  }

  predicate AsksFirst(w: World, p: Pass, i: nat, key: string) {
    Asks(w, p, i, key) && forall j: nat :: j < i ==> !Asks(w, p, j, key)
  }

  /** What is remembered under a text is what was remembered before, or that of the first to ask. */
  lemma {:induction false} MemoAt(w: World, p: Pass, j: nat, key: string)
    requires j <= |p.ids|
    ensures var m := At(w, p, j).resolved;
      && (key in m <==> key in w.resolved || exists i: nat :: i < j && Asks(w, p, i, key))
      && (key in w.resolved ==> m[key].scopes == w.resolved[key].scopes)
      && (key in m && key !in w.resolved ==>
        exists i: nat :: i < j && AsksFirst(w, p, i, key) && m[key].scopes == ScopesOf(p, p.ids[i]))
    decreases j
  {
    if j > 0 {
      var w1, p1 := Next(w, p), p.Tail();
      MemoAt(w1, p1, j - 1, key);
      forall i: nat ensures Asks(w1, p1, i, key) <==> Asks(w, p, i + 1, key) {}
      MemoAtNext(w, p, j, key);
    }
  }

  lemma MemoAtNext(w: World, p: Pass, j: nat, key: string)
    requires 0 < j <= |p.ids|
    requires var w1, p1 := Next(w, p), p.Tail(); var m := At(w1, p1, j - 1).resolved;
      && (key in m <==> key in w1.resolved || exists i: nat :: i < j - 1 && Asks(w1, p1, i, key))
      && (key in w1.resolved ==> m[key].scopes == w1.resolved[key].scopes)
      && (key in m && key !in w1.resolved ==>
        exists i: nat :: i < j - 1 && AsksFirst(w1, p1, i, key) && m[key].scopes == ScopesOf(p1, p1.ids[i]))
    requires forall i: nat :: Asks(Next(w, p), p.Tail(), i, key) <==> Asks(w, p, i + 1, key)
    ensures var m := At(w, p, j).resolved;
      && (key in m <==> key in w.resolved || exists i: nat :: i < j && Asks(w, p, i, key))
      && (key in w.resolved ==> m[key].scopes == w.resolved[key].scopes)
      && (key in m && key !in w.resolved ==>
        exists i: nat :: i < j && AsksFirst(w, p, i, key) && m[key].scopes == ScopesOf(p, p.ids[i]))
  {
    var w1, p1, m := Next(w, p), p.Tail(), At(w, p, j).resolved;
    assert key in w1.resolved <==> key in w.resolved || Asks(w, p, 0, key);
    if i: nat :| i < j && Asks(w, p, i, key) {
      assert i > 0 ==> Asks(w1, p1, i - 1, key);
    }
    if key in m && key !in w.resolved {
      if Asks(w, p, 0, key) {
        assert AsksFirst(w, p, 0, key) && m[key].scopes == ScopesOf(p, p.ids[0]);
      } else {
        var i: nat :| i < j - 1 && AsksFirst(w1, p1, i, key) && m[key].scopes == ScopesOf(p1, p1.ids[i]);
        forall k: nat | k < i + 1 ensures !Asks(w, p, k, key) {
          assert k > 0 ==> !Asks(w1, p1, k - 1, key);
        }
        assert AsksFirst(w, p, i + 1, key);
      }
    }
  }

  /** The joined text of the scopes is remembered, or some relation up to `j` has it and supported scopes. */
  ghost predicate Provided(w: World, p: Pass, j: nat)
    requires j < |p.ids| && p.ids[j] in p.model
  {
    var key := Join(ScopesOf(p, p.ids[j]));
    || key in w.resolved
    || exists i: nat :: i <= j && Asks(w, p, i, key) && Supported(w.net.server.mappings, ScopesOf(p, p.ids[i]))
  }

  ghost predicate Accepts(w: World, p: Pass) {
    p.authorization in w.net.server.accepted && p.invalidation in w.net.server.accepted
  }

  predicate SecretReadable(w: World, p: Pass, id: nat)
    requires id in p.model
  {
    BagOf(w.work, id).credentials.Some? ==> !p.model[id].secret.Unreadable?
  }

  /** Nothing stands in the way of any relation that needs a write. */
  ghost predicate Passable(w: World, p: Pass) {
    forall j :: 0 <= j < |p.ids| && Pending(w, p, p.ids[j]) ==>
      Accepts(w, p) && SecretReadable(w, p, p.ids[j]) && Provided(w, p, j)
  }

  lemma {:induction false} AtKeeps(w: World, p: Pass, j: nat)
    requires j <= |p.ids|
    ensures At(w, p, j) == w.(resolved := At(w, p, j).resolved)
    decreases j
  {
    if j > 0 {
      AtKeeps(Next(w, p), p.Tail(), j - 1);
    }
  }

  /** Whether the relation at `j` hinders the pass, given that those before it do not. */
  lemma HinderedIff(w: World, p: Pass, j: nat)
    requires ModelOk(p.model) && Remembers(w.net.server.mappings, w.resolved)
    requires j < |p.ids| && forall i :: 0 <= i < j ==> HinderedAt(w, p, i) == None
    ensures HinderedAt(w, p, j) == None <==>
      (Pending(w, p, p.ids[j]) ==> Accepts(w, p) && SecretReadable(w, p, p.ids[j]) && Provided(w, p, j))
  {
    AtKeeps(w, p, j);
    if Pending(w, p, p.ids[j]) {
      SupportedIff(w, p, j);
    }
  }

  lemma SupportedIff(w: World, p: Pass, j: nat)
    requires ModelOk(p.model) && Remembers(w.net.server.mappings, w.resolved)
    requires j < |p.ids| && (forall i :: 0 <= i < j ==> HinderedAt(w, p, i) == None) && Pending(w, p, p.ids[j])
    ensures Supported(w.net.server.mappings, ServedAt(w, p, j)) <==> Provided(w, p, j)
  {
    var key, table := Join(ScopesOf(p, p.ids[j])), w.net.server.mappings;
    MemoAt(w, p, j, key);
    AtKeeps(w, p, j);
    assert Asks(w, p, j, key);
    if key !in w.resolved {
      if i: nat :| i < j && AsksFirst(w, p, i, key) && ServedAt(w, p, j) == ScopesOf(p, p.ids[i]) {
        FirstIsServed(w, p, i, key);
        assert Supported(table, ScopesOf(p, p.ids[i]));
      } else {
        assert ServedAt(w, p, j) == ScopesOf(p, p.ids[j]);
      }
    }
  }

  /** The first to ask is served its own scopes, so a pass gets past it only if they are supported. */
  lemma FirstIsServed(w: World, p: Pass, i: nat, key: string)
    requires ModelOk(p.model) && AsksFirst(w, p, i, key) && key !in w.resolved && HinderedAt(w, p, i) == None
    ensures ServedAt(w, p, i) == ScopesOf(p, p.ids[i]) && Supported(w.net.server.mappings, ScopesOf(p, p.ids[i]))
  {
    MemoAt(w, p, i, key);
    AtKeeps(w, p, i);
  }

  /**
   A pass without faults gets to the end if and only if, of every relation that needs a write, the
   flows are accepted, the secret can be read, and the joined text of its scopes is that of
   supported scopes: its own, or those of a relation before it.
   */
  lemma PassableDecides(w: World, p: Pass)
    requires ModelOk(p.model) && Remembers(w.net.server.mappings, w.resolved)
    ensures Reach(w, p) == |p.ids| <==> Passable(w, p)
  {
    var k := Reach(w, p);
    if k < |p.ids| {
      HinderedIff(w, p, k);
    } else {
      forall j | 0 <= j < |p.ids| && Pending(w, p, p.ids[j])
        ensures Accepts(w, p) && SecretReadable(w, p, p.ids[j]) && Provided(w, p, j)
      {
        HinderedIff(w, p, j);
      }
    }
  }

  /** No relation that needs a write asks for a scope with a comma, and nothing is remembered yet. */
  ghost predicate CommaFree(w: World, p: Pass) {
    w.resolved == map[] && forall id :: id in p.ids && Pending(w, p, id) ==> Without(',', ScopesOf(p, id))
  }

  /** Then remembering is transparent: everyone is served its own scopes, which must be supported. */
  lemma CommaFreeTransparent(w: World, p: Pass, j: nat)
    requires ModelOk(p.model) && CommaFree(w, p) && j < |p.ids| && Pending(w, p, p.ids[j])
    ensures ServedAt(w, p, j) == ScopesOf(p, p.ids[j])
    ensures Provided(w, p, j) <==> Supported(w.net.server.mappings, ScopesOf(p, p.ids[j]))
  {
    var key := Join(ScopesOf(p, p.ids[j]));
    MemoAt(w, p, j, key);
    assert Asks(w, p, j, key);
    forall i: nat | Asks(w, p, i, key) ensures ScopesOf(p, p.ids[i]) == ScopesOf(p, p.ids[j]) {
      ScopesCanonical(p.model[p.ids[i]].scope);
      ScopesCanonical(p.model[p.ids[j]].scope);
      JoinInjective(ScopesOf(p, p.ids[i]), ScopesOf(p, p.ids[j]));
    }
  }

  // ---- What a pass brings about ---------------------------------------------------------

  /** Nothing of the relation differs, neither here nor on the server. */
  ghost predicate LeftAlone(ids: nat -> Names, w: World, w': World, q: nat) {
    && Same(ids(q), w.net.server, w'.net.server) && BagOf(w'.work, q) == BagOf(w.work, q)
    && (Rel(q) in w'.work.cache <==> Rel(q) in w.work.cache)
    && EntryOf(w'.work.cache, q) == EntryOf(w.work.cache, q)
  }

  /** Of the first `k` relations those that needed a write have been brought to the flows of the pass. */
  ghost predicate BroughtTo(c: Context, w: World, w': World, p: Pass, k: nat)
    requires k <= |p.ids|
  {
    forall j :: 0 <= j < k && Pending(w, p, p.ids[j]) ==>
      Converged(c, w', p.ids[j], WantIn(p, p.ids[j]), ServedAt(w, p, j))
  }

  /**
   What a pass without faults comes to: it gets to the end exactly if no relation hinders it; if
   one does, its error is the result. The relations before it that needed a write have converged,
   those after it are left alone.
   */
  ghost predicate UpTo(c: Context, w: World, r: Step<()>, p: Pass) {
    var k := Reach(w, p);
    && (r.Done? <==> k == |p.ids|)
    && BroughtTo(c, w, r.world, p, k)
    && (r.Raised? ==>
      && HinderedAt(w, p, k) == Some(r.error)
      && forall q: nat :: q !in p.ids[..k + 1] ==> LeftAlone(c.ids, w, r.world, q))
  }

  lemma LeftAloneTransitive(ids: nat -> Names, w: World, w1: World, w2: World, q: nat)
    requires LeftAlone(ids, w, w1, q) && LeftAlone(ids, w1, w2, q)
    ensures LeftAlone(ids, w, w2, q)
  {
    SameTransitive(ids(q), w.net.server, w1.net.server, w2.net.server);
  }

  lemma ConfinedLeavesAlone(ids: nat -> Names, w: World, w': World, touched: set<nat>, q: nat)
    requires Confined(ids, w, w', touched) && q !in touched
    ensures LeftAlone(ids, w, w', q)
  {
    assert !(Rel(q).Rel? && Rel(q).id in touched);
  }

  /** A relation stays converged when nothing of it changes. */
  lemma ConvergedKept(c: Context, w: World, w': World, id: nat, want: Want, served: seq<string>)
    requires Inv(c.ids, w) && Converged(c, w, id, want, served)
    requires Same(c.ids(id), w.net.server, w'.net.server) && BagOf(w'.work, id) == BagOf(w.work, id)
    requires w.peer ==>
      && (Rel(id) in w'.work.cache <==> Rel(id) in w.work.cache)
      && EntryOf(w'.work.cache, id) == EntryOf(w.work.cache, id)
    requires w'.peer == w.peer && w'.net.server.mappings == w.net.server.mappings
    ensures Converged(c, w', id, want, served)
  {
    var n, s, s' := c.ids(id), w.net.server, w'.net.server;
    var pk :| && Synced(s, Home(n, s), pk, PayloadFor(c, w, id, RemoteCredentials(s, pk), want, served))
              && (w.peer ==>
                && EntryOf(w.work.cache, id) == Entry(SCHEMA_VERSION, Some(DigestOf(want)), Some(pk), Home(n, s))
                && Rel(id) in w.work.cache)
              && BagOf(w.work, id).credentials == Some(RemoteCredentials(s, pk))
              && BagOf(w.work, id).info == Some(Published(c.host, Home(n, s), want.scopes));
    assert Bears(n, s, pk);
    assert Synced(s', Home(n, s'), pk, PayloadFor(c, w', id, RemoteCredentials(s', pk), want, served));
  }

  /** The inputs of a pass that no one else is to blame for. */
  ghost predicate Orderly(w: World, p: Pass) {
    ModelOk(p.model) && Distinct(p.ids) && forall i :: i in p.ids ==> i !in w.retired
  }

  function SyncFirst(c: Context, w: World, p: Pass): Step<()>
    requires p.ids != []
  {
    var id := p.ids[0];
    if id in p.model then SyncRelation(c, w, p.model[id], p.authorization, p.invalidation) else Done(w, ())
  }

  ghost predicate FirstFacts(c: Context, w: World, r: Step<()>, p: Pass)
    requires p.ids != []
  {
    var id := p.ids[0];
    && Inv(c.ids, r.world) && Working(c.ids, w, r.world)
    && (forall q: nat :: q != id ==> LeftAlone(c.ids, w, r.world, q))
    && Decides(r, Hinders(w, p, id))
    && (r.Done? ==> r.world.resolved == Next(w, p).resolved)
    && (r.Done? && Pending(w, p, id) ==> Converged(c, r.world, id, WantIn(p, id), Served(w, ScopesOf(p, id))))
  }

  lemma FirstOutcome(c: Context, w: World, p: Pass)
    requires p.ids != [] && Inv(c.ids, w) && ModelOk(p.model) && p.ids[0] !in w.retired && Calm(c.faults, |w.net.sent|)
    ensures FirstFacts(c, w, SyncFirst(c, w, p), p)
  {
    var id := p.ids[0];
    if id in p.model {
      SyncRelationInv(c, w, p.model[id], p.authorization, p.invalidation);
      OthersLeftAlone(c.ids, w, SyncFirst(c, w, p).world, id);
    } else {
      NoChange(c.ids, w, w);
    }
  }

  lemma OthersLeftAlone(ids: nat -> Names, w: World, w': World, id: nat)
    requires Confined(ids, w, w', {id})
    ensures forall q: nat :: q != id ==> LeftAlone(ids, w, w', q)
  {
    forall q: nat | q != id ensures LeftAlone(ids, w, w', q) {
      ConfinedLeavesAlone(ids, w, w', {id}, q);
    }
  }

  /** After the first relation the others have before them what the definition says. */
  lemma FirstAlike(c: Context, w: World, w1: World, p: Pass)
    requires p.ids != [] && Orderly(w, p) && FirstFacts(c, w, Done(w1, ()), p)
    ensures Alike(Next(w, p), w1, p.Tail())
  {
    forall q | q in p.Tail().ids
      ensures EntryOf(ReadCache(w1), q) == EntryOf(ReadCache(Next(w, p)), q)
      ensures BagOf(w1.work, q).credentials == BagOf(Next(w, p).work, q).credentials
    {
      assert LeftAlone(c.ids, w, w1, q);
    }
  }

  /** A pass that has got through its first relation. */
  lemma UpToRest(c: Context, w: World, w1: World, r: Step<()>, p: Pass)
    requires p.ids != [] && Orderly(w, p) && FirstFacts(c, w, Done(w1, ()), p)
    requires Working(c.ids, w1, r.world) && Confined(c.ids, w1, r.world, ToSet(p.ids[1..]))
    requires UpTo(c, w1, r, p.Tail())
    ensures UpTo(c, w, r, p)
  {
    FirstAlike(c, w, w1, p);
    AlikeReach(Next(w, p), w1, p.Tail());
    var k := Reach(w, p);
    assert k == 1 + Reach(w1, p.Tail());
    RestConverged(c, w, w1, r.world, p, k);
    if r.Raised? {
      AlikeAt(Next(w, p), w1, p.Tail(), k - 1);
      RestLeftAlone(c, w, w1, r.world, p.ids, k);
    }
  }

  lemma RestLeftAlone(c: Context, w: World, w1: World, w2: World, ids: seq<nat>, k: nat)
    requires 0 < k < |ids|
    requires forall q: nat :: q != ids[0] ==> LeftAlone(c.ids, w, w1, q)
    requires forall q: nat :: q !in ids[1..][..k] ==> LeftAlone(c.ids, w1, w2, q)
    ensures forall q: nat :: q !in ids[..k + 1] ==> LeftAlone(c.ids, w, w2, q)
  {
    forall q: nat | q !in ids[..k + 1] ensures LeftAlone(c.ids, w, w2, q) {
      assert ids[0] == ids[..k + 1][0];
      assert ids[1..][..k] == ids[..k + 1][1..];
      LeftAloneTransitive(c.ids, w, w1, w2, q);
    }
  }

  lemma FirstKept(c: Context, w1: World, w2: World, p: Pass, want: Want, served: seq<string>)
    requires p.ids != [] && Distinct(p.ids) && Inv(c.ids, w1) && Converged(c, w1, p.ids[0], want, served)
    requires Working(c.ids, w1, w2) && Confined(c.ids, w1, w2, ToSet(p.ids[1..]))
    ensures Converged(c, w2, p.ids[0], want, served)
  {
    ConfinedLeavesAlone(c.ids, w1, w2, ToSet(p.ids[1..]), p.ids[0]);
    ConvergedKept(c, w1, w2, p.ids[0], want, served);
  }

  lemma RestConverged(c: Context, w: World, w1: World, w2: World, p: Pass, k: nat)
    requires 0 < k <= |p.ids| && Orderly(w, p) && FirstFacts(c, w, Done(w1, ()), p)
    requires Alike(Next(w, p), w1, p.Tail())
    requires Working(c.ids, w1, w2) && Confined(c.ids, w1, w2, ToSet(p.ids[1..]))
    requires BroughtTo(c, w1, w2, p.Tail(), k - 1)
    ensures BroughtTo(c, w, w2, p, k)
  {
    if Pending(w, p, p.ids[0]) {
      FirstKept(c, w1, w2, p, WantIn(p, p.ids[0]), ServedAt(w, p, 0));
    }
    forall j | 0 < j < k && Pending(w, p, p.ids[j])
      ensures Converged(c, w2, p.ids[j], WantIn(p, p.ids[j]), ServedAt(w, p, j))
    {
      RestKept(c, w, w1, w2, p, k, j);
    }
  }

  lemma RestKept(c: Context, w: World, w1: World, w2: World, p: Pass, k: nat, j: nat)
    requires 0 < j < k <= |p.ids| && ModelOk(p.model) && Alike(Next(w, p), w1, p.Tail())
    requires BroughtTo(c, w1, w2, p.Tail(), k - 1) && Pending(w, p, p.ids[j])
    ensures Converged(c, w2, p.ids[j], WantIn(p, p.ids[j]), ServedAt(w, p, j))
  {
    AlikeAt(Next(w, p), w1, p.Tail(), j - 1);
    assert p.Tail().ids[j - 1] == p.ids[j] && Pending(w1, p.Tail(), p.ids[j]);
    assert Converged(c, w2, p.Tail().ids[j - 1], WantIn(p.Tail(), p.Tail().ids[j - 1]), ServedAt(w1, p.Tail(), j - 1));
  }

  /** A pass without faults over all relations, whatever they need and whatever they ask for. */
  lemma {:induction false} SyncAllOutcome(c: Context, w: World, p: Pass)
    requires Inv(c.ids, w) && Orderly(w, p) && Calm(c.faults, |w.net.sent|)
    ensures UpTo(c, w, SyncAll(c, w, p.model, p.ids, p.authorization, p.invalidation), p)
    decreases |p.ids|
  {
    if p.ids != [] {
      assert p.ids[0] in p.ids;
      FirstOutcome(c, w, p);
      var r1 := SyncFirst(c, w, p);
      if r1.Done? {
        SyncAllOutcome(c, r1.world, p.Tail());
        SyncAllInv(c, r1.world, p.model, p.ids[1..], p.authorization, p.invalidation);
        UpToRest(c, w, r1.world, SyncAll(c, r1.world, p.model, p.ids[1..], p.authorization, p.invalidation), p);
      } else {
        StopsAtFirst(c, w, r1, p);
      }
    }
  }

  lemma StopsAtFirst(c: Context, w: World, r: Step<()>, p: Pass)
    requires p.ids != [] && r.Raised? && FirstFacts(c, w, r, p)
    ensures UpTo(c, w, r, p)
  {
    assert Reach(w, p) == 0;
    forall q: nat | q !in p.ids[..1] ensures LeftAlone(c.ids, w, r.world, q) {
      assert p.ids[0] == p.ids[..1][0];
    }
  }

  /** Whatever follows on a state that looks the same comes to the same. */
  lemma UpToFrom(c: Context, w: World, w1: World, r: Step<()>, p: Pass)
    requires ModelOk(p.model) && Alike(w, w1, p) && forall q: nat :: LeftAlone(c.ids, w, w1, q)
    requires UpTo(c, w1, r, p)
    ensures UpTo(c, w, r, p)
  {
    AlikeReach(w, w1, p);
    var k := Reach(w, p);
    BroughtFrom(c, w, w1, r.world, p, k);
    if r.Raised? {
      AlikeAt(w, w1, p, k);
      forall q: nat | q !in p.ids[..k + 1] ensures LeftAlone(c.ids, w, r.world, q) {
        LeftAloneTransitive(c.ids, w, w1, r.world, q);
      }
    }
  }

  lemma BroughtFrom(c: Context, w: World, w1: World, w2: World, p: Pass, k: nat)
    requires k <= |p.ids| && ModelOk(p.model) && Alike(w, w1, p) && BroughtTo(c, w1, w2, p, k)
    ensures BroughtTo(c, w, w2, p, k)
  {
    forall j | 0 <= j < k && Pending(w, p, p.ids[j])
      ensures Converged(c, w2, p.ids[j], WantIn(p, p.ids[j]), ServedAt(w, p, j))
    {
      AlikeAt(w, w1, p, j);
    }
  }

  /** A later step that leaves these relations alone leaves the outcome as it is. */
  lemma BroughtThen(c: Context, w: World, w1: World, w2: World, p: Pass, k: nat)
    requires k <= |p.ids| && Inv(c.ids, w1) && Working(c.ids, w1, w2)
    requires forall j :: 0 <= j < k ==> LeftAlone(c.ids, w1, w2, p.ids[j])
    requires BroughtTo(c, w, w1, p, k)
    ensures BroughtTo(c, w, w2, p, k)
  {
    forall j | 0 <= j < k && Pending(w, p, p.ids[j])
      ensures Converged(c, w2, p.ids[j], WantIn(p, p.ids[j]), ServedAt(w, p, j))
    {
      ConvergedKept(c, w1, w2, p.ids[j], WantIn(p, p.ids[j]), ServedAt(w, p, j));
    }
  }
}
