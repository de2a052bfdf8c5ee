/** What requirers can do to each other: unsupported scopes, and scopes with commas. */
module Starvation {
  import opened Options
  import opened Text
  import opened AuthentikServer
  import opened AuthentikApi
  import opened ConfigKey
  import opened Reconciler
  import opened Ownership
  import opened SyncProofs
  import opened Invariant
  import opened Collection
  import opened Runs
  import opened Passes
  import opened Recovery

  // ---- Which scopes let a pass through --------------------------------------------------

  /** Accepted flows, readable secrets: then only scopes can stop a pass without faults. */
  ghost predicate Welcome(c: Context, w: World, p: Pass) {
    && Inv(c.ids, w) && Orderly(w, p) && Calm(c.faults, |w.net.sent|) && Accepts(w, p)
    && forall id :: id in p.ids && id in p.model ==> p.model[id].secret.Readable?
  }

  /**
   With accepted flows, readable secrets and no faults, a pass over the relations gets to the end if
   and only if, of every relation that needs a write, the joined text of its scopes is remembered
   already or is that of supported scopes: its own, or those of a relation before it.
   */
  lemma ScopesDecide(c: Context, w: World, p: Pass)
    requires Welcome(c, w, p)
    ensures var r := SyncAll(c, w, p.model, p.ids, p.authorization, p.invalidation);
      && (r.Done? <==> forall j :: 0 <= j < |p.ids| && Pending(w, p, p.ids[j]) ==> Provided(w, p, j))
      && (r.Raised? ==> r.error == Validation)
  {
    SyncAllOutcome(c, w, p);
    ProvidedDecides(c, w, p);
    if Reach(w, p) < |p.ids| {
      OnlyValidation(c, w, p, Reach(w, p));
    }
  }

  lemma ProvidedDecides(c: Context, w: World, p: Pass)
    requires Welcome(c, w, p)
    ensures Reach(w, p) == |p.ids| <==> forall j :: 0 <= j < |p.ids| && Pending(w, p, p.ids[j]) ==> Provided(w, p, j)
  {
    PassableDecides(w, p);
    forall j | 0 <= j < |p.ids| && Pending(w, p, p.ids[j]) ensures SecretReadable(w, p, p.ids[j]) {
      assert p.ids[j] in p.ids;
    }
  }

  lemma OnlyValidation(c: Context, w: World, p: Pass, j: nat)
    requires Welcome(c, w, p) && j < |p.ids| && HinderedAt(w, p, j) != None
    ensures HinderedAt(w, p, j) == Some(Validation)
  {
    AtKeeps(w, p, j);
    assert p.ids[j] in p.ids;
  }

  /** If no scope has a comma, that is: exactly if everyone who needs a write asks for supported scopes. */
  lemma CommaFreeScopesDecide(c: Context, w: World, p: Pass)
    requires Welcome(c, w, p) && CommaFree(w, p)
    ensures var r := SyncAll(c, w, p.model, p.ids, p.authorization, p.invalidation);
      && (r.Done? <==> forall id :: id in p.ids && Pending(w, p, id) ==>
            Supported(w.net.server.mappings, ScopesOf(p, id)))
      && (r.Raised? ==> r.error == Validation)
  {
    ScopesDecide(c, w, p);
    forall j | 0 <= j < |p.ids| && Pending(w, p, p.ids[j])
      ensures Provided(w, p, j) <==> Supported(w.net.server.mappings, ScopesOf(p, p.ids[j]))
    {
      CommaFreeTransparent(w, p, j);
    }
    forall id | id in p.ids && Pending(w, p, id) ensures exists j :: 0 <= j < |p.ids| && p.ids[j] == id {}
  }

  // ---- Two words and one ----------------------------------------------------------------

  lemma TwoWords()
    ensures Scopes("a b") == ["a", "b"]
  {
    assert "a b"[1..] == " b" && " b"[1..] == "b" && "b"[1..] == "";
    assert Words("", "b") == ["b"];
    assert "" + ['b'] == "b" && "" + ['a'] == "a";
    assert Words("b", "") == Words("", "" + ['b']);
    assert Words("b", "") == ["b"];
    assert Words(" b", "a") == ["a"] + Words("b", "");
    assert Words("a b", "") == Words(" b", "" + ['a']);
    assert Words("a b", "") == ["a", "b"];
    var words := ["a", "b"];
    assert words[1..] == ["b"] && words[1..][1..] == [];
    assert Lower("a") == "a" && Lower("b") == "b";
    assert LowerAll(["b"]) == ["b"];
    assert LowerAll(words) == words;
    assert SortedSet(["b"]) == ["b"];
    assert Less("a", "b");
    assert SortedSet(words) == Insert("a", SortedSet(["b"]));
  }

  lemma OneWord()
    ensures Scopes("a,b") == ["a,b"]
  {
    assert "a,b"[1..] == ",b" && ",b"[1..] == "b" && "b"[1..] == "";
    assert Words("", "a,b") == ["a,b"];
    assert Words("b", "a,") == Words("", "a," + ['b']);
    assert "a," + ['b'] == "a,b";
    assert Words(",b", "a") == Words("b", "a" + [',']);
    assert "a" + [','] == "a,";
    assert Words("a,b", "") == Words(",b", "" + ['a']);
    assert "" + ['a'] == "a";
    assert Words("a,b", "") == ["a,b"];
    assert Lower("a,b") == "a,b";
    assert ["a,b"][1..] == [];
    assert LowerAll(["a,b"]) == ["a,b"];
  }

  /** Different scopes, one of them unsupported, with the same joined text. */
  lemma SameJoinedText()
    ensures Join(Scopes("a b")) == Join(Scopes("a,b")) && Scopes("a b") != Scopes("a,b")
  {
    TwoWords();
    OneWord();
    assert ["a", "b"][1..] == ["b"];
    assert Join(["a", "b"]) == "a" + "," + "b";
  }

  /**
   An unsupported scope that is not refused. A relation that asks for two supported scopes makes the
   pass get through a later one that asks for a single scope, unsupported, with a comma between the
   same words. The later relation is served the mappings of the two.
   */
  lemma CommaCollides(c: Context, w: World, p: Pass)
    requires Welcome(c, w, p) && |p.ids| == 2 && w.resolved == map[]
    requires Pending(w, p, p.ids[0]) && Pending(w, p, p.ids[1])
    requires p.model[p.ids[0]].scope == "a b" && p.model[p.ids[1]].scope == "a,b"
    requires "a" in w.net.server.mappings && "b" in w.net.server.mappings && "a,b" !in w.net.server.mappings
    ensures !Supported(w.net.server.mappings, ScopesOf(p, p.ids[1]))
    ensures var r := SyncAll(c, w, p.model, p.ids, p.authorization, p.invalidation);
      r.Done? && Converged(c, r.world, p.ids[1], WantIn(p, p.ids[1]), ["a", "b"])
  {
    TwoWords();
    OneWord();
    SameJoinedText();
    UnsupportedWord(w.net.server.mappings, "a,b");
    LaterIsServed(c, w, p, ["a", "b"], ["a,b"]);
  }

  /** Of two relations whose scopes have the same joined text, the later is served those of the first. */
  lemma LaterIsServed(c: Context, w: World, p: Pass, first: seq<string>, second: seq<string>)
    requires Welcome(c, w, p) && |p.ids| == 2 && w.resolved == map[]
    requires Pending(w, p, p.ids[0]) && Pending(w, p, p.ids[1])
    requires ScopesOf(p, p.ids[0]) == first && ScopesOf(p, p.ids[1]) == second && Join(first) == Join(second)
    requires Supported(w.net.server.mappings, first)
    ensures var r := SyncAll(c, w, p.model, p.ids, p.authorization, p.invalidation);
      r.Done? && Converged(c, r.world, p.ids[1], WantIn(p, p.ids[1]), first)
  {
    TwoPass(c, w, p, first, second);
    SyncAllOutcome(c, w, p);
    SecondServed(c, w, SyncAll(c, w, p.model, p.ids, p.authorization, p.invalidation), p, first);
  }

  lemma TwoPass(c: Context, w: World, p: Pass, first: seq<string>, second: seq<string>)
    requires Welcome(c, w, p) && |p.ids| == 2 && w.resolved == map[]
    requires Pending(w, p, p.ids[0]) && Pending(w, p, p.ids[1])
    requires ScopesOf(p, p.ids[0]) == first && ScopesOf(p, p.ids[1]) == second && Join(first) == Join(second)
    requires Supported(w.net.server.mappings, first)
    ensures Reach(w, p) == 2 && ServedAt(w, p, 1) == first
  {
    SharedKey(w, p, first, second);
    ProvidedDecides(c, w, p);
  }

  lemma SharedKey(w: World, p: Pass, first: seq<string>, second: seq<string>)
    requires |p.ids| == 2 && w.resolved == map[] && Pending(w, p, p.ids[0]) && Pending(w, p, p.ids[1])
    requires ScopesOf(p, p.ids[0]) == first && ScopesOf(p, p.ids[1]) == second && Join(first) == Join(second)
    requires Supported(w.net.server.mappings, first)
    ensures Provided(w, p, 0) && Provided(w, p, 1) && ServedAt(w, p, 1) == first
  {
    var key := Join(first);
    assert Asks(w, p, 0, key) && Asks(w, p, 1, key);
    MemoAt(w, p, 1, key);
  }

  lemma UnsupportedWord(table: map<string, string>, word: string)
    requires word !in table
    ensures !Supported(table, [word])
  {
    assert [word][0] == word;
  }

  lemma SecondServed(c: Context, w: World, r: Step<()>, p: Pass, served: seq<string>)
    requires |p.ids| == 2 && UpTo(c, w, r, p) && Reach(w, p) == 2
    requires Pending(w, p, p.ids[1]) && ServedAt(w, p, 1) == served
    ensures r.Done? && Converged(c, r.world, p.ids[1], WantIn(p, p.ids[1]), served)
  {}

  // ---- Starvation -----------------------------------------------------------------------

  /** A relation that asks for a scope the server does not have, and is recorded with no flows. */
  ghost predicate Unserved(table: map<string, string>, cache: Cache, rel: Relation) {
    && rel.ready && rel.client.Valid? && !Supported(table, Scopes(rel.scope))
    && forall a, i :: !Hit(EntryOf(cache, rel.id), WantOf(rel, a, i))
  }

  /** The cache is the same, and so is every databag but one. */
  ghost predicate Untouched(l: Local, l': Local, id: nat) {
    l'.cache == l.cache && forall q: nat :: q != id ==> BagOf(l', q) == BagOf(l, q)
  }

  /** The server is as it was, and here nothing changed but the databag of the relation. */
  ghost predicate Stuck(w: World, w': World, id: nat) {
    && w'.net.server == w.net.server && w.net.sent <= w'.net.sent && w'.saved == w.saved
    && Untouched(w.work, w'.work, id)
  }

  /** Resolving a flow touches neither server nor cache nor databags. */
  lemma FlowStuck(c: Context, w: World, flow: Flow, id: nat)
    requires Inv(c.ids, w)
    ensures var r := ResolveFlow(c, w, flow);
      && Stuck(w, r.world, id) && Inv(c.ids, r.world) && r.world.resolved == w.resolved
      && (r.Raised? && Calm(c.faults, |w.net.sent|) ==> ReadFlowCache(w, flow) == "" && flow !in w.net.server.current)
      && (forall other :: other != flow ==> ReadFlowCache(r.world, other) == ReadFlowCache(w, other))
  {
    ResolveFlowInv(c, w, flow);
    ResolveFlowOutcome(c, w, flow);
  }

  /** Synchronizing it raises, under any faults, and only reads. */
  lemma UnservedRaises(c: Context, w: World, rel: Relation, authorization: string, invalidation: string)
    requires Inv(c.ids, w) && w.resolved == map[] && Unserved(w.net.server.mappings, w.work.cache, rel)
    ensures var r := SyncRelation(c, w, rel, authorization, invalidation);
      && r.Raised? && Stuck(w, r.world, rel.id)
      && (Calm(c.faults, |w.net.sent|) && rel.secret.Readable? ==> r.error == Validation)
  {
    var slug := SlugOf(c.ids(rel.id), EntryOf(ReadCache(w), rel.id));
    assert NeedsWrite(w, rel, authorization, invalidation);
    PublishInv(c.ids, w, c.host, rel.id, slug, Scopes(rel.scope));
    var w1 := Publish(w, c.host, rel.id, slug, Scopes(rel.scope));
    ScopesCanonical(rel.scope);
    ResolveMappingsOutcome(c, w1, Scopes(rel.scope));
  }

  /**
   As the first relation of a pass it ends the reconciliation, under any faults: nothing else is
   synchronized or collected.
   */
  lemma UnservedStops(c: Context, w: World, model: map<nat, Relation>, ids: seq<nat>)
    requires Inv(c.ids, w) && Lists(c.order) && w.resolved == map[]
    requires ids != [] && ids[0] in model && model[ids[0]].id == ids[0]
    requires Unserved(w.net.server.mappings, w.work.cache, model[ids[0]])
    ensures var r := Reconcile(c, w, model, ids);
      && r.Raised? && Stuck(w, r.world, ids[0])
      && (Calm(c.faults, |w.net.sent|) && Resolvable(w) && model[ids[0]].secret.Readable? ==> r.error == Validation)
  {
    FlowStuck(c, w, AuthorizationFlow, ids[0]);
    var r1 := ResolveFlow(c, w, AuthorizationFlow);
    if r1.Done? {
      FlowStuck(c, r1.world, InvalidationFlow, ids[0]);
      var r2 := ResolveFlow(c, r1.world, InvalidationFlow);
      if r2.Done? {
        UnservedActive(c, w, r2.world, model, ids, r1.value, r2.value);
      }
    }
  }

  lemma UnservedActive(c: Context, w: World, w2: World, model: map<nat, Relation>, ids: seq<nat>,
      authorization: string, invalidation: string)
    requires ids != [] && Inv(c.ids, w2) && w2.resolved == map[] && Stuck(w, w2, ids[0])
    requires ids[0] in model && model[ids[0]].id == ids[0]
    requires Unserved(w.net.server.mappings, w.work.cache, model[ids[0]])
    ensures var r := SyncActive(c, w2, model, ids, authorization, invalidation);
      && r.Raised? && Stuck(w, r.world, ids[0])
      && (Calm(c.faults, |w2.net.sent|) && model[ids[0]].secret.Readable? ==> r.error == Validation)
  {
    UnservedRaises(c, w2, model[ids[0]], authorization, invalidation);
    var r := SyncRelation(c, w2, model[ids[0]], authorization, invalidation);
    assert SyncAll(c, w2, model, ids, authorization, invalidation) == r;
    ForgettingStuck(w, r.world, ids[0]);
  }

  lemma ForgettingStuck(w: World, w1: World, id: nat)
    requires Stuck(w, w1, id)
    ensures Stuck(w, ForgetFlows(w1), id)
  {}

  /** Such a relation, not always the same one, comes first in every run of the handler. */
  ghost predicate AlwaysFirst(table: map<string, string>, cache: Cache, events: seq<Event>, id: nat) {
    forall e :: e in events ==> match e
      case RoundEvent(model, active) => First(table, cache, model, active, id)
      case HookEvent(h) => First(table, cache, h.model, h.active, id)
      case _ => true
  }

  ghost predicate First(table: map<string, string>, cache: Cache, model: map<nat, Relation>, active: seq<nat>,
      id: nat) {
    active != [] && active[0] == id && id in model && model[id].id == id && Unserved(table, cache, model[id])
  }

  /** The server as the other users alone leave it. */
  function ServerAfter(s: Server, events: seq<Event>): Server
    decreases |events|
  {
    if events == [] then s
    else ServerAfter(if events[0].ServerEvent? then events[0].server else s, events[1..])
  }

  /** Neither copy of the local data differs from `l` but in the databag of one relation. */
  ghost predicate Frozen(l: Local, w: World, id: nat) { Untouched(l, w.work, id) && Untouched(l, w.saved, id) }

  /**
   Starvation. While relations with unsupported scopes have the lowest id, no run of the handler, in
   whatever hook, with or without faults, changes anything on the server or in the cache, or the
   databag of any other relation: no other relation is synchronized and no orphan is removed.
   */
  lemma {:induction false} UnservedStarves(c: Context, w: World, l: Local, events: seq<Event>, id: nat)
    requires Inv(c.ids, w) && Lists(c.order) && LegalRun(c, w, events) && Frozen(l, w, id)
    requires AlwaysFirst(w.net.server.mappings, l.cache, events, id)
    ensures var u := Run(c, w, events);
      Frozen(l, u, id) && u.net.server == ServerAfter(w.net.server, events)
    decreases |events|
  {
    if events != [] {
      assert events[0] in events;
      UnservedEvent(c, w, l, events[0], id);
      HappenInv(c, w, events[0]);
      forall e | e in events[1..] ensures e in events {}
      UnservedStarves(c, Happen(c, w, events[0]), l, events[1..], id);
    }
  }

  lemma UnservedEvent(c: Context, w: World, l: Local, e: Event, id: nat)
    requires Inv(c.ids, w) && Lists(c.order) && Legal(c, w, e) && Frozen(l, w, id)
    requires AlwaysFirst(w.net.server.mappings, l.cache, [e], id)
    ensures var u := Happen(c, w, e);
      && Frozen(l, u, id) && u.net.server.mappings == w.net.server.mappings
      && u.net.server == if e.ServerEvent? then e.server else w.net.server
  {
    assert e in [e];
    match e {
      case RoundEvent(model, active) => UnservedRound(c, w, l, model, active, id);
      case HookEvent(h) => UnservedRound(c, w, l, h.model, h.active, id);
      case _ =>
    }
  }

  lemma UnservedRound(c: Context, w: World, l: Local, model: map<nat, Relation>, active: seq<nat>, id: nat)
    requires Inv(c.ids, w) && Lists(c.order) && Frozen(l, w, id)
    requires First(w.net.server.mappings, l.cache, model, active, id)
    ensures var u := Reconcile(c, Begin(w, active), model, active).world;
      Frozen(l, u, id) && u.net.server == w.net.server
  {
    BeginInv(c.ids, w, active);
    UnservedStops(c, Begin(w, active), model, active);
  }
}
