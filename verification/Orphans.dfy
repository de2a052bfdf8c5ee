/** Orphans: what garbage collection can prove, and what it never can. */
module Orphans {
  import opened Options
  import opened AuthentikServer
  import opened AuthentikApi
  import opened ConfigKey
  import opened Reconciler
  import opened Ownership
  import opened SyncProofs
  import opened Invariant
  import opened Collection
  import opened Runs
  import opened Safety
  import opened Passes
  import opened Recovery

  /**
   "No orphan is ever left" is false: when a relation goes, a collection without faults removes its
   provider if and only if the cache has an entry for it.
   */
  lemma OrphanRemovedIffCached(c: Context, w: World, active: seq<nat>, r: nat, p: Pk)
    requires Inv(c.ids, w) && w.peer && Lists(c.order) && Calm(c.faults, |w.net.sent|)
    requires r !in w.retired && r !in active && Bears(c.ids(r), w.net.server, p)
    ensures var s' := GarbageCollect(c, Begin(w, active), ToSet(active)).world.net.server;
      p !in s'.providers <==> Rel(r) in w.work.cache
  {
    var b, act := Begin(w, active), ToSet(active);
    BeginInv(c.ids, w, active);
    var keys := c.order(b.work.cache.Keys);
    assert Rel(r) in keys <==> Rel(r) in w.work.cache;
    if Rel(r) in w.work.cache {
      assert EntryOk(c.ids(r), w.net, w.work, r, false);
      assert Sound(c.ids(r), w.net.server);
      GarbageCollectPass(c, b, act);
      assert Rel(r) in OrphansOf(b.work.cache, act);
      var a := GarbageCollect(c, b, act).world;
      assert Justified(a.net.server, b.work.cache[Rel(r)], Rel(r), a.work.cache);
    } else {
      CollectAllInv(c, b, act, keys);
      assert Rel(r) !in Orphans(keys, act);
    }
  }

  /** The relation is not active in any hook of the run. */
  ghost predicate NeverActive(events: seq<Event>, r: nat) {
    forall e :: e in events ==>
      && (e.HookEvent? ==> r !in e.hook.active)
      && (e.RoundEvent? ==> r !in e.active)
  }

  /** A hook makes no entry for a relation that is not active. */
  lemma ReconcileMakesNoEntry(c: Context, w: World, model: map<nat, Relation>, ids: seq<nat>, r: nat)
    requires Inv(c.ids, w) && Lists(c.order) && ModelOk(model) && Rel(r) !in w.work.cache && r !in ids
    requires forall i :: i in ids ==> i !in w.retired
    ensures Rel(r) !in Reconcile(c, w, model, ids).world.work.cache
  {
    if ids == [] {
      CollectMakesNoEntry(c, w, {});
    } else {
      ResolveFlowInv(c, w, AuthorizationFlow);
      ResolveFlowOutcome(c, w, AuthorizationFlow);
      var r1 := ResolveFlow(c, w, AuthorizationFlow);
      if r1.Done? {
        ResolveFlowInv(c, r1.world, InvalidationFlow);
        ResolveFlowOutcome(c, r1.world, InvalidationFlow);
        var r2 := ResolveFlow(c, r1.world, InvalidationFlow);
        if r2.Done? {
          ActiveMakesNoEntry(c, r2.world, model, ids, r1.value, r2.value, r);
          CollectMakesNoEntry(c, SyncActive(c, r2.world, model, ids, r1.value, r2.value).world, ToSet(ids));
        }
      }
    }
  }

  lemma ActiveMakesNoEntry(c: Context, w: World, model: map<nat, Relation>, ids: seq<nat>, authorization: string,
      invalidation: string, r: nat)
    requires Inv(c.ids, w) && ModelOk(model) && Rel(r) !in w.work.cache && r !in ids
    requires forall i :: i in ids ==> i !in w.retired
    ensures Rel(r) !in SyncActive(c, w, model, ids, authorization, invalidation).world.work.cache
  {
    SyncAllInv(c, w, model, ids, authorization, invalidation);
    assert r !in ToSet(ids);
  }

  lemma CollectMakesNoEntry(c: Context, w: World, active: set<nat>)
    requires Lists(c.order)
    ensures GarbageCollect(c, w, active).world.work.cache.Keys <= w.work.cache.Keys
  {
    if w.peer {
      GarbageCollectPass(c, w, active);
    } else {
      NothingListed(c, w, active);
    }
  }

  /** Neither copy of the local data has an entry for the relation, and the provider is there. */
  ghost predicate Orphaned(c: Context, w: World, r: nat, p: Pk) {
    && r !in w.retired && Rel(r) !in w.work.cache && Rel(r) !in w.saved.cache
    && Bears(c.ids(r), w.net.server, p)
  }

  /**
   An orphan without an entry stays for ever: no run of the handler in which its relation is not
   active removes the provider, and none makes an entry for it.
   */
  lemma {:induction false} OrphanStays(c: Context, w: World, events: seq<Event>, r: nat, p: Pk)
    requires Inv(c.ids, w) && Lists(c.order) && LegalRun(c, w, events) && NeverActive(events, r)
    requires Orphaned(c, w, r, p)
    ensures Orphaned(c, Run(c, w, events), r, p)
    decreases |events|
  {
    if events != [] {
      assert events[0] in events;
      HappenInv(c, w, events[0]);
      OrphanStep(c, w, events[0], r, p);
      forall x | x in events[1..] ensures x in events {}
      OrphanStays(c, Happen(c, w, events[0]), events[1..], r, p);
    }
  }

  lemma OrphanStep(c: Context, w: World, e: Event, r: nat, p: Pk)
    requires Inv(c.ids, w) && Lists(c.order) && Legal(c, w, e) && Orphaned(c, w, r, p) && NeverActive([e], r)
    ensures Orphaned(c, Happen(c, w, e), r, p)
  {
    assert e in [e];
    match e {
      case RoundEvent(model, active) => OrphanRound(c, w, model, active, r, p);
      case HookEvent(h) => OrphanRound(c, w, h.model, h.active, r, p);
      case ServerEvent(s) =>
      case PeerEvent =>
    }
  }

  lemma OrphanRound(c: Context, w: World, model: map<nat, Relation>, active: seq<nat>, r: nat, p: Pk)
    requires Inv(c.ids, w) && Lists(c.order) && ModelOk(model) && forall i :: i in active ==> i !in w.retired
    requires Orphaned(c, w, r, p) && r !in active
    ensures Orphaned(c, Reconcile(c, Begin(w, active), model, active).world, r, p)
  {
    BeginInv(c.ids, w, active);
    RoundInv(c, w, model, active);
    ReconcileMakesNoEntry(c, Begin(w, active), model, active, r);
  }

  /**
   And such orphans come about: the first hook of a run synchronizes a new relation, and the unit
   dies before its local writes are flushed. If the relation then goes, its provider is never
   removed, whatever happens.
   */
  lemma OrphanArises(c: Context, w: World, rel: Relation, rest: seq<Event>) returns (p: Pk)
    requires Initial(c, w) && Calm(c.faults, |w.net.sent|) && Resolvable(w)
    requires rel.ready && rel.client.Valid? && rel.secret.Readable?
    requires Supported(w.net.server.mappings, Scopes(rel.scope))
    requires FlowFor(w, AuthorizationFlow) in w.net.server.accepted
        && FlowFor(w, InvalidationFlow) in w.net.server.accepted
    requires var first := HookEvent(Hook(map[rel.id := rel], [rel.id], false, true));
      LegalRun(c, w, [first] + rest) && NeverActive(rest, rel.id)
    ensures var first := HookEvent(Hook(map[rel.id := rel], [rel.id], false, true));
      var u := Run(c, w, [first] + rest);
      Bears(c.ids(rel.id), u.net.server, p) && Rel(rel.id) !in u.saved.cache
  {
    var h := Hook(map[rel.id := rel], [rel.id], false, true);
    var events := [HookEvent(h)] + rest;
    assert events[0] == HookEvent(h) && events[1..] == rest;
    assert Rest(c.ids, w);
    p := CrashLeavesOrphan(c, w, rel);
    HookInv(c, w, h);
    OrphanStays(c, RunHook(c, w, h), rest, rel.id, p);
  }

  /** The hook that dies after its work leaves the provider and no entry. */
  lemma CrashLeavesOrphan(c: Context, w: World, rel: Relation) returns (p: Pk)
    requires Rest(c.ids, w) && Lists(c.order) && Calm(c.faults, |w.net.sent|) && Resolvable(w)
    requires w.work.cache == map[] && w.retired == {}
    requires rel.ready && rel.client.Valid? && rel.secret.Readable?
    requires Supported(w.net.server.mappings, Scopes(rel.scope))
    requires FlowFor(w, AuthorizationFlow) in w.net.server.accepted
        && FlowFor(w, InvalidationFlow) in w.net.server.accepted
    ensures var u := RunHook(c, w, Hook(map[rel.id := rel], [rel.id], false, true));
      Orphaned(c, u, rel.id, p)
  {
    var b := Begin(w, [rel.id]);
    BeginInv(c.ids, w, [rel.id]);
    assert b.retired == {};
    p := FirstConverges(c, b, rel);
    ReconcileInv(c, b, map[rel.id := rel], [rel.id]);
  }

  /** A reconciliation without faults of one new relation leaves it with a provider. */
  lemma FirstConverges(c: Context, w: World, rel: Relation) returns (p: Pk)
    requires Inv(c.ids, w) && Lists(c.order) && Calm(c.faults, |w.net.sent|) && Resolvable(w)
    requires w.work.cache == map[] && rel.id !in w.retired
    requires rel.ready && rel.client.Valid? && rel.secret.Readable?
    requires Supported(w.net.server.mappings, Scopes(rel.scope))
    requires FlowFor(w, AuthorizationFlow) in w.net.server.accepted
        && FlowFor(w, InvalidationFlow) in w.net.server.accepted
    ensures Bears(c.ids(rel.id), Reconcile(c, w, map[rel.id := rel], [rel.id]).world.net.server, p)
  {
    var model := map[rel.id := rel];
    ReconcileOutcome(c, w, model, [rel.id]);
    ReconcileInv(c, w, model, [rel.id]);
    OnePasses(w, rel, PassOf(w, model, [rel.id]));
    p := OneBears(c, w, Reconcile(c, w, model, [rel.id]), PassOf(w, model, [rel.id]));
  }

  lemma OnePasses(w: World, rel: Relation, p: Pass)
    requires p.model == map[rel.id := rel] && p.ids == [rel.id] && w.work.cache == map[] && Accepts(w, p)
    requires rel.ready && rel.client.Valid? && rel.secret.Readable?
    requires Remembers(w.net.server.mappings, w.resolved) && Supported(w.net.server.mappings, Scopes(rel.scope))
    ensures Reach(w, p) == 1 && Pending(w, p, rel.id)
  {
    AllPassable(w, p);
    PassableDecides(w, p);
  }

  lemma OneBears(c: Context, w: World, r: Step<()>, pass: Pass) returns (p: Pk)
    requires |pass.ids| == 1 && Reach(w, pass) == 1 && UpTo(c, w, r, pass) && Inv(c.ids, r.world)
    requires Pending(w, pass, pass.ids[0])
    ensures Bears(c.ids(pass.ids[0]), r.world.net.server, p)
  {
    var id := pass.ids[0];
    p := ConvergedFully(c, r.world, id, WantIn(pass, id), ServedAt(w, pass, 0));
  }
}
