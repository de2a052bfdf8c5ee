/** A reconciliation that ended normally leaves nothing to do for the next one. */
module Quiescence {
  import opened Options
  import opened AuthentikServer
  import opened AuthentikApi
  import opened ConfigKey
  import opened Reconciler
  import opened Ownership
  import opened SyncProofs
  import opened Invariant
  import opened Collection
  import opened Runs

  /** Synchronizing the relation would publish what is published already, and no more. */
  ghost predicate Settled(ids: nat -> Names, host: string, l: Local, rel: Relation, authorization: string,
      invalidation: string) {
    rel.ready ==>
      var e := EntryOf(l.cache, rel.id);
      && rel.id in l.bags
      && l.bags[rel.id].info == Some(Published(host, SlugOf(ids(rel.id), e), Scopes(rel.scope)))
      && (rel.client.Valid? ==> Hit(e, WantOf(rel, authorization, invalidation)))
  }

  lemma SettledDoesNothing(c: Context, w: World, rel: Relation, authorization: string, invalidation: string)
    requires w.peer && Settled(c.ids, c.host, w.work, rel, authorization, invalidation)
    ensures SyncRelation(c, w, rel, authorization, invalidation) == Done(w, ())
  {
    if rel.ready {
      var bag := w.work.bags[rel.id];
      assert bag.(info := bag.info) == bag;
      assert w.work.bags[rel.id := bag] == w.work.bags;
    }
  }

  lemma SyncSettles(c: Context, w: World, rel: Relation, authorization: string, invalidation: string)
    requires Inv(c.ids, w) && w.peer && rel.id !in w.retired && SecretKept(w.work, rel)
    requires SyncRelation(c, w, rel, authorization, invalidation).Done?
    ensures Settled(c.ids, c.host, SyncRelation(c, w, rel, authorization, invalidation).world.work, rel,
        authorization, invalidation)
  {
    var r := SyncRelation(c, w, rel, authorization, invalidation);
    SyncRelationInv(c, w, rel, authorization, invalidation);
    if rel.ready && NeedsWrite(w, rel, authorization, invalidation) {
      var n, s := c.ids(rel.id), r.world.net.server;
      assert n.managed != "" && n.legacy != "";
      assert Converged(c, r.world, rel.id, WantOf(rel, authorization, invalidation), Served(w, Scopes(rel.scope)));
      assert BagOf(r.world.work, rel.id).info.Some?;
    }
  }

  /** The relations Juju finds among `ids` are settled. */
  ghost predicate AllSettled(c: Context, l: Local, model: map<nat, Relation>, ids: seq<nat>, authorization: string,
      invalidation: string) {
    forall i :: i in ids && i in model ==> Settled(c.ids, c.host, l, model[i], authorization, invalidation)
  }

  lemma {:induction false} SyncAllSettles(c: Context, w: World, model: map<nat, Relation>, ids: seq<nat>,
      authorization: string, invalidation: string)
    requires Inv(c.ids, w) && w.peer && ModelOk(model) && Distinct(ids) && forall i :: i in ids ==> i !in w.retired
    requires SyncAll(c, w, model, ids, authorization, invalidation).Done?
    ensures AllSettled(c, SyncAll(c, w, model, ids, authorization, invalidation).world.work, model, ids,
        authorization, invalidation)
    decreases |ids|
  {
    if ids != [] {
      var id := ids[0];
      assert id in ids;
      NoChange(c.ids, w, w);
      if id in model {
        SyncRelationInv(c, w, model[id], authorization, invalidation);
        SyncSettles(c, w, model[id], authorization, invalidation);
      }
      var w1 := (if id in model then SyncRelation(c, w, model[id], authorization, invalidation) else Done(w, ())).world;
      SyncAllSettles(c, w1, model, ids[1..], authorization, invalidation);
      SyncAllInv(c, w1, model, ids[1..], authorization, invalidation);
      assert id !in ToSet(ids[1..]);
    }
  }

  lemma {:induction false} AllSettledDoesNothing(c: Context, w: World, model: map<nat, Relation>, ids: seq<nat>,
      authorization: string, invalidation: string)
    requires w.peer && ModelOk(model) && AllSettled(c, w.work, model, ids, authorization, invalidation)
    ensures SyncAll(c, w, model, ids, authorization, invalidation) == Done(w, ())
    decreases |ids|
  {
    if ids != [] {
      assert ids[0] in ids;
      if ids[0] in model {
        SettledDoesNothing(c, w, model[ids[0]], authorization, invalidation);
      }
      AllSettledDoesNothing(c, w, model, ids[1..], authorization, invalidation);
    }
  }

  /** Collecting changes the cache of no active relation, and then has nothing left to collect. */
  lemma CollectSettles(c: Context, d: Context, w: World, u: World, ids: seq<nat>, model: map<nat, Relation>,
      authorization: string, invalidation: string)
    requires w.peer && Lists(c.order) && Lists(d.order) && ModelOk(model)
    requires AllSettled(c, w.work, model, ids, authorization, invalidation)
    requires GarbageCollect(c, w, ToSet(ids)).Done?
    requires u.peer && u.work == GarbageCollect(c, w, ToSet(ids)).world.work
    ensures var w' := GarbageCollect(c, w, ToSet(ids)).world;
      && OrphansOf(w'.work.cache, ToSet(ids)) == {}
      && w'.work.authorization == w.work.authorization && w'.work.invalidation == w.work.invalidation
      && AllSettled(c, w'.work, model, ids, authorization, invalidation)
      && GarbageCollect(d, u, ToSet(ids)) == Done(u, ())
  {
    var active := ToSet(ids);
    GarbageCollectPass(c, w, active);
    CollectAllWrites(c, w, active, w.work.cache, c.order(w.work.cache.Keys));
    var w' := GarbageCollect(c, w, active).world;
    forall i | i in ids && i in model ensures Settled(c.ids, c.host, w'.work, model[i], authorization, invalidation) {
      assert Rel(i) !in OrphansOf(w.work.cache, active);
      assert EntryOf(w'.work.cache, i) == EntryOf(w.work.cache, i);
    }
    var keys := d.order(w'.work.cache.Keys);
    assert Orphans(keys, active) == {};
    NothingToCollect(d, u, active, w'.work.cache, keys);
  }

  /**
   Quiescence. After a reconciliation that ended normally, with the peer relation there, the same
   reconciliation again, on the local data the first one left, sends not one request and changes
   nothing at all: the whole state comes out equal, whatever faults await and whatever has become
   of the server, for any number of relations, ready or not, valid or not.
   */
  lemma Quiescent(c: Context, d: Context, w: World, u: World, model: map<nat, Relation>, ids: seq<nat>)
    requires Inv(c.ids, w) && w.peer && Lists(c.order) && Lists(d.order) && d.ids == c.ids && d.host == c.host
    requires ModelOk(model) && Distinct(ids) && forall i :: i in ids ==> i !in w.retired
    requires forall flow :: flow in w.net.server.current ==> w.net.server.current[flow] != ""
    requires Reconcile(c, w, model, ids).Done?
    requires u.peer && u.work == Reconcile(c, w, model, ids).world.work
    ensures Reconcile(d, u, model, ids) == Done(u, ())
    ensures OrphansOf(u.work.cache, ToSet(ids)) == {}
  {
    var r := Reconcile(c, w, model, ids);
    if ids == [] {
      assert ToSet(ids) == {};
      CollectSettles(c, d, w, u, ids, model, "", "");
    } else {
      ResolveFlowInv(c, w, AuthorizationFlow);
      ResolveFlowOutcome(c, w, AuthorizationFlow);
      var r1 := ResolveFlow(c, w, AuthorizationFlow);
      ResolveFlowInv(c, r1.world, InvalidationFlow);
      ResolveFlowOutcome(c, r1.world, InvalidationFlow);
      var r2 := ResolveFlow(c, r1.world, InvalidationFlow);
      var a, i := r1.value, r2.value;
      SyncAllSettles(c, r2.world, model, ids, a, i);
      SyncAllInv(c, r2.world, model, ids, a, i);
      var w3 := SyncAll(c, r2.world, model, ids, a, i).world;
      CollectSettles(c, d, w3, u, ids, model, a, i);
      AllSettledSame(c, d, u.work, model, ids, a, i);
      AllSettledDoesNothing(d, u, model, ids, a, i);
      FlowsCached(c, w, r2.world);
      assert ResolveFlow(d, u, AuthorizationFlow) == Done(u, a);
      assert ResolveFlow(d, u, InvalidationFlow) == Done(u, i);
    }
  }

  /**
   Quiescence of hooks. A hook that reconciled normally, at the end of any run, is followed by a
   hook on the same inputs that leaves every part of the state as it is, whether it commits,
   fails to, or dies, and whatever faults it would meet.
   */
  lemma HooksSettle(c: Context, d: Context, w: World, events: seq<Event>, h: Hook, again: Hook)
    requires Initial(c, w) && LegalRun(c, w, events) && Lists(d.order) && d.ids == c.ids && d.host == c.host
    requires var v := Run(c, w, events);
      && v.peer && Legal(c, v, HookEvent(h))
      && (forall flow :: flow in v.net.server.current ==> v.net.server.current[flow] != "")
      && Reconcile(c, Begin(v, h.active), h.model, h.active).Done?
    requires Distinct(h.active) && !h.crash && again.model == h.model && again.active == h.active
    ensures var u := RunHook(c, Run(c, w, events), h);
      RunHook(d, u, again) == u
  {
    Reachable(c, w, events);
    var v := Run(c, w, events);
    var b := Begin(v, h.active);
    BeginInv(c.ids, v, h.active);
    var u := RunHook(c, v, h);
    ReconcileInv(c, b, h.model, h.active);
    Quiescent(c, d, b, Begin(u, h.active), h.model, h.active);
    assert forall k :: k in u.work.cache ==> k !in OrphansOf(u.work.cache, ToSet(h.active));
    assert Begin(u, h.active) == u;
  }

  lemma AllSettledSame(c: Context, d: Context, l: Local, model: map<nat, Relation>, ids: seq<nat>,
      authorization: string, invalidation: string)
    requires d.ids == c.ids && d.host == c.host && AllSettled(c, l, model, ids, authorization, invalidation)
    ensures AllSettled(d, l, model, ids, authorization, invalidation)
  {}

  /** Both flows are cached once both are resolved. */
  lemma FlowsCached(c: Context, w: World, w2: World)
    requires w.peer && forall flow :: flow in w.net.server.current ==> w.net.server.current[flow] != ""
    requires var r1 := ResolveFlow(c, w, AuthorizationFlow);
      r1.Done? && var r2 := ResolveFlow(c, r1.world, InvalidationFlow); r2.Done? && w2 == r2.world
    ensures var r1 := ResolveFlow(c, w, AuthorizationFlow); var r2 := ResolveFlow(c, r1.world, InvalidationFlow);
      && w2.work.authorization == r1.value != "" && w2.work.invalidation == r2.value != ""
  {
    ResolveFlowOutcome(c, w, AuthorizationFlow);
    ResolveFlowOutcome(c, ResolveFlow(c, w, AuthorizationFlow).world, InvalidationFlow);
  }
}
