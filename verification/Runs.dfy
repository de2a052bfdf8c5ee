/**
 Whole runs: hooks that commit or lose what they wrote locally, other users of the server, and a
 peer relation that may come late. What holds in every state any such run can reach.
 */
module Runs {
  import opened Options
  import opened AuthentikServer
  import opened AuthentikApi
  import opened ConfigKey
  import opened Reconciler
  import opened Ownership
  import opened SyncProofs
  import opened Invariant
  import opened Collection

  // ---- One hook -------------------------------------------------------------------------

  /**
   The inputs of the last run of the handler in a hook. `keep` is Juju's choice for a hook that fails,
       and `crash` says that
   the unit dies before what the hook wrote is flushed, however the hook ended.
   */
  datatype Hook = Hook(model: map<nat, Relation>, active: seq<nat>, keep: bool, crash: bool)

  /** The errors the handler lets out; every other error is logged and the hook ends normally. */
  predicate Escapes(e: ApiError) { e == Transient || e == Unexpected }

  /** A run of the handler has a reconciler of its own. The retirement of inactive cached relations is history. */
  function Begin(w: World, active: seq<nat>): World {
    w.(resolved := map[],
       retired := w.retired + set k | k in w.work.cache && Collectable(k, ToSet(active)) :: k.id)
  }

  /** At its end a hook's client and reconciler are gone, and its local writes are committed or lost. */
  function Commit(w: World): World { w.(memo := None, resolved := map[], saved := w.work) }

  function Discard(w: World): World { w.(memo := None, resolved := map[], work := w.saved) }

  function RunHook(c: Context, w: World, h: Hook): World
    requires Lists(c.order)
  {
    match Reconcile(c, Begin(w, h.active), h.model, h.active)
    case Done(w1, _) => if h.crash then Discard(w1) else Commit(w1)
    case Raised(w1, e) => if h.crash || (Escapes(e) && !h.keep) then Discard(w1) else Commit(w1)
  }

  // ---- Runs -----------------------------------------------------------------------------

  /**
   The handler runs and the hook goes on, or it runs and the hook ends; someone else uses the
   server, or the peer relation appears.
   */
  datatype Event =
    | RoundEvent(model: map<nat, Relation>, active: seq<nat>)
    | HookEvent(hook: Hook)
    | ServerEvent(server: Server)
    | PeerEvent

  /**
   A relation with a cache entry that was once inactive is never active again, and no one else
   touches an object that bears a relation's identity; flows may change at will. A hook goes on
   only after a run of the handler that let no error out.
   */
  ghost predicate Legal(c: Context, w: World, e: Event)
    requires Lists(c.order)
  {
    match e
    case RoundEvent(model, active) =>
      && ModelOk(model) && (forall i :: i in active ==> i !in w.retired)
      && var r := Reconcile(c, Begin(w, active), model, active); r.Raised? ==> !Escapes(r.error)
    case HookEvent(h) => ModelOk(h.model) && forall i :: i in h.active ==> i !in w.retired
    case ServerEvent(s) => Ages(w.net.server, s) && forall r: nat :: Same(c.ids(r), w.net.server, s)
    case PeerEvent => true
  }

  function Happen(c: Context, w: World, e: Event): World
    requires Lists(c.order)
  {
    match e
    case RoundEvent(model, active) => Reconcile(c, Begin(w, active), model, active).world
    case HookEvent(h) => RunHook(c, w, h)
    case ServerEvent(s) => w.(net := w.net.(server := s))
    case PeerEvent => w.(peer := true)
  }

  function Run(c: Context, w: World, events: seq<Event>): World
    requires Lists(c.order)
    decreases |events|
  {
    if events == [] then w else Run(c, Happen(c, w, events[0]), events[1..])
  }

  ghost predicate LegalRun(c: Context, w: World, events: seq<Event>)
    requires Lists(c.order)
    decreases |events|
  {
    events != [] ==> Legal(c, w, events[0]) && LegalRun(c, Happen(c, w, events[0]), events[1..])
  }

  /**
   The beginning: nothing cached, and at most one identity, managed or legacy, of each relation on
   the server. Whatever other objects the server holds is arbitrary.
   */
  ghost predicate Initial(c: Context, w: World) {
    && Lists(c.order) && Separated(c.ids)
    && Numbered(w.net.server)
    && (forall r: nat :: Sound(c.ids(r), w.net.server) && Live(c.ids(r), w.net.server))
    && w.work == w.saved && w.work.cache == map[] && w.memo.None? && w.resolved == map[] && w.retired == {}
  }

  /** Between hooks, both copies are the same, and nothing is remembered. */
  ghost predicate Rest(ids: nat -> Names, w: World) {
    Inv(ids, w) && w.work == w.saved && w.memo.None? && w.resolved == map[]
  }

  // ---- The invariant over runs ----------------------------------------------------------

  lemma CollectInv(c: Context, w: World, active: set<nat>)
    requires Inv(c.ids, w) && Lists(c.order)
    requires forall k :: k in ReadCache(w) && Collectable(k, active) ==> k.id in w.retired
    ensures var a := GarbageCollect(c, w, active);
      && Inv(c.ids, a.world) && Working(c.ids, w, a.world)
      && forall q: nat :: q in active ==> Same(c.ids(q), w.net.server, a.world.net.server)
  {
    var keys := c.order(ReadCache(w).Keys);
    if w.peer {
      CollectAllInv(c, w, active, keys);
    } else {
      assert forall i :: 0 <= i < |keys| ==> keys[i] in keys;
    }
  }

  lemma ResolveFlowOutcome(c: Context, w: World, flow: Flow)
    ensures var r := ResolveFlow(c, w, flow);
      && r.world == w.(net := r.world.net, work := w.work.(authorization := r.world.work.authorization,
          invalidation := r.world.work.invalidation))
      && r.world.net.server == w.net.server && w.net.sent <= r.world.net.sent
      && (Calm(c.faults, |w.net.sent|) && flow in w.net.server.current ==> r.Done?)
      && (r.Done? && ReadFlowCache(w, flow) == "" ==>
          flow in w.net.server.current && r.value == w.net.server.current[flow])
      && (r.Done? && ReadFlowCache(w, flow) != "" ==> r.value == ReadFlowCache(w, flow) && r.world == w)
      && (r.Done? && w.peer ==> ReadFlowCache(r.world, flow) == r.value)
  {
    ReadFlowOutcome(c.faults, w.net, flow);
  }

  lemma ResolveFlowInv(c: Context, w: World, flow: Flow)
    requires Inv(c.ids, w)
    ensures var r := ResolveFlow(c, w, flow);
      Inv(c.ids, r.world) && Working(c.ids, w, r.world) && r.world.work.cache == w.work.cache
  {
    ResolveFlowOutcome(c, w, flow);
    var w' := ResolveFlow(c, w, flow).world;
    ReadInv(c.ids, w, w.(net := w'.net));
    FlowInv(c.ids, w.(net := w'.net), w');
  }

  lemma SyncActiveInv(c: Context, w: World, model: map<nat, Relation>, ids: seq<nat>, authorization: string,
      invalidation: string)
    requires Inv(c.ids, w) && ModelOk(model) && forall i :: i in ids ==> i !in w.retired
    ensures var r := SyncActive(c, w, model, ids, authorization, invalidation);
      && Inv(c.ids, r.world) && Working(c.ids, w, r.world) && (r.Done? ==> Confined(c.ids, w, r.world, ToSet(ids)))
  {
    SyncAllInv(c, w, model, ids, authorization, invalidation);
    var w1 := SyncAll(c, w, model, ids, authorization, invalidation).world;
    FlowInv(c.ids, w1, ForgetFlows(w1));
  }

  /** The two halves of a reconciliation once it has its flows. */
  lemma SyncCollectInv(c: Context, w0: World, w: World, model: map<nat, Relation>, ids: seq<nat>,
      authorization: string, invalidation: string)
    requires Inv(c.ids, w) && Lists(c.order) && ModelOk(model) && Working(c.ids, w0, w)
    requires forall i :: i in ids ==> i !in w.retired
    requires forall k :: k in w.work.cache && Collectable(k, ToSet(ids)) ==> k.id in w.retired
    ensures var r := SyncActive(c, w, model, ids, authorization, invalidation);
      && Inv(c.ids, r.world) && Working(c.ids, w0, r.world)
      && (r.Done? ==> var w' := GarbageCollect(c, r.world, ToSet(ids)).world; Inv(c.ids, w') && Working(c.ids, w0, w'))
  {
    SyncActiveInv(c, w, model, ids, authorization, invalidation);
    var r := SyncActive(c, w, model, ids, authorization, invalidation);
    WorkingTransitive(c.ids, w0, w, r.world);
    if r.Done? {
      CollectInv(c, r.world, ToSet(ids));
      WorkingTransitive(c.ids, w0, r.world, GarbageCollect(c, r.world, ToSet(ids)).world);
    }
  }

  lemma ReconcileInv(c: Context, w: World, model: map<nat, Relation>, ids: seq<nat>)
    requires Inv(c.ids, w) && Lists(c.order) && ModelOk(model)
    requires forall i :: i in ids ==> i !in w.retired
    requires forall k :: k in w.work.cache && Collectable(k, ToSet(ids)) ==> k.id in w.retired
    ensures var r := Reconcile(c, w, model, ids);
      Inv(c.ids, r.world) && Working(c.ids, w, r.world)
  {
    if ids == [] {
      CollectInv(c, w, {});
    } else {
      ResolveFlowInv(c, w, AuthorizationFlow);
      var r1 := ResolveFlow(c, w, AuthorizationFlow);
      if r1.Done? {
        ResolveFlowInv(c, r1.world, InvalidationFlow);
        var r2 := ResolveFlow(c, r1.world, InvalidationFlow);
        WorkingTransitive(c.ids, w, r1.world, r2.world);
        if r2.Done? {
          SyncCollectInv(c, w, r2.world, model, ids, r1.value, r2.value);
        }
      }
    }
  }

  /** More relations retire: entries promise less. */
  lemma BeginInv(ids: nat -> Names, w: World, active: seq<nat>)
    requires Inv(ids, w)
    ensures Inv(ids, Begin(w, active))
  {
    var w' := Begin(w, active);
    forall r: nat | Rel(r) in w'.work.cache ensures EntryOk(ids(r), w'.net, w'.work, r, r in w'.retired) {
      assert EntryOk(ids(r), w.net, w.work, r, r in w.retired);
    }
    forall r: nat | Rel(r) in w'.saved.cache ensures EntryOk(ids(r), w'.net, w'.saved, r, r in w'.retired) {
      assert EntryOk(ids(r), w.net, w.saved, r, r in w.retired);
    }
  }

  lemma RoundInv(c: Context, w: World, model: map<nat, Relation>, active: seq<nat>)
    requires Inv(c.ids, w) && Lists(c.order) && ModelOk(model) && forall i :: i in active ==> i !in w.retired
    ensures var r := Reconcile(c, Begin(w, active), model, active);
      Inv(c.ids, r.world) && Working(c.ids, Begin(w, active), r.world)
  {
    BeginInv(c.ids, w, active);
    ReconcileInv(c, Begin(w, active), model, active);
  }

  lemma HookInv(c: Context, w: World, h: Hook)
    requires Inv(c.ids, w) && Lists(c.order) && Legal(c, w, HookEvent(h))
    ensures Rest(c.ids, RunHook(c, w, h))
  {
    RoundInv(c, w, h.model, h.active);
    var r := Reconcile(c, Begin(w, h.active), h.model, h.active);
    EndInv(c.ids, r.world);
  }

  /** Committed or discarded, the invariant holds. */
  lemma EndInv(ids: nat -> Names, w: World)
    requires Inv(ids, w)
    ensures Rest(ids, Commit(w)) && Rest(ids, Discard(w))
  {
    forall r: nat | Rel(r) in w.work.cache ensures EntryOk(ids(r), w.net, w.work, r, r in w.retired) {}
    forall r: nat | Rel(r) in w.saved.cache ensures EntryOk(ids(r), w.net, w.saved, r, r in w.retired) {}
  }

  /**
   What becomes of the local writes. A hook that dies loses them; one out of which a transient failure
   or an exception that is no API error escapes loses them unless Juju keeps them; after every other
   error, and after a normal end, they are committed.
   */
  lemma HookEnds(c: Context, w: World, h: Hook)
    requires Inv(c.ids, w) && Lists(c.order) && Legal(c, w, HookEvent(h))
    ensures var r := Reconcile(c, Begin(w, h.active), h.model, h.active); var u := RunHook(c, w, h);
      && u.net == r.world.net && u.memo.None? && u.resolved == map[]
      && (h.crash ==> u.saved == w.saved && u.work == w.saved)
      && (!h.crash && !h.keep && r.Raised? && (r.error == Transient || r.error == Unexpected) ==>
        u.saved == w.saved && u.work == w.saved)
      && (!h.crash && (h.keep || r.Done? || (r.error != Transient && r.error != Unexpected)) ==>
        u.saved == r.world.work && u.work == r.world.work)
  {
    RoundInv(c, w, h.model, h.active);
  }

  /** A run of the handler is followed by more in the same hook only if no such error was raised. */
  lemma RoundGoesOn(c: Context, w: World, model: map<nat, Relation>, active: seq<nat>)
    requires Lists(c.order) && Legal(c, w, RoundEvent(model, active))
    ensures var r := Reconcile(c, Begin(w, active), model, active);
      r.Raised? ==> r.error != Transient && r.error != Unexpected
  {}

  lemma ServerEventInv(c: Context, w: World, s: Server)
    requires Inv(c.ids, w) && Lists(c.order) && Legal(c, w, ServerEvent(s))
    ensures Inv(c.ids, w.(net := w.net.(server := s)))
  {
    var w' := w.(net := w.net.(server := s));
    forall r: nat ensures Sound(c.ids(r), s) && (r !in w.retired ==> Live(c.ids(r), s)) {
      SameSound(c.ids(r), w.net.server, s);
      if r !in w.retired {
        SameLive(c.ids(r), w.net.server, s);
      }
    }
    forall r: nat | Rel(r) in w.work.cache ensures EntryOk(c.ids(r), w'.net, w.work, r, r in w.retired) {
      EntryElsewhere(c.ids(r), w.net, w'.net, w.work, r, r in w.retired);
    }
    forall r: nat | Rel(r) in w.saved.cache ensures EntryOk(c.ids(r), w'.net, w.saved, r, r in w.retired) {
      EntryElsewhere(c.ids(r), w.net, w'.net, w.saved, r, r in w.retired);
    }
  }

  lemma HappenInv(c: Context, w: World, e: Event)
    requires Inv(c.ids, w) && Lists(c.order) && Legal(c, w, e)
    ensures Inv(c.ids, Happen(c, w, e))
  {
    match e {
      case RoundEvent(model, active) => RoundInv(c, w, model, active);
      case HookEvent(h) => HookInv(c, w, h);
      case ServerEvent(s) => ServerEventInv(c, w, s);
      case PeerEvent =>
    }
  }

  lemma {:induction false} RunInv(c: Context, w: World, events: seq<Event>)
    requires Inv(c.ids, w) && Lists(c.order) && LegalRun(c, w, events)
    ensures Inv(c.ids, Run(c, w, events))
    decreases |events|
  {
    if events != [] {
      HappenInv(c, w, events[0]);
      RunInv(c, Happen(c, w, events[0]), events[1..]);
    }
  }

  /** Every state of every legal run satisfies the invariant. */
  lemma Reachable(c: Context, w: World, events: seq<Event>)
    requires Initial(c, w) && LegalRun(c, w, events)
    ensures Inv(c.ids, Run(c, w, events))
  {
    assert Rest(c.ids, w);
    RunInv(c, w, events);
  }
}
