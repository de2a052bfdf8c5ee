/** What one reconciliation without faults restores, from whatever state the faults before left. */
module Recovery {
  import opened Options
  import opened AuthentikServer
  import opened AuthentikApi
  import opened ConfigKey
  import opened Reconciler
  import opened Ownership
  import opened SyncProofs
  import opened Invariant
  import opened Collection
  import opened Runs
  import opened Passes

  // ---- Crash recovery -------------------------------------------------------------------

  /**
   The complete end state of a relation: one application, one provider bearing its names, holding
   the desired settings, with the mappings of the scopes it is served, and the published
   credentials, and a complete cache entry naming both.
   */
  ghost predicate FullySynced(c: Context, w: World, id: nat, want: Want, served: seq<string>, pk: Pk) {
    var n, s := c.ids(id), w.net.server;
    && (forall p :: Bears(n, s, p) <==> p == pk)
    && pk in s.providers && s.providers[pk].name == n.provider
    && Configured(s.providers[pk].settings, s.mappings, want.uris, want.grants, want.authorization,
        want.invalidation, served)
    && BagOf(w.work, id).credentials == Some(s.providers[pk].credentials)
    && Home(n, s) in s.apps && s.apps[Home(n, s)] == Application(n.provider, Some(pk))
    && (forall slug :: SlugIs(n, slug) && slug in s.apps ==> slug == Home(n, s))
    && (w.peer ==>
      Rel(id) in w.work.cache
      && w.work.cache[Rel(id)] == Entry(2, Some(DigestOf(want)), Some(pk), Home(n, s)))
  }

  lemma ConvergedFully(c: Context, w: World, id: nat, want: Want, served: seq<string>) returns (pk: Pk)
    requires Inv(c.ids, w) && Converged(c, w, id, want, served)
    ensures FullySynced(c, w, id, want, served, pk)
  {
    var n, s := c.ids(id), w.net.server;
    pk :| && Synced(s, Home(n, s), pk, PayloadFor(c, w, id, RemoteCredentials(s, pk), want, served))
          && (w.peer ==>
            && EntryOf(w.work.cache, id) == Entry(SCHEMA_VERSION, Some(DigestOf(want)), Some(pk), Home(n, s))
            && Rel(id) in w.work.cache)
          && BagOf(w.work, id).credentials == Some(RemoteCredentials(s, pk));
    assert Sound(n, s);
    assert Bears(n, s, pk);
  }

  /**
   Crash recovery. Whatever ran before, cut at any API call with the effect applied or lost and
   local writes kept or discarded, starting from nothing or from a legacy application: one
   synchronization of a relation in service that meets no fault ends fully synchronized, the first
   of a new reconciler with exactly the mappings of its scopes.
   */
  lemma CrashRecovery(c: Context, w: World, events: seq<Event>, active: seq<nat>, rel: Relation, authorization: string,
      invalidation: string)
    returns (pk: Pk)
    requires Initial(c, w) && LegalRun(c, w, events)
    requires var u := Begin(Run(c, w, events), active);
      && rel.id !in u.retired && Calm(c.faults, |u.net.sent|)
      && NeedsWrite(u, rel, authorization, invalidation)
      && (BagOf(u.work, rel.id).credentials.Some? ==> rel.secret.Readable?)
      && Supported(u.net.server.mappings, Scopes(rel.scope))
      && authorization in u.net.server.accepted && invalidation in u.net.server.accepted
    ensures var r := SyncRelation(c, Begin(Run(c, w, events), active), rel, authorization, invalidation);
      && r.Done? && FullySynced(c, r.world, rel.id, WantOf(rel, authorization, invalidation), Scopes(rel.scope), pk)
      && Configured(r.world.net.server.providers[pk].settings, r.world.net.server.mappings, Stripped(rel.client.uris),
                    Stripped(rel.client.grants), authorization, invalidation, Scopes(rel.scope))
      && BagOf(r.world.work, rel.id).info ==
          Some(Published(c.host, Home(c.ids(rel.id), r.world.net.server), Scopes(rel.scope)))
  {
    Reachable(c, w, events);
    BeginInv(c.ids, Run(c, w, events), active);
    var u := Begin(Run(c, w, events), active);
    SyncRelationInv(c, u, rel, authorization, invalidation);
    var u1 := SyncRelation(c, u, rel, authorization, invalidation).world;
    pk := ConvergedFully(c, u1, rel.id, WantOf(rel, authorization, invalidation), Scopes(rel.scope));
    var _ := ConvergedMeans(c, u1, rel, authorization, invalidation, Scopes(rel.scope));
  }

  /** Entries are as before or have lost their hash. */
  ghost predicate NoNewHash(before: Cache, after: Cache) {
    forall k :: k in after && after[k].hash.Some? ==> k in before && before[k] == after[k]
  }

  /** A synchronization that raises has recorded no hash. */
  lemma RaisedNoNewHash(c: Context, w: World, rel: Relation, authorization: string, invalidation: string)
    requires Inv(c.ids, w) && rel.id !in w.retired && SecretKept(w.work, rel)
    requires SyncRelation(c, w, rel, authorization, invalidation).Raised?
    ensures NoNewHash(w.work.cache, SyncRelation(c, w, rel, authorization, invalidation).world.work.cache)
  {
    var slug := SlugOf(c.ids(rel.id), EntryOf(ReadCache(w), rel.id));
    PublishInv(c.ids, w, c.host, rel.id, slug, Scopes(rel.scope));
    var w1 := Publish(w, c.host, rel.id, slug, Scopes(rel.scope));
    var want := WantOf(rel, authorization, invalidation);
    var r1 := ObtainCredentials(c, w1, rel);
    if r1.Done? {
      ScopesCanonical(rel.scope);
      ResolveMappingsOutcome(c, w1, want.scopes);
      var r2 := ResolveMappings(c, w1, want.scopes);
      if r2.Done? {
        var v := Provider(c.ids(rel.id).provider, r1.value.0, SettingsWith(want, r2.value.mappings));
        SyncObjectsInv(c, r2.world, rel.id, v);
        OnlyOwnEntry(rel.id, w1.work.cache, SyncObjects(c, r2.world, rel.id, ReadCache(w1), v).world.work.cache);
      }
    }
  }

  lemma OnlyOwnEntry(id: nat, before: Cache, after: Cache)
    requires before - {Rel(id)} == after - {Rel(id)}
    requires after == before || (Rel(id) in after && after[Rel(id)].hash.None?)
    ensures NoNewHash(before, after)
  {
    forall k | k in after && after[k].hash.Some? ensures k in before && before[k] == after[k] {
      if after != before {
        assert k != Rel(id);
        assert k in after - {Rel(id)};
        assert k in before - {Rel(id)};
      }
    }
  }

  // ---- A whole reconciliation -----------------------------------------------------------

  /** The UUID a reconciliation uses for a flow: the cached one, else the server's current one. */
  function FlowFor(w: World, flow: Flow): string {
    if ReadFlowCache(w, flow) != "" then ReadFlowCache(w, flow)
    else if flow in w.net.server.current then w.net.server.current[flow]
    else ""
  }

  ghost predicate Resolvable(w: World) {
    forall flow :: ReadFlowCache(w, flow) != "" || flow in w.net.server.current
  }

  /** Without faults both flows are at hand, and nothing but their caches changes. */
  lemma FlowsResolved(c: Context, w: World)
    requires Inv(c.ids, w) && Calm(c.faults, |w.net.sent|) && Resolvable(w)
    ensures var r1 := ResolveFlow(c, w, AuthorizationFlow); var r2 := ResolveFlow(c, r1.world, InvalidationFlow);
      && r1 == Done(r1.world, FlowFor(w, AuthorizationFlow)) && r2 == Done(r2.world, FlowFor(w, InvalidationFlow))
      && Inv(c.ids, r2.world) && Working(c.ids, w, r2.world)
      && r2.world.work.cache == w.work.cache && r2.world.work.bags == w.work.bags
      && r2.world.net.server == w.net.server && r2.world.resolved == w.resolved
      && (w.peer ==> r2.world.work.authorization == r1.value && r2.world.work.invalidation == r2.value)
  {
    ResolveFlowInv(c, w, AuthorizationFlow);
    ResolveFlowOutcome(c, w, AuthorizationFlow);
    var w1 := ResolveFlow(c, w, AuthorizationFlow).world;
    ResolveFlowInv(c, w1, InvalidationFlow);
    ResolveFlowOutcome(c, w1, InvalidationFlow);
    WorkingTransitive(c.ids, w, w1, ResolveFlow(c, w1, InvalidationFlow).world);
  }

  /** The pass of a reconciliation. */
  function PassOf(w: World, model: map<nat, Relation>, ids: seq<nat>): Pass {
    Pass(model, ids, FlowFor(w, AuthorizationFlow), FlowFor(w, InvalidationFlow))
  }

  /** The loop over the relations with its handler. */
  lemma SyncActiveOutcome(c: Context, w: World, p: Pass)
    requires Inv(c.ids, w) && Orderly(w, p) && Calm(c.faults, |w.net.sent|)
    ensures UpTo(c, w, SyncActive(c, w, p.model, p.ids, p.authorization, p.invalidation), p)
  {
    SyncAllOutcome(c, w, p);
    SyncAllInv(c, w, p.model, p.ids, p.authorization, p.invalidation);
    var r := SyncAll(c, w, p.model, p.ids, p.authorization, p.invalidation);
    if r.Raised? {
      ForgettingUpTo(c, w, r, p);
    }
  }

  lemma ForgettingLeavesAlone(c: Context, w: World)
    ensures Working(c.ids, w, ForgetFlows(w)) && forall q: nat :: LeftAlone(c.ids, w, ForgetFlows(w), q)
  {
    NoChange(c.ids, w, ForgetFlows(w));
  }

  lemma ForgettingUpTo(c: Context, w: World, r: Step<()>, p: Pass)
    requires r.Raised? && Inv(c.ids, r.world) && UpTo(c, w, r, p)
    ensures UpTo(c, w, Raised(ForgetFlows(r.world), r.error), p)
  {
    var k, w' := Reach(w, p), ForgetFlows(r.world);
    ForgettingLeavesAlone(c, r.world);
    BroughtThen(c, w, r.world, w', p, k);
    forall q: nat | q !in p.ids[..k + 1] ensures LeftAlone(c.ids, w, w', q) {
      LeftAloneTransitive(c.ids, w, r.world, w', q);
    }
  }

  /** Garbage collection without faults gets to the end and leaves active relations alone. */
  lemma CollectLeavesActive(c: Context, w: World, ids: seq<nat>)
    requires Inv(c.ids, w) && Lists(c.order) && Calm(c.faults, |w.net.sent|)
    requires forall k :: k in w.work.cache && Collectable(k, ToSet(ids)) ==> k.id in w.retired
    ensures var r := GarbageCollect(c, w, ToSet(ids));
      && r.Done? && Inv(c.ids, r.world) && Working(c.ids, w, r.world)
      && (w.peer ==> OrphansOf(r.world.work.cache, ToSet(ids)) == {})
      && forall q :: q in ids ==> LeftAlone(c.ids, w, r.world, q)
  {
    CollectInv(c, w, ToSet(ids));
    if w.peer {
      GarbageCollectPass(c, w, ToSet(ids));
      CollectAllWrites(c, w, ToSet(ids), w.work.cache, c.order(w.work.cache.Keys));
      var w' := GarbageCollect(c, w, ToSet(ids)).world;
      forall q | q in ids ensures LeftAlone(c.ids, w, w', q) {
        assert q in ToSet(ids) && Rel(q) !in OrphansOf(w.work.cache, ToSet(ids));
      }
    } else {
      NothingListed(c, w, ToSet(ids));
      NoChange(c.ids, w, w);
    }
  }

  lemma NothingListed(c: Context, w: World, active: set<nat>)
    requires Lists(c.order) && !w.peer
    ensures GarbageCollect(c, w, active) == Done(w, ())
  {
    var none: Cache := map[];
    var keys := c.order(none.Keys);
    assert forall i :: 0 <= i < |keys| ==> keys[i] in keys;
  }

  ghost predicate ReconcileFacts(c: Context, w: World, r: Step<()>, model: map<nat, Relation>, ids: seq<nat>) {
    && UpTo(c, w, r, PassOf(w, model, ids))
    && (r.Done? && w.peer ==> OrphansOf(r.world.work.cache, ToSet(ids)) == {})
  }

  /**
   A reconciliation without faults, whatever each relation needs and asks for: it gets to the end
   exactly if no relation that needs a write is hindered, and then those relations have converged
   and every orphan in the cache is gone. Else the first one that is hindered decides the error;
   those after it, and all orphans, are left alone.
   */
  lemma ReconcileOutcome(c: Context, w: World, model: map<nat, Relation>, ids: seq<nat>)
    requires Inv(c.ids, w) && Lists(c.order) && Orderly(w, PassOf(w, model, ids)) && Calm(c.faults, |w.net.sent|)
    requires Resolvable(w)
    requires forall k :: k in w.work.cache && Collectable(k, ToSet(ids)) ==> k.id in w.retired
    ensures ReconcileFacts(c, w, Reconcile(c, w, model, ids), model, ids)
  {
    if ids == [] {
      assert ToSet(ids) == {};
      CollectLeavesActive(c, w, ids);
    } else {
      ReconcileActive(c, w, model, ids);
    }
  }

  lemma ReconcileActive(c: Context, w: World, model: map<nat, Relation>, ids: seq<nat>)
    requires Inv(c.ids, w) && Lists(c.order) && Orderly(w, PassOf(w, model, ids)) && Calm(c.faults, |w.net.sent|)
    requires ids != [] && Resolvable(w)
    requires forall k :: k in w.work.cache && Collectable(k, ToSet(ids)) ==> k.id in w.retired
    ensures ReconcileFacts(c, w, Reconcile(c, w, model, ids), model, ids)
  {
    var p := PassOf(w, model, ids);
    var w2 := ReconcileSteps(c, w, model, ids);
    SyncActiveOutcome(c, w2, p);
    SyncActiveInv(c, w2, model, ids, p.authorization, p.invalidation);
    var r3 := SyncActive(c, w2, model, ids, p.authorization, p.invalidation);
    SameBefore(c, w, w2, p);
    UpToFrom(c, w, w2, r3, p);
    if r3.Done? {
      CollectLeavesActive(c, r3.world, ids);
      BroughtThen(c, w, r3.world, GarbageCollect(c, r3.world, ToSet(ids)).world, p, |ids|);
    }
  }

  lemma SameBefore(c: Context, w: World, w2: World, p: Pass)
    requires w2.net.server == w.net.server && w2.resolved == w.resolved && w2.peer == w.peer
    requires w2.work.cache == w.work.cache && w2.work.bags == w.work.bags
    ensures Alike(w, w2, p) && forall q: nat :: LeftAlone(c.ids, w, w2, q)
  {
    forall q: nat ensures LeftAlone(c.ids, w, w2, q) {
      SameSelf(c.ids(q), w.net.server);
    }
  }

  /** Without faults a reconciliation is the pass, on the flows at hand, and then the collection. */
  lemma ReconcileSteps(c: Context, w: World, model: map<nat, Relation>, ids: seq<nat>) returns (w2: World)
    requires Inv(c.ids, w) && Lists(c.order) && Calm(c.faults, |w.net.sent|) && ids != [] && Resolvable(w)
    ensures Inv(c.ids, w2) && Working(c.ids, w, w2)
    ensures w2.net.server == w.net.server && w2.resolved == w.resolved
    ensures w2.work.cache == w.work.cache && w2.work.bags == w.work.bags
    ensures w.peer ==>
      w2.work.authorization == FlowFor(w, AuthorizationFlow) && w2.work.invalidation == FlowFor(w, InvalidationFlow)
    ensures var r := SyncActive(c, w2, model, ids, FlowFor(w, AuthorizationFlow), FlowFor(w, InvalidationFlow));
      Reconcile(c, w, model, ids) == if r.Raised? then r else GarbageCollect(c, r.world, ToSet(ids))
  {
    FlowsResolved(c, w);
    w2 := ResolveFlow(c, ResolveFlow(c, w, AuthorizationFlow).world, InvalidationFlow).world;
  }

  // ---- A whole hook ---------------------------------------------------------------------

  /** The error with which a hook without faults stops, if any. */
  function Stops(w: World, h: Hook): Option<ApiError> {
    var p := PassOf(w, h.model, h.active);
    var k := Reach(w, p);
    if k == |h.active| then None else HinderedAt(w, p, k)
  }

  ghost predicate HookFacts(c: Context, w: World, u: World, h: Hook) {
    var p := PassOf(w, h.model, h.active);
    var k := Reach(w, p);
    && (k == |h.active| ==> w.peer ==> OrphansOf(u.saved.cache, ToSet(h.active)) == {})
    && (k < |h.active| ==> forall q: nat :: q !in h.active[..k + 1] ==> LeftAlone(c.ids, w, u, q))
    && (Stops(w, h) != Some(Transient) || h.keep ==> BroughtTo(c, w, u, p, k))
  }

  /**
   A hook without faults, from any state at rest: what was brought about is committed, unless an
   unreadable secret stopped it and Juju discards what a failed hook wrote.
   */
  lemma HookOutcome(c: Context, w: World, h: Hook)
    requires Rest(c.ids, w) && Lists(c.order) && Legal(c, w, HookEvent(h)) && Distinct(h.active)
    requires Calm(c.faults, |w.net.sent|) && Resolvable(w) && !h.crash
    ensures Rest(c.ids, RunHook(c, w, h)) && HookFacts(c, w, RunHook(c, w, h), h)
  {
    HookInv(c, w, h);
    BeginInv(c.ids, w, h.active);
    var b := Begin(w, h.active);
    assert Orderly(b, PassOf(b, h.model, h.active));
    ReconcileOutcome(c, b, h.model, h.active);
    ReconcileInv(c, b, h.model, h.active);
    BeginUpTo(c, w, Reconcile(c, b, h.model, h.active), h);
    CommitOrDiscard(c, w, Reconcile(c, b, h.model, h.active), h);
  }

  /** Beginning a hook at rest changes nothing that a reconciliation looks at. */
  lemma BeginUpTo(c: Context, w: World, r: Step<()>, h: Hook)
    requires w.resolved == map[] && ModelOk(h.model)
    requires ReconcileFacts(c, Begin(w, h.active), r, h.model, h.active)
    ensures ReconcileFacts(c, w, r, h.model, h.active)
  {
    forall q: nat ensures LeftAlone(c.ids, w, Begin(w, h.active), q) {
      SameSelf(c.ids(q), w.net.server);
    }
    UpToFrom(c, w, Begin(w, h.active), r, PassOf(w, h.model, h.active));
  }

  lemma CommitOrDiscard(c: Context, w: World, r: Step<()>, h: Hook)
    requires w.work == w.saved && ReconcileFacts(c, w, r, h.model, h.active)
    requires r.world.saved == w.saved && r.world.peer == w.peer
    requires r.Raised? ==> r.error == Transient || r.error == Validation
    ensures var u := if r.Raised? && Escapes(r.error) && !h.keep then Discard(r.world) else Commit(r.world);
      HookFacts(c, w, u, h)
  {
    var p := PassOf(w, h.model, h.active);
    var k := Reach(w, p);
    var u := if r.Raised? && Escapes(r.error) && !h.keep then Discard(r.world) else Commit(r.world);
    if k < |h.active| {
      forall q: nat | q !in h.active[..k + 1] ensures LeftAlone(c.ids, w, u, q) {
        assert LeftAlone(c.ids, w, r.world, q);
      }
    }
    CommittedBrought(c, w, r.world, p, k);
  }

  lemma CommittedBrought(c: Context, w: World, w1: World, p: Pass, k: nat)
    requires k <= |p.ids| && BroughtTo(c, w, w1, p, k)
    ensures BroughtTo(c, w, Commit(w1), p, k)
  {
    forall j | 0 <= j < k && Pending(w, p, p.ids[j])
      ensures Converged(c, Commit(w1), p.ids[j], WantIn(p, p.ids[j]), ServedAt(w, p, j))
    {
      assert Converged(c, w1, p.ids[j], WantIn(p, p.ids[j]), ServedAt(w, p, j));
    }
  }

  // ---- Stale flows ----------------------------------------------------------------------

  /** The current flows of the server, as a reconciliation would resolve them. */
  ghost predicate FlowsResolve(s: Server) {
    && AuthorizationFlow in s.current && InvalidationFlow in s.current
    && s.current[AuthorizationFlow] != "" && s.current[InvalidationFlow] != ""
    && s.current[AuthorizationFlow] in s.accepted && s.current[InvalidationFlow] in s.accepted
  }

  /** Of the flows a reconciliation would use, cached or not, one is not accepted. */
  ghost predicate StaleFlows(w: World) {
    && w.peer && Resolvable(w)
    && !(FlowFor(w, AuthorizationFlow) in w.net.server.accepted
        && FlowFor(w, InvalidationFlow) in w.net.server.accepted)
  }

  /** A pass on flows that are not accepted records no hash. */
  lemma {:induction false} SyncAllStale(c: Context, w: World, p: Pass)
    requires Inv(c.ids, w) && Orderly(w, p) && Calm(c.faults, |w.net.sent|) && !Accepts(w, p)
    ensures NoNewHash(w.work.cache, SyncAll(c, w, p.model, p.ids, p.authorization, p.invalidation).world.work.cache)
    decreases |p.ids|
  {
    if p.ids != [] {
      var id := p.ids[0];
      assert id in p.ids;
      var r1 := SyncFirst(c, w, p);
      NoChange(c.ids, w, w);
      if id in p.model {
        SyncRelationInv(c, w, p.model[id], p.authorization, p.invalidation);
      }
      if r1.Done? {
        SyncAllStale(c, r1.world, p.Tail());
      } else {
        RaisedNoNewHash(c, w, p.model[id], p.authorization, p.invalidation);
      }
    }
  }

  /** A reconciliation on stale flows records no hash, and forgets the flows unless a secret was unreadable. */
  ghost predicate Forgotten(w: World, r: Step<()>) {
    && r.Raised? && NoNewHash(w.work.cache, r.world.work.cache)
    && (r.error == Validation ==> r.world.work.authorization == "" && r.world.work.invalidation == "")
    && (r.error == Transient ==>
      && r.world.work.authorization == FlowFor(w, AuthorizationFlow)
      && r.world.work.invalidation == FlowFor(w, InvalidationFlow))
  }

  /**
   The first reconciliation on stale flows fails at the first relation that needs a write. The
   error is a validation error unless the client secret of that relation cannot be read.
   */
  lemma StaleFlowsForgotten(c: Context, w: World, model: map<nat, Relation>, ids: seq<nat>)
    requires Inv(c.ids, w) && Lists(c.order) && Orderly(w, PassOf(w, model, ids)) && Calm(c.faults, |w.net.sent|)
    requires forall k :: k in w.work.cache && Collectable(k, ToSet(ids)) ==> k.id in w.retired
    requires StaleFlows(w)
    requires exists i :: i in ids && Pending(w, PassOf(w, model, ids), i)
    ensures var r := Reconcile(c, w, model, ids);
      && ReconcileFacts(c, w, r, model, ids) && Forgotten(w, r)
      && StaleAt(w, PassOf(w, model, ids), r.error)
  {
    var p := PassOf(w, model, ids);
    ReconcileOutcome(c, w, model, ids);
    StaleStops(w, p);
    var w2 := ReconcileSteps(c, w, model, ids);
    SameBefore(c, w, w2, p);
    AlikeReach(w, w2, p);
    StaleActive(c, w2, p);
  }

  /** It is the first that needs a write, and only an unreadable secret makes the error transient. */
  ghost predicate StaleAt(w: World, p: Pass, e: ApiError) {
    var k := Reach(w, p);
    && k < |p.ids| && Pending(w, p, p.ids[k])
    && (forall j :: 0 <= j < k ==> !Pending(w, p, p.ids[j]))
    && e == if SecretReadable(w, p, p.ids[k]) then Validation else Transient
  }

  lemma StaleHinders(w: World, p: Pass, j: nat)
    requires ModelOk(p.model) && !Accepts(w, p) && j < |p.ids|
    ensures HinderedAt(w, p, j) ==
      if !Pending(w, p, p.ids[j]) then None
      else if SecretReadable(w, p, p.ids[j]) then Some(Validation) else Some(Transient)
  {
    AtKeeps(w, p, j);
  }

  /** On stale flows a pass stops at the first relation that needs a write. */
  lemma StaleStops(w: World, p: Pass)
    requires ModelOk(p.model) && !Accepts(w, p)
    requires exists i :: i in p.ids && Pending(w, p, i)
    ensures Reach(w, p) < |p.ids|
    ensures forall e :: HinderedAt(w, p, Reach(w, p)) == Some(e) ==> StaleAt(w, p, e)
    ensures (forall id :: id in p.ids && Ready(p.model, id) ==> p.model[id].secret.Readable?) ==>
      HinderedAt(w, p, Reach(w, p)) == Some(Validation)
  {
    var some :| some in p.ids && Pending(w, p, some);
    var at :| 0 <= at < |p.ids| && p.ids[at] == some;
    StaleHinders(w, p, at);
    var k := Reach(w, p);
    StaleHinders(w, p, k);
    forall j | 0 <= j < k ensures !Pending(w, p, p.ids[j]) {
      StaleHinders(w, p, j);
    }
  }

  /** With both flows cached, the pass itself. */
  lemma StaleActive(c: Context, w: World, p: Pass)
    requires Inv(c.ids, w) && Orderly(w, p) && Calm(c.faults, |w.net.sent|) && w.peer && !Accepts(w, p)
    requires w.work.authorization == p.authorization && w.work.invalidation == p.invalidation
    requires Reach(w, p) < |p.ids|
    ensures var r := SyncActive(c, w, p.model, p.ids, p.authorization, p.invalidation);
      && r.Raised? && NoNewHash(w.work.cache, r.world.work.cache)
      && (r.error == Validation ==> r.world.work.authorization == "" && r.world.work.invalidation == "")
      && (r.error == Transient ==>
        r.world.work.authorization == p.authorization && r.world.work.invalidation == p.invalidation)
  {
    SyncAllOutcome(c, w, p);
    SyncAllStale(c, w, p);
    SyncAllFlows(c, w, p);
  }

  lemma SyncAllFlows(c: Context, w: World, p: Pass)
    requires Inv(c.ids, w) && Orderly(w, p)
    ensures var u := SyncAll(c, w, p.model, p.ids, p.authorization, p.invalidation).world;
      u.peer == w.peer && u.work.authorization == w.work.authorization && u.work.invalidation == w.work.invalidation
  {
    SyncAllInv(c, w, p.model, p.ids, p.authorization, p.invalidation);
  }

  /** What no hook changes, so that the same hook may follow. */
  lemma HookAgain(c: Context, w: World, h: Hook)
    requires Inv(c.ids, w) && Lists(c.order) && Legal(c, w, HookEvent(h))
    ensures var u := RunHook(c, w, h);
      && Rest(c.ids, u) && Legal(c, u, HookEvent(h)) && u.peer == w.peer && w.net.sent <= u.net.sent
      && u.net.server.current == w.net.server.current && u.net.server.accepted == w.net.server.accepted
      && u.net.server.mappings == w.net.server.mappings
  {
    BeginInv(c.ids, w, h.active);
    ReconcileInv(c, Begin(w, h.active), h.model, h.active);
    HookInv(c, w, h);
  }

  /** The hook that meets stale flows. */
  lemma StaleHook(c: Context, w: World, h: Hook)
    requires Rest(c.ids, w) && Lists(c.order) && Legal(c, w, HookEvent(h)) && Distinct(h.active)
    requires Calm(c.faults, |w.net.sent|) && !h.crash && StaleFlows(w)
    requires exists i :: i in h.active && Pending(w, PassOf(w, h.model, h.active), i)
    ensures var u := RunHook(c, w, h);
      && NoNewHash(w.work.cache, u.work.cache)
      && (Stops(w, h) == Some(Validation) ==> u.work.authorization == "" && u.work.invalidation == "")
  {
    BeginInv(c.ids, w, h.active);
    BeginStops(w, h);
    var b := Begin(w, h.active);
    StaleFlowsForgotten(c, b, h.model, h.active);
    ReconcileInv(c, b, h.model, h.active);
    var r := Reconcile(c, b, h.model, h.active);
    assert Stops(b, h) == Some(r.error);
    StaleCommit(w, r, h);
  }

  lemma StaleCommit(w: World, r: Step<()>, h: Hook)
    requires Forgotten(w, r) && r.world.saved == w.saved && w.saved == w.work
    ensures var u := if Escapes(r.error) && !h.keep then Discard(r.world) else Commit(r.world);
      && NoNewHash(w.work.cache, u.work.cache)
      && (r.error == Validation ==> u.work.authorization == "" && u.work.invalidation == "")
  {}

  /** Beginning a hook at rest changes nothing that decides how far it gets. */
  lemma BeginStops(w: World, h: Hook)
    requires w.resolved == map[] && ModelOk(h.model)
    ensures var b := Begin(w, h.active);
      && Stops(b, h) == Stops(w, h) && PassOf(b, h.model, h.active) == PassOf(w, h.model, h.active)
      && forall id :: id in h.active ==>
        (Pending(b, PassOf(w, h.model, h.active), id) <==> Pending(w, PassOf(w, h.model, h.active), id))
  {
    var b, p := Begin(w, h.active), PassOf(w, h.model, h.active);
    BeginAlike(w, h.active, p);
    AlikeStops(w, b, p);
    forall id | id in h.active ensures Pending(b, p, id) <==> Pending(w, p, id) {
      AlikeHere(w, b, p, id);
    }
  }

  lemma BeginAlike(w: World, active: seq<nat>, p: Pass)
    requires w.resolved == map[]
    ensures Alike(w, Begin(w, active), p)
  {}

  lemma AlikeStops(w: World, b: World, p: Pass)
    requires ModelOk(p.model) && Alike(w, b, p)
    ensures Reach(b, p) == Reach(w, p)
    ensures Reach(w, p) < |p.ids| ==> HinderedAt(b, p, Reach(w, p)) == HinderedAt(w, p, Reach(w, p))
  {
    AlikeReach(w, b, p);
    if Reach(w, p) < |p.ids| {
      AlikeAt(w, b, p, Reach(w, p));
    }
  }

  /** A relation that needs a write with the new flows still does after the hook that met the stale ones. */
  lemma StillPending(w: World, u: World, p: Pass, id: nat)
    requires ModelOk(p.model) && w.peer && u.peer && NoNewHash(w.work.cache, u.work.cache)
    requires Pending(w, p, id)
    ensures Pending(u, p, id)
  {
    if EntryOf(u.work.cache, id).hash.Some? {
      assert Rel(id) in w.work.cache && w.work.cache[Rel(id)] == u.work.cache[Rel(id)];
    }
  }

  /** With accepted flows only secrets and scopes can stop a hook. */
  lemma StopsIff(c: Context, w: World, h: Hook)
    requires Rest(c.ids, w) && ModelOk(h.model)
    ensures Stops(w, h) == None <==> Passable(w, PassOf(w, h.model, h.active))
  {
    PassableDecides(w, PassOf(w, h.model, h.active));
  }

  /** The pass over the relations of a hook on the flows the server has now. */
  function CurrentPass(s: Server, h: Hook): Pass
    requires AuthorizationFlow in s.current && InvalidationFlow in s.current
  {
    Pass(h.model, h.active, s.current[AuthorizationFlow], s.current[InvalidationFlow])
  }

  /**
   Healing. Let a flow that a reconciliation would use be no longer accepted and some relation need
   a write, the first such with a client secret that can be read. After two hooks without faults
   the charm works with the flows the server has now: it has brought to them every relation that
   was not recorded with them before, up to the first one whose secret cannot be read or whose
   scopes are not provided for, and all of them exactly if there is none.
   */
  lemma StaleFlowsHeal(c: Context, w: World, h: Hook)
    requires Rest(c.ids, w) && Lists(c.order) && Legal(c, w, HookEvent(h)) && Distinct(h.active)
    requires Calm(c.faults, |w.net.sent|) && !h.crash
    requires StaleFlows(w) && FlowsResolve(w.net.server) && Stops(w, h) == Some(Validation)
    requires exists i :: i in h.active && Pending(w, PassOf(w, h.model, h.active), i)
    ensures var u1 := RunHook(c, w, h); var u := RunHook(c, u1, h); var p := CurrentPass(w.net.server, h);
      && PassOf(u1, h.model, h.active) == p
      && Rest(c.ids, u) && HookFacts(c, u1, u, h)
      && (Stops(u1, h) == None <==> Passable(u1, p))
      && (forall id :: Pending(w, p, id) ==> Pending(u1, p, id))
  {
    var p := CurrentPass(w.net.server, h);
    StaleHook(c, w, h);
    HookAgain(c, w, h);
    var u1 := RunHook(c, w, h);
    HookOutcome(c, u1, h);
    StopsIff(c, u1, h);
    forall id | Pending(w, p, id) ensures Pending(u1, p, id) {
      StillPending(w, u1, p, id);
    }
  }

  /** All relations at once, when each asks for supported scopes and has a secret that can be read. */
  lemma StaleFlowsHealAll(c: Context, w: World, h: Hook)
    requires Rest(c.ids, w) && Lists(c.order) && Legal(c, w, HookEvent(h)) && Distinct(h.active)
    requires Calm(c.faults, |w.net.sent|) && !h.crash
    requires StaleFlows(w) && FlowsResolve(w.net.server)
    requires exists i :: i in h.active && Pending(w, PassOf(w, h.model, h.active), i)
    requires forall id :: id in h.active && Ready(h.model, id) ==>
      h.model[id].secret.Readable? && Supported(w.net.server.mappings, Scopes(h.model[id].scope))
    ensures var u1 := RunHook(c, w, h); var u := RunHook(c, u1, h); var p := CurrentPass(w.net.server, h);
      && BroughtTo(c, u1, u, p, |h.active|) && (forall id :: Pending(w, p, id) ==> Pending(u1, p, id))
      && OrphansOf(u.saved.cache, ToSet(h.active)) == {}
  {
    StaleStops(w, PassOf(w, h.model, h.active));
    StaleFlowsHeal(c, w, h);
    HookAgain(c, w, h);
    AllPassable(RunHook(c, w, h), CurrentPass(w.net.server, h));
  }

  lemma AllPassable(w: World, p: Pass)
    requires Accepts(w, p)
    requires forall id :: id in p.ids && Ready(p.model, id) ==>
      p.model[id].secret.Readable? && Supported(w.net.server.mappings, ScopesOf(p, id))
    ensures Passable(w, p)
  {
    forall j | 0 <= j < |p.ids| && Pending(w, p, p.ids[j]) ensures Provided(w, p, j) {
      assert Asks(w, p, j, Join(ScopesOf(p, p.ids[j])));
    }
  }

  /**
   The flows are part of every hash: a relation that was recorded with other flows than these is
   not recorded with these.
   */
  lemma OtherFlowsPending(c: Context, w: World, p: Pass, id: nat)
    requires Inv(c.ids, w) && w.peer && id !in w.retired && ModelOk(p.model) && Ready(p.model, id)
    requires Plain(WantIn(p, id))
    requires Rel(id) in w.work.cache && Finished(w.work.cache[Rel(id)]) && id in w.work.marks ==>
      && Plain(w.work.marks[id].want)
      && (w.work.marks[id].want.authorization != p.authorization
          || w.work.marks[id].want.invalidation != p.invalidation)
    ensures Pending(w, p, id)
  {
    if Rel(id) in w.work.cache && Finished(w.work.cache[Rel(id)]) {
      assert EntryOk(c.ids(id), w.net, w.work, id, false);
      KeyIffSameClient(w.work.marks[id].want, WantIn(p, id));
    }
  }
}
