/** Where the naive guarantees about one relation end, and exactly where. */
module Limits {
  import opened Options
  import opened AuthentikServer
  import opened AuthentikApi
  import opened Ambiguity
  import opened ConfigKey
  import opened Reconciler
  import opened Ownership
  import opened SyncProofs
  import opened Invariant
  import opened Collection
  import opened Runs
  import opened Safety
  import opened Passes
  import opened Recovery

  // ---- A stored hash may lie ------------------------------------------------------------

  /** A trusted entry of a live provider whose application exists: the common case of an update. */
  ghost predicate Updatable(c: Context, w: World, id: nat) {
    && Inv(c.ids, w) && w.peer && id !in w.retired
    && Rel(id) in w.work.cache && w.work.cache[Rel(id)].slug in w.net.server.apps
  }

  /** The checks before an update, with both reads going through at the first attempt. */
  lemma RecallUpdatable(c: Context, w: World, id: nat, v: Provider)
    requires Updatable(c, w, id)
    requires c.faults(|w.net.sent|) == Clear && c.faults(|w.net.sent| + 1) == Clear
    ensures var e, r := w.work.cache[Rel(id)], Recall(c, w, id, w.work.cache, v);
      && Trusted(e) && Bears(c.ids(id), w.net.server, e.pk.value)
      && r == Done(w.(net := r.world.net), Found(w.work.cache, e.slug, e.pk.value, true, false))
      && r.world.net == Net(w.net.server, w.net.sent + [GetApplication(e.slug), GetProvider(e.pk.value)])
  {
    var e := w.work.cache[Rel(id)];
    assert EntryOk(c.ids(id), w.net, w.work, id, false);
    assert Sound(c.ids(id), w.net.server);
    var n1 := Net(w.net.server, w.net.sent + [GetApplication(e.slug)]);
    assert ReadApplication(c.faults, w.net, e.slug) == Ok(n1, Some(w.net.server.apps[e.slug]));
    var n2 := Net(w.net.server, n1.sent + [GetProvider(e.pk.value)]);
    assert ReadProvider(c.faults, n1, e.pk.value) == Ok(n2, Some(w.net.server.providers[e.pk.value]));
    assert n1.sent + [GetProvider(e.pk.value)] == w.net.sent + [GetApplication(e.slug), GetProvider(e.pk.value)];
  }

  /** An update of an existing pair that raises: the provider changed exactly if the PUT landed and was valid. */
  lemma FailedApply(c: Context, w: World, n: Names, found: Found, v: Provider)
    requires !found.created && found.present && found.pk in w.net.server.providers
    requires v != w.net.server.providers[found.pk]
    requires Apply(c, w, n, found, v).Raised?
    ensures var w' := Apply(c, w, n, found, v).world;
      && w' == w.(net := w'.net)
      && found.pk in w'.net.server.providers
      && (w'.net.server.providers[found.pk] == w.net.server.providers[found.pk] <==>
        !(AcceptsFlows(w.net.server, v.settings) && Lands(c.faults, |w.net.sent|, MAX_ATTEMPTS)))
  {
    UpdateLands(c.faults, w.net, found.pk, v);
    var put := UpdateProvider(c.faults, w.net, found.pk, v);
    UpdateApplicationOutcome(c.faults, put.net, found.slug, n.provider, found.pk);
  }

  /** An update replaces the provider exactly if it lands; returning means it did. */
  lemma UpdateLands(o: Oracle, n: Net, pk: Pk, v: Provider)
    requires pk in n.server.providers
    ensures var put := UpdateProvider(o, n, pk, v);
      && put.net.server.providers ==
        (if AcceptsFlows(n.server, v.settings) && Lands(o, |n.sent|, MAX_ATTEMPTS)
         then n.server.providers[pk := v] else n.server.providers)
      && (put.Ok? ==> put.net.server.providers == n.server.providers[pk := v])
  {
    SendLands(o, n, PutProvider(pk, v), MAX_ATTEMPTS);
    UpdateProviderOutcome(o, n, pk, v);
  }

  /**
   Recall confirms the pair of an updatable relation, or raises, under any faults, and leaves the
   server and the local data as they are.
   */
  lemma RecallConfirms(c: Context, w: World, id: nat, v: Provider)
    requires Updatable(c, w, id)
    ensures var e, r := w.work.cache[Rel(id)], Recall(c, w, id, w.work.cache, v);
      && Trusted(e) && Bears(c.ids(id), w.net.server, e.pk.value)
      && r.world == w.(net := r.world.net) && r.world.net.server == w.net.server
      && (r.Done? ==> r.value == Found(w.work.cache, e.slug, e.pk.value, true, false))
  {
    var e := w.work.cache[Rel(id)];
    assert EntryOk(c.ids(id), w.net, w.work, id, false);
    assert Sound(c.ids(id), w.net.server);
    ReadApplicationOutcome(c.faults, w.net, e.slug);
    ReadProviderOutcome(c.faults, ReadApplication(c.faults, w.net, e.slug).net, e.pk.value);
  }

  /** The PUT of an update is sent, reaches the server and is accepted. */
  predicate Overwrites(c: Context, w: World, id: nat, v: Provider) {
    var r := Recall(c, w, id, w.work.cache, v);
    r.Done? && AcceptsFlows(w.net.server, v.settings) && Lands(c.faults, |r.world.net.sent|, MAX_ATTEMPTS)
  }

  /**
   A failed update of a cached relation, whichever call failed and after however many attempts,
   leaves its entry, hash included, as it was. The remote provider is as before exactly if the PUT
   was not sent, was refused, or none of its attempts took effect; only then does the stored hash tell the truth.
   */
  lemma FailedUpdateKeepsHash(c: Context, w: World, id: nat, v: Provider)
    requires Updatable(c, w, id)
    requires v != w.net.server.providers[w.work.cache[Rel(id)].pk.value]
    requires SyncObjects(c, w, id, w.work.cache, v).Raised?
    ensures var w' := SyncObjects(c, w, id, w.work.cache, v).world; var pk := w.work.cache[Rel(id)].pk.value;
      && w'.work == w.work
      && pk in w'.net.server.providers
      && (w'.net.server.providers[pk] == w.net.server.providers[pk] <==> !Overwrites(c, w, id, v))
  {
    RecallConfirms(c, w, id, v);
    var r := Recall(c, w, id, w.work.cache, v);
    if r.Done? {
      FailedApply(c, r.world, c.ids(id), r.value, v);
    }
  }

  /** The faults of the counterexample: all clear but for a refused request number `at`. */
  function RefuseOnly(at: nat): Oracle { (i: nat) => if i == at then Fails(false, Authorization) else Clear }

  /** The update of an existing pair whose PATCH is refused: the provider has changed. */
  lemma RefusedPatch(c: Context, w: World, n: Names, found: Found, v: Provider)
    requires !found.created && found.present && found.pk in w.net.server.providers
    requires AcceptsFlows(w.net.server, v.settings) && c.faults == RefuseOnly(|w.net.sent| + 1)
    ensures var r := Apply(c, w, n, found, v);
      && r.Raised? && r.error == Authorization && r.world == w.(net := r.world.net)
      && r.world.net.server == w.net.server.(providers := w.net.server.providers[found.pk := v])
  {
    var n2 := Net(w.net.server.(providers := w.net.server.providers[found.pk := v]),
        w.net.sent + [PutProvider(found.pk, v)]);
    assert UpdateProvider(c.faults, w.net, found.pk, v) == Ok(n2, ());
    var patch := UpdateApplication(c.faults, n2, found.slug, n.provider, found.pk);
    assert patch.Err? && patch.net.server == n2.server;
  }

  /**
   The guarantee that a stored hash matches the remote provider is false. From any complete entry,
   let one update run into a refused PATCH: the hook ends normally and commits, the old hash is
   still there and still a hit, and the provider has the settings of the new configuration.
   */
  lemma StoredHashMayLie(c: Context, w: World, id: nat, v: Provider, prior: Want)
    requires Updatable(c, w, id) && AcceptsFlows(w.net.server, v.settings) && v.name == c.ids(id).provider
    requires Hit(w.work.cache[Rel(id)], prior)
    requires c.faults == RefuseOnly(|w.net.sent| + 3)
    ensures var r := SyncObjects(c, w, id, w.work.cache, v);
      && r.Raised? && r.error == Authorization && !Escapes(r.error)
      && Hit(EntryOf(r.world.work.cache, id), prior)
      && w.work.cache[Rel(id)].pk.value in r.world.net.server.providers
      && r.world.net.server.providers[w.work.cache[Rel(id)].pk.value] == v
  {
    RecallUpdatable(c, w, id, v);
    var r := Recall(c, w, id, w.work.cache, v);
    RefusedPatch(c, r.world, c.ids(id), r.value, v);
  }

  /** The mappings of the scopes themselves. */
  function Itself(w: World, scopes: seq<string>): Resolution {
    Resolution(MappingsOf(w.net.server.mappings, scopes), scopes)
  }

  /** The listing of scope mappings goes through and is remembered. */
  lemma MappingsRead(c: Context, w: World, scopes: seq<string>)
    requires w.memo.None? && w.resolved == map[]
    requires c.faults(|w.net.sent|) == Clear && Supported(w.net.server.mappings, scopes)
    ensures ResolveMappings(c, w, scopes) ==
      Done(w.(net := Net(w.net.server, w.net.sent + [ListMappings]), memo := Some(w.net.server.mappings),
              resolved := Remember(w, scopes)),
           Itself(w, scopes))
  {
    assert ReadMappings(c.faults, w.net) == Ok(Net(w.net.server, w.net.sent + [ListMappings]), w.net.server.mappings);
  }

  /** A relation that is up to date with `prior`, and is to be changed to what `rel` asks for. */
  ghost predicate Changing(c: Context, w: World, rel: Relation, prior: Want) {
    && Updatable(c, w, rel.id) && w.memo.None? && w.resolved == map[]
    && rel.ready && rel.client.Valid? && rel.secret.Readable?
    && Hit(w.work.cache[Rel(rel.id)], prior)
    && NeedsWrite(w, rel, w.work.authorization, w.work.invalidation)
    && w.work.authorization in w.net.server.accepted && w.work.invalidation in w.net.server.accepted
    && Supported(w.net.server.mappings, Scopes(rel.scope))
  }

  lemma LieSynchronizes(c: Context, w: World, rel: Relation, prior: Want)
    requires Changing(c, w, rel, prior) && c.faults == RefuseOnly(|w.net.sent| + 4)
    ensures var r := SyncRelation(c, w, rel, w.work.authorization, w.work.invalidation);
      var pk := w.work.cache[Rel(rel.id)].pk.value;
      && r.Raised? && r.error == Authorization
      && Hit(EntryOf(r.world.work.cache, rel.id), prior)
      && pk in r.world.net.server.providers
      && r.world.net.server.providers[pk].settings ==
          SettingsOf(w.net.server.mappings, WantOf(rel, w.work.authorization, w.work.invalidation))
  {
    var w2, credentials := ReachesObjects(c, w, rel, prior);
    LieAtObjects(c, w2, rel, credentials, WantOf(rel, w.work.authorization, w.work.invalidation), prior);
  }

  /** The state in which the synchronization of a changing relation turns to its objects. */
  lemma ReachesObjects(c: Context, w: World, rel: Relation, prior: Want) returns (w2: World, credentials: Credentials)
    requires Changing(c, w, rel, prior) && c.faults(|w.net.sent|) == Clear
    ensures Updatable(c, w2, rel.id) && w2.work.cache == w.work.cache
    ensures w2.net == Net(w.net.server, w.net.sent + [ListMappings])
    ensures SyncRelation(c, w, rel, w.work.authorization, w.work.invalidation) ==
      ConvergeWith(c, w2, rel, w.work.cache, credentials, false, Itself(w, Scopes(rel.scope)),
                   WantOf(rel, w.work.authorization, w.work.invalidation))
  {
    var slug := SlugOf(c.ids(rel.id), EntryOf(w.work.cache, rel.id));
    var w1 := Publish(w, c.host, rel.id, slug, Scopes(rel.scope));
    PublishInv(c.ids, w, c.host, rel.id, slug, Scopes(rel.scope));
    assert EntryOk(c.ids(rel.id), w.net, w.work, rel.id, false);
    credentials := BagOf(w.work, rel.id).credentials.value;
    w2 := StepsToObjects(c, w, w1, rel, credentials);
    ScopesCanonical(rel.scope);
    ReadInv(c.ids, w1, w2);
  }

  lemma LieAtObjects(c: Context, w: World, rel: Relation, credentials: Credentials, want: Want, prior: Want)
    requires Updatable(c, w, rel.id) && Hit(w.work.cache[Rel(rel.id)], prior)
    requires want.authorization in w.net.server.accepted && want.invalidation in w.net.server.accepted
    requires c.faults == RefuseOnly(|w.net.sent| + 3)
    ensures var r := ConvergeWith(c, w, rel, w.work.cache, credentials, false, Itself(w, want.scopes), want);
      var pk := w.work.cache[Rel(rel.id)].pk.value;
      && r.Raised? && r.error == Authorization
      && Hit(EntryOf(r.world.work.cache, rel.id), prior)
      && pk in r.world.net.server.providers
      && r.world.net.server.providers[pk].settings == SettingsOf(w.net.server.mappings, want)
  {
    StoredHashMayLie(c, w, rel.id, Provider(c.ids(rel.id).provider, credentials,
        SettingsOf(w.net.server.mappings, want)), prior);
  }

  /** A synchronization with known credentials, up to the point where it turns to the objects. */
  lemma StepsToObjects(c: Context, w: World, w1: World, rel: Relation, credentials: Credentials) returns (w2: World)
    requires w.peer && w.memo.None? && w.resolved == map[]
    requires rel.ready && rel.client.Valid? && rel.secret.Readable?
    requires NeedsWrite(w, rel, w.work.authorization, w.work.invalidation)
    requires BagOf(w.work, rel.id).credentials == Some(credentials)
    requires c.faults(|w.net.sent|) == Clear && Supported(w.net.server.mappings, Scopes(rel.scope))
    requires w1 == Publish(w, c.host, rel.id, SlugOf(c.ids(rel.id), EntryOf(w.work.cache, rel.id)), Scopes(rel.scope))
    ensures w2 == w1.(net := Net(w.net.server, w.net.sent + [ListMappings]), memo := Some(w.net.server.mappings),
                      resolved := Remember(w, Scopes(rel.scope)))
    ensures var want := WantOf(rel, w.work.authorization, w.work.invalidation);
      SyncRelation(c, w, rel, w.work.authorization, w.work.invalidation) ==
      ConvergeWith(c, w2, rel, w.work.cache, credentials, false, Itself(w, want.scopes), want)
  {
    var want := WantOf(rel, w.work.authorization, w.work.invalidation);
    MappingsRead(c, w1, want.scopes);
    w2 := ResolveMappings(c, w1, want.scopes).world;
    assert ObtainCredentials(c, w1, rel) == Done(w1, (credentials, false));
    assert Converge(c, w1, rel, w.work.cache, want) ==
      ConvergeWith(c, w2, rel, w.work.cache, credentials, false, Itself(w, want.scopes), want);
  }

  /**
   The lie is committed by a hook that ends normally, and then believed: when the requirer returns
   to its earlier configuration, the fast path sends nothing although the provider has the settings
   of the later one.
   */
  lemma LieIsCommitted(c: Context, w: World, rel: Relation, back: Relation, prior: Want, keep: bool)
    requires Rest(c.ids, w) && Lists(c.order)
    requires var b := Begin(w, [rel.id]); Changing(c, b, rel, prior) && c.faults == RefuseOnly(|b.net.sent| + 4)
    requires w.work.authorization != "" && w.work.invalidation != ""
    requires back.id == rel.id && back.ready && back.client.Valid?
    requires WantOf(back, w.work.authorization, w.work.invalidation) == prior
    ensures var u := RunHook(c, w, Hook(map[rel.id := rel], [rel.id], keep, false));
      var pk := w.work.cache[Rel(rel.id)].pk.value;
      && u.saved == u.work && pk in u.net.server.providers
      && u.net.server.providers[pk].settings ==
          SettingsOf(w.net.server.mappings, WantOf(rel, w.work.authorization, w.work.invalidation))
      && var again := SyncRelation(c, u, back, w.work.authorization, w.work.invalidation);
        again.Done? && again.world.net == u.net
  {
    var b, h := Begin(w, [rel.id]), Hook(map[rel.id := rel], [rel.id], keep, false);
    LieSynchronizes(c, b, rel, prior);
    OnlyRelation(c, b, rel);
    var r := SyncRelation(c, b, rel, w.work.authorization, w.work.invalidation);
    assert RunHook(c, w, h) == Commit(r.world);
    SyncKeepsPeer(c, b, rel, w.work.authorization, w.work.invalidation);
    HitSendsNothing(c, Commit(r.world), back, w.work.authorization, w.work.invalidation);
  }

  lemma SyncKeepsPeer(c: Context, w: World, rel: Relation, authorization: string, invalidation: string)
    requires Inv(c.ids, w) && rel.id !in w.retired && SecretKept(w.work, rel)
    ensures SyncRelation(c, w, rel, authorization, invalidation).world.peer == w.peer
  {
    SyncRelationInv(c, w, rel, authorization, invalidation);
  }

  /** The fast path looks at nothing but the entry. */
  lemma HitSendsNothing(c: Context, w: World, rel: Relation, authorization: string, invalidation: string)
    requires rel.ready && rel.client.Valid? && Hit(EntryOf(ReadCache(w), rel.id),
        WantOf(rel, authorization, invalidation))
    ensures var r := SyncRelation(c, w, rel, authorization, invalidation);
      r.Done? && r.world.net == w.net
  {}

  /** A reconciliation of one relation that is refused ends with that relation. */
  lemma OnlyRelation(c: Context, w: World, rel: Relation)
    requires Lists(c.order) && w.peer && w.work.authorization != "" && w.work.invalidation != ""
    ensures var r := SyncRelation(c, w, rel, w.work.authorization, w.work.invalidation);
      r.Raised? && r.error == Authorization ==> Reconcile(c, w, map[rel.id := rel], [rel.id]) == r
  {
    assert ResolveFlow(c, w, AuthorizationFlow) == Done(w, w.work.authorization);
    assert ResolveFlow(c, w, InvalidationFlow) == Done(w, w.work.invalidation);
    var model := map[rel.id := rel];
    var r := SyncRelation(c, w, rel, w.work.authorization, w.work.invalidation);
    if r.Raised? && r.error == Authorization {
      assert SyncAll(c, w, model, [rel.id], w.work.authorization, w.work.invalidation) == r;
    }
  }

  // ---- A recreated mapping --------------------------------------------------------------

  /**
   Mappings are in no hash. When someone replaces the scope mappings, a relation that is recorded as
   synchronized stays as it is without a request, and its settings are the desired ones exactly if
   the mappings of its scopes are the same as before.
   */
  lemma RecreatedMappingStays(c: Context, w: World, rel: Relation, authorization: string, invalidation: string,
      table: map<string, string>)
    requires rel.ready && rel.client.Valid? && w.peer
        && Hit(EntryOf(w.work.cache, rel.id), WantOf(rel, authorization, invalidation))
    requires var pk, want := EntryOf(w.work.cache, rel.id).pk.value, WantOf(rel, authorization, invalidation);
      && pk in w.net.server.providers
      && w.net.server.providers[pk].settings == SettingsOf(w.net.server.mappings, want)
    ensures var pk, want := EntryOf(w.work.cache, rel.id).pk.value, WantOf(rel, authorization, invalidation);
      var u := w.(net := w.net.(server := w.net.server.(mappings := table)));
      var r := SyncRelation(c, u, rel, authorization, invalidation);
      && r.Done? && r.world.net == u.net
      && (r.world.net.server.providers[pk].settings == SettingsOf(table, want) <==>
          MappingsOf(table, want.scopes) == MappingsOf(w.net.server.mappings, want.scopes))
  {
    var u := w.(net := w.net.(server := w.net.server.(mappings := table)));
    HitSendsNothing(c, u, rel, authorization, invalidation);
  }

  // ---- A stray legacy provider ----------------------------------------------------------

  /**
   A provider with the legacy name but without an application, as an older charm leaves it that died
   between its two requests, is not adopted: discovery creates a second one beside it.
   */
  lemma StrayLegacyProvider(c: Context, w: World, n: Names, slug: string, cache: Cache, v: Provider, p: Pk)
    requires Numbered(w.net.server) && n.managed !in w.net.server.apps && n.legacy !in w.net.server.apps
    requires Named(w.net.server, p, n.legacyProvider) && forall q :: !Named(w.net.server, q, n.provider)
    requires Calm(c.faults, |w.net.sent|) && AcceptsFlows(w.net.server, v.settings) && v.name == n.provider
    ensures var r := Locate(c, w, n, slug, cache, v);
      && r.Done? && r.value.created && r.value.pk != p
      && Named(r.world.net.server, p, n.legacyProvider) && Named(r.world.net.server, r.value.pk, n.provider)
  {
    ReadApplicationOutcome(c.faults, w.net, n.managed);
    var n1 := ReadApplication(c.faults, w.net, n.managed).net;
    ReadApplicationOutcome(c.faults, n1, n.legacy);
    var n2 := ReadApplication(c.faults, n1, n.legacy).net;
    FindProviderOutcome(c.faults, n2, n.provider);
    var found := FindProvider(c.faults, n2, n.provider);
    forall q: Pk ensures found != Ok(found.net, Some(q)) {
      assert !Named(n2.server, q, n.provider);
    }
    var n3 := found.net;
    CreateProviderOutcome(c.faults, n3, v);
    assert p != n3.server.next;
  }

  // ---- Deletion by someone else ---------------------------------------------------------

  /** The server after someone else deleted a provider and, perhaps, its application. */
  function Bereaved(s: Server, pk: Pk, slug: string, both: bool): Server {
    var s1 := if both then After(s, DeleteApplication(slug)) else s;
    After(s1, DeleteProvider(pk))
  }

  lemma BereavedSound(ids: nat -> Names, s: Server, id: nat, pk: Pk, retired: set<nat>)
    requires ServerInv(ids, s, retired) && Bears(ids(id), s, pk)
    ensures var s' := Bereaved(s, pk, Home(ids(id), s), true);
      && SoundServer(ids, s') && Live(ids(id), s') && (forall p :: !Bears(ids(id), s', p)) && s'.next == s.next
      && s'.accepted == s.accepted
      && ids(id).managed !in s'.apps && ids(id).legacy !in s'.apps && Home(ids(id), s') == ids(id).managed
  {
    var n := ids(id);
    assert Sound(n, s);
    var s1 := After(s, DeleteApplication(Home(n, s)));
    ProperWork(ids, id, s, DeleteApplication(Home(n, s)));
    WorkSound(ids, id, s, s1);
    assert Bears(n, s1, pk);
    ProperWork(ids, id, s1, DeleteProvider(pk));
    WorkSound(ids, id, s1, After(s1, DeleteProvider(pk)));
    forall p ensures !Bears(n, After(s1, DeleteProvider(pk)), p) {
      assert Bears(n, s1, p) ==> Bears(n, s, p);
    }
  }

  /** After the dead entry is dropped: discovery finds nothing, creates, and goes on. */
  lemma Rediscover(c: Context, w: World, id: nat, cache: Cache, v: Provider)
    requires Separated(c.ids) && SoundServer(c.ids, w.net.server) && Live(c.ids(id), w.net.server)
    requires c.ids(id).managed !in w.net.server.apps && c.ids(id).legacy !in w.net.server.apps
    requires forall p :: !Bears(c.ids(id), w.net.server, p)
    requires Calm(c.faults, |w.net.sent|) && w.peer && cache == w.work.cache && Rel(id) !in cache
    requires v.name == c.ids(id).provider && AcceptsFlows(w.net.server, v.settings)
    ensures var d := Discover(c, w, id, cache, v);
      && d.Done? && d.value.slug == c.ids(id).managed
      && var a := Apply(c, d.world, c.ids(id), d.value, v);
        a.Done? && Synced(a.world.net.server, c.ids(id).managed, d.value.pk, v) && d.value.pk >= w.net.server.next
  {
    var n := c.ids(id);
    DiscoverOutcome(c, w, id, cache, v);
    var d := Discover(c, w, id, cache, v);
    ReadApplicationOutcome(c.faults, w.net, n.managed);
    var n1 := ReadApplication(c.faults, w.net, n.managed).net;
    ReadApplicationOutcome(c.faults, n1, n.legacy);
    var n2 := ReadApplication(c.faults, n1, n.legacy).net;
    FindProviderOutcome(c.faults, n2, n.provider);
    assert forall p :: Named(n2.server, p, n.provider) ==> Bears(n, n2.server, p);
    CreateProviderOutcome(c.faults, FindProvider(c.faults, n2, n.provider).net, v);
    ProgressSound(c.ids, id, v, w.net, d.world.net);
    ApplyOutcome(c, d.world, id, d.value, v);
  }

  /** With the application still there, the check of its provider ends in an exception. */
  lemma BereavedApplication(c: Context, u: World, id: nat, v: Provider)
    requires Calm(c.faults, |u.net.sent|) && Trusted(EntryOf(u.work.cache, id))
    requires var slug := EntryOf(u.work.cache, id).slug;
        slug in u.net.server.apps && u.net.server.apps[slug].provider.None?
    ensures var r := SyncObjects(c, u, id, u.work.cache, v);
      r == Raised(r.world, Unexpected) && r.world.net.server == u.net.server && r.world.work == u.work
  {
    ReadApplicationOutcome(c.faults, u.net, EntryOf(u.work.cache, id).slug);
  }

  /** With both gone, the dead entry is dropped and everything is created anew. */
  lemma BereavedOfBoth(c: Context, u: World, id: nat, v: Provider)
    requires Separated(c.ids) && SoundServer(c.ids, u.net.server) && Live(c.ids(id), u.net.server)
    requires c.ids(id).managed !in u.net.server.apps && c.ids(id).legacy !in u.net.server.apps
    requires forall p :: !Bears(c.ids(id), u.net.server, p)
    requires Calm(c.faults, |u.net.sent|) && u.peer
    requires v.name == c.ids(id).provider && AcceptsFlows(u.net.server, v.settings)
    requires var e := EntryOf(u.work.cache, id);
      Trusted(e) && e.slug !in u.net.server.apps && e.pk.value !in u.net.server.providers
    ensures var r := SyncObjects(c, u, id, u.work.cache, v);
      r.Done? && Synced(r.world.net.server, c.ids(id).managed, r.value.pk, v) && r.value.pk >= u.net.server.next
  {
    var e := EntryOf(u.work.cache, id);
    ReadApplicationOutcome(c.faults, u.net, e.slug);
    var w1 := u.(net := ReadApplication(c.faults, u.net, e.slug).net);
    ReadProviderOutcome(c.faults, w1.net, e.pk.value);
    var w2 := w1.(net := ReadProvider(c.faults, w1.net, e.pk.value).net);
    var cache1 := u.work.cache - {Rel(id)};
    Rediscover(c, SaveCache(w2, cache1), id, cache1, v);
  }

  /**
   Recovery from a provider deleted behind the charm's back: a synchronization without faults gets
   through if and only if the application is gone as well. Then it creates both anew; otherwise
   it ends in an exception that is no API error, and will again.
   */
  lemma OutOfBandDeletion(c: Context, w: World, id: nat, v: Provider, both: bool)
    requires Updatable(c, w, id) && Calm(c.faults, |w.net.sent|)
    requires v.name == c.ids(id).provider && AcceptsFlows(w.net.server, v.settings)
    ensures var e := w.work.cache[Rel(id)];
      e.pk.Some? &&
      var u := w.(net := w.net.(server := Bereaved(w.net.server, e.pk.value, e.slug, both)));
      var r := SyncObjects(c, u, id, u.work.cache, v);
      && (r.Done? <==> both)
      && (both ==> Synced(r.world.net.server, c.ids(id).managed, r.value.pk, v) && r.value.pk >= w.net.server.next)
      && (!both ==> r == Raised(r.world, Unexpected) && r.world.net.server == u.net.server && r.world.work == u.work)
  {
    var e, n := w.work.cache[Rel(id)], c.ids(id);
    assert EntryOk(n, w.net, w.work, id, false);
    assert Sound(n, w.net.server);
    var u := w.(net := w.net.(server := Bereaved(w.net.server, e.pk.value, e.slug, both)));
    if both {
      BereavedSound(c.ids, w.net.server, id, e.pk.value, w.retired);
      BereavedOfBoth(c, u, id, v);
    } else {
      BereavedApplication(c, u, id, v);
    }
  }

  // ---- A deleted client secret ----------------------------------------------------------

  /** From attempt `k` on, the PUT and then the PATCH are answered. */
  predicate Answered(o: Oracle, k: nat) {
    Returns(o, k, MAX_ATTEMPTS) && Returns(o, k + Tries(o, k, MAX_ATTEMPTS), MAX_ATTEMPTS)
  }

  /** An update gets through: both reads answer, the flows are accepted, and PUT and PATCH are answered. */
  predicate GetsThrough(c: Context, w: World, id: nat, v: Provider) {
    var r := Recall(c, w, id, w.work.cache, v);
    r.Done? && AcceptsFlows(w.net.server, v.settings) && Answered(c.faults, |r.world.net.sent|)
  }

  lemma UpdateGetsThrough(c: Context, w: World, id: nat, v: Provider)
    requires Updatable(c, w, id)
    ensures SyncObjects(c, w, id, w.work.cache, v).Done? <==> GetsThrough(c, w, id, v)
  {
    RecallConfirms(c, w, id, v);
    RecallThenApply(c, w, id, v);
    var r := Recall(c, w, id, w.work.cache, v);
    if r.Done? {
      FoundGetsThrough(c, w, r.world, c.ids(id), r.value, v);
    }
  }

  lemma FoundGetsThrough(c: Context, w: World, w1: World, n: Names, found: Found, v: Provider)
    requires w1.net.server == w.net.server && !found.created && found.present
    requires found.pk in w.net.server.providers && found.slug in w.net.server.apps
    ensures Apply(c, w1, n, found, v).Done? <==>
        AcceptsFlows(w.net.server, v.settings) && Answered(c.faults, |w1.net.sent|)
  {
    ApplyGetsThrough(c, w1, n, found, v);
  }

  lemma RecallThenApply(c: Context, w: World, id: nat, v: Provider)
    ensures var r := Recall(c, w, id, w.work.cache, v);
      SyncObjects(c, w, id, w.work.cache, v).Done? <==> r.Done? && Apply(c, r.world, c.ids(id), r.value, v).Done?
  {}

  lemma ApplyGetsThrough(c: Context, w: World, n: Names, found: Found, v: Provider)
    requires !found.created && found.present && found.pk in w.net.server.providers && found.slug in w.net.server.apps
    ensures Apply(c, w, n, found, v).Done? <==>
      AcceptsFlows(w.net.server, v.settings) && Answered(c.faults, |w.net.sent|)
  {
    var put := UpdateProvider(c.faults, w.net, found.pk, v);
    UpdateProviderOutcome(c.faults, w.net, found.pk, v);
    if AcceptsFlows(w.net.server, v.settings) {
      SendReturns(c.faults, w.net, PutProvider(found.pk, v), MAX_ATTEMPTS);
      if put.Ok? {
        PatchReturns(c.faults, put.net, found.slug, n.provider, found.pk);
      }
    }
  }

  lemma PatchReturns(o: Oracle, n: Net, slug: string, name: string, pk: Pk)
    requires slug in n.server.apps && pk in n.server.providers
    ensures UpdateApplication(o, n, slug, name, pk).Ok? <==> Returns(o, |n.sent|, MAX_ATTEMPTS)
  {
    SendReturns(o, n, PatchApplication(slug, name, pk), MAX_ATTEMPTS);
  }

  /**
   When the client secret was deleted from outside, an update goes out with new credentials. After
   it, databag and provider disagree exactly if the PUT took effect and yet the update did not get
   through: its answer, or every answer to the PATCH after it, was lost or refused on the way.
   */
  lemma DeletedSecretDisagrees(c: Context, w: World, rel: Relation, want: Want)
    requires Updatable(c, w, rel.id) && Finished(w.work.cache[Rel(rel.id)]) && rel.secret.Deleted? && "" !in want.scopes
    requires Some(c.tokens(|w.net.sent|)) != BagOf(w.work, rel.id).credentials
    ensures var r := Converge(c, w, rel, w.work.cache, want); var m := ResolveMappings(c, w, want.scopes);
      var v := PayloadFor(c, w, rel.id, c.tokens(|w.net.sent|), want, Served(w, want.scopes));
      !CredentialsAgree(r.world.net.server, r.world.work, rel.id, w.work.cache[Rel(rel.id)].pk.value)
      <==> m.Done? && Overwrites(c, m.world, rel.id, v) && !GetsThrough(c, m.world, rel.id, v)
  {
    ResolveMappingsOutcome(c, w, want.scopes);
    var m := ResolveMappings(c, w, want.scopes);
    assert EntryOk(c.ids(rel.id), w.net, w.work, rel.id, false);
    DeletedThenMappings(c, w, rel, want);
    if m.Done? {
      NewCredentials(c, m.world, rel, c.tokens(|w.net.sent|), want, Served(w, want.scopes));
    }
  }

  lemma DeletedThenMappings(c: Context, w: World, rel: Relation, want: Want)
    requires rel.secret.Deleted?
    ensures var m := ResolveMappings(c, w, want.scopes);
      && (m.Raised? ==> Converge(c, w, rel, w.work.cache, want) == Raised(m.world, m.error))
      && (m.Done? ==>
        Converge(c, w, rel, w.work.cache, want) ==
        ConvergeWith(c, m.world, rel, w.work.cache, c.tokens(|w.net.sent|), true, m.value, want))
  {
    assert ObtainCredentials(c, w, rel) == Done(w, (c.tokens(|w.net.sent|), true));
  }

  lemma NewCredentials(c: Context, w: World, rel: Relation, credentials: Credentials, want: Want, served: seq<string>)
    requires Updatable(c, w, rel.id) && Finished(w.work.cache[Rel(rel.id)])
    requires Some(credentials) != BagOf(w.work, rel.id).credentials
    ensures var r := ConvergeWith(c, w, rel, w.work.cache, credentials, true, Itself(w, served), want);
      var v := PayloadFor(c, w, rel.id, credentials, want, served);
      !CredentialsAgree(r.world.net.server, r.world.work, rel.id, w.work.cache[Rel(rel.id)].pk.value)
      <==> Overwrites(c, w, rel.id, v) && !GetsThrough(c, w, rel.id, v)
  {
    var v := PayloadFor(c, w, rel.id, credentials, want, served);
    assert EntryOk(c.ids(rel.id), w.net, w.work, rel.id, false);
    RecallConfirms(c, w, rel.id, v);
    UpdateGetsThrough(c, w, rel.id, v);
    var r := SyncObjects(c, w, rel.id, w.work.cache, v);
    SyncObjectsOutcome(c, w, rel.id, w.work.cache, v);
    var before := w.net.server.providers[w.work.cache[Rel(rel.id)].pk.value];
    assert Some(before.credentials) == BagOf(w.work, rel.id).credentials;
    if r.Raised? {
      FailedUpdateKeepsHash(c, w, rel.id, v);
      WroteOrKept(c, w, rel.id, v);
    }
  }

  /** After an update the provider of the cached pair is as before or as sent. */
  lemma WroteOrKept(c: Context, w: World, id: nat, v: Provider)
    requires Updatable(c, w, id) && v.name == c.ids(id).provider
    ensures var s := SyncObjects(c, w, id, w.work.cache, v).world.net.server; var pk := w.work.cache[Rel(id)].pk.value;
      pk in s.providers && pk in w.net.server.providers
          && (s.providers[pk] == w.net.server.providers[pk] || s.providers[pk] == v)
  {
    assert EntryOk(c.ids(id), w.net, w.work, id, false);
    SyncObjectsOutcome(c, w, id, w.work.cache, v);
    assert Bears(c.ids(id), w.net.server, w.work.cache[Rel(id)].pk.value);
  }
}
