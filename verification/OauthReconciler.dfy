/**
 The reconciler and the hook handler as the charm runs them: methods that update peer data,
 relation data and the server step by step. Every method is proved to do exactly what the
 functions of `Reconciler` and `Runs` say, so whatever is proved about those holds of these.
 */
module Charm {
  import opened Options
  import opened AuthentikServer
  import opened AuthentikApi
  import opened ConfigKey
  import opened Reconciler
  import opened Clients
  import opened Runs

  /** The peer databag; without a peer relation it reads as empty and drops writes. */
  class PeerData {
    var present: bool
    var cache: Cache
    var authorization: string
    var invalidation: string

    constructor (present: bool, cache: Cache, authorization: string, invalidation: string)
      ensures this.present == present && this.cache == cache
      ensures this.authorization == authorization && this.invalidation == invalidation
    {
      this.present := present;
      this.cache := cache;
      this.authorization := authorization;
      this.invalidation := invalidation;
    }

    method GetCache() returns (c: Cache)
      ensures c == if present then cache else map[]
    {
      if !present {
        return map[];
      }
      return cache;
    }

    method SetCache(c: Cache)
      modifies this`cache
      ensures cache == if present then c else old(cache)
    {
      if !present {
        return;
      }
      cache := c;
    }

    method GetFlow(flow: Flow) returns (uuid: string)
      ensures uuid == if !present then "" else if flow == AuthorizationFlow then authorization else invalidation
    {
      if !present {
        return "";
      }
      match flow {
        case AuthorizationFlow => return authorization;
        case InvalidationFlow => return invalidation;
      }
    }

    method SetFlow(flow: Flow, uuid: string)
      modifies this`authorization, this`invalidation
      ensures authorization == if present && flow == AuthorizationFlow then uuid else old(authorization)
      ensures invalidation == if present && flow == InvalidationFlow then uuid else old(invalidation)
    {
      if !present {
        return;
      }
      match flow {
        case AuthorizationFlow => authorization := uuid;
        case InvalidationFlow => invalidation := uuid;
      }
    }
  }

  class OauthReconciler {
    const context: Context
    const api: AuthentikClient
    const peer: PeerData

    /** Our side of every relation databag. */
    var bags: map<nat, Bag>

    /** What Juju has committed, which is what a failed hook returns to. */
    var saved: Local

    /** The memo of mappings by scope key, empty in every new reconciler. */
    var resolved: map<string, Resolution>

    /** History, which nothing but the proofs reads. */
    var marks: map<nat, Mark>
    ghost var retired: set<nat>

    ghost predicate Valid() { context.faults == api.faults && Lists(context.order) }

    ghost function Working(): Local
      reads this, peer
    {
      Local(peer.cache, peer.authorization, peer.invalidation, bags, marks)
    }

    /** The state the model speaks of. */
    ghost function State(): World
      reads this, api, peer
    {
      World(api.State(), api.scopeMappings, resolved, peer.present, Working(), saved, retired)
    }

    constructor (context: Context, api: AuthentikClient, peer: PeerData, bags: map<nat, Bag>)
      requires context.faults == api.faults && Lists(context.order)
      ensures Valid() && this.context == context && this.api == api && this.peer == peer
      ensures State() == World(api.State(), api.scopeMappings, map[], peer.present, Working(), Working(), {})
      ensures Working() == Local(peer.cache, peer.authorization, peer.invalidation, bags, map[])
    {
      this.context := context;
      this.api := api;
      this.peer := peer;
      this.bags := bags;
      saved := Local(peer.cache, peer.authorization, peer.invalidation, bags, map[]);
      resolved := map[];
      marks := map[];
      retired := {};
    }

    // ---- Relation data ------------------------------------------------------------------

    method PublishProviderInfo(id: nat, slug: string, scopes: seq<string>)
      modifies this`bags
      ensures State() == Publish(old(State()), context.host, id, slug, scopes)
    {
      var bag := if id in bags then bags[id] else Bag(None, None);
      bags := bags[id := bag.(info := Some(Published(context.host, slug, scopes)))];
    }

    method SetClientCredentials(id: nat, credentials: Credentials)
      modifies this`bags
      ensures State() == PublishCredentials(old(State()), id, credentials)
    {
      var bag := if id in bags then bags[id] else Bag(None, None);
      bags := bags[id := bag.(credentials := Some(credentials))];
    }

    /** Known credentials, or new ones that are not written anywhere yet. */
    method GetOrGenerateCredentials(rel: Relation) returns (r: Outcome<(Credentials, bool)>)
      ensures r.In(State()) == ObtainCredentials(context, State(), rel)
    {
      if rel.id in bags && bags[rel.id].credentials.Some? {
        match rel.secret {
          case Readable => return Success((bags[rel.id].credentials.value, false));
          case Unreadable => return Failure(Transient);
          case Deleted =>
        }
      }
      return Success((context.tokens(|api.sent|), true));
    }

    // ---- One relation -------------------------------------------------------------------

    method ValidateApplicationProvider(app: Application, first: string, second: string) returns (r: Outcome<Pk>)
      requires Valid()
      modifies api`server, api`sent
      ensures r.In(State()) == ValidateApplication(context, old(State()), app, first, second)
    {
      if app.provider.None? {
        return Failure(Conflict);
      }
      var provider :- api.GetOauthProvider(app.provider.value);
      if provider.None? || !(provider.value.name == first || provider.value.name == second) {
        return Failure(Conflict);
      }
      return Success(app.provider.value);
    }

    /** Managed slug, then legacy slug, then provider name, then creation, for which `slug` is given. */
    method LocateObjects(n: Names, slug: string, cache: Cache, v: Provider) returns (r: Outcome<Found>)
      requires Valid()
      modifies api`server, api`sent
      ensures r.In(State()) == Locate(context, old(State()), n, slug, cache, v)
    {
      var application :- api.GetApplication(n.managed);
      if application.Some? {
        var pk :- ValidateApplicationProvider(application.value, n.provider, n.provider);
        return Success(Found(cache, n.managed, pk, true, false));
      }
      var legacy :- api.GetApplication(n.legacy);
      if legacy.Some? {
        var pk :- ValidateApplicationProvider(legacy.value, n.provider, n.legacyProvider);
        return Success(Found(cache, n.legacy, pk, true, false));
      }
      var known :- api.FindOauthProvider(n.provider);
      if known.Some? {
        return Success(Found(cache, slug, known.value, false, false));
      }
      var made :- api.CreateOauthProvider(v);
      return Success(Found(cache, slug, made, false, true));
    }

    /** Discovery, then slug and primary key are saved without a hash. */
    method DiscoverObjects(id: nat, cache: Cache, v: Provider) returns (r: Outcome<Found>)
      requires Valid()
      modifies api`server, api`sent, peer`cache
      ensures r.In(State()) == Discover(context, old(State()), id, cache, v)
    {
      var n := context.ids(id);
      var found :- LocateObjects(n, SlugOf(n, EntryOf(cache, id)), cache, v);
      var partial := cache[Rel(id) := Entry(SCHEMA_VERSION, None, Some(found.pk), found.slug)];
      peer.SetCache(partial);
      return Success(found.(cache := partial));
    }

    /** The cached identity if it can be trusted and is still alive, else discovery. */
    method RecallObjects(id: nat, cache: Cache, v: Provider) returns (r: Outcome<Found>)
      requires Valid()
      modifies api`server, api`sent, peer`cache
      ensures r.In(State()) == Recall(context, old(State()), id, cache, v)
    {
      var entry := EntryOf(cache, id);
      if !Trusted(entry) {
        r := DiscoverObjects(id, cache, v);
        return;
      }
      var application :- api.GetApplication(entry.slug);
      if application.Some? {
        if application.value.provider.None? {
          return Failure(Unexpected);
        }
        if application.value.provider != entry.pk {
          return Failure(Conflict);
        }
      }
      var provider :- api.GetOauthProvider(entry.pk.value);
      if provider.Some? {
        return Success(Found(cache, entry.slug, entry.pk.value, application.Some?, false));
      }
      var rest := cache - {Rel(id)};
      peer.SetCache(rest);
      r := DiscoverObjects(id, rest, v);
    }

    method ApplyObjects(n: Names, found: Found, v: Provider) returns (r: Outcome<()>)
      requires Valid()
      modifies api`server, api`sent
      ensures r.In(State()) == Apply(context, old(State()), n, found, v)
    {
      if !found.created {
        var _ :- api.UpdateOauthProvider(found.pk, v);
      }
      if found.present {
        r := api.ChangeApplication(found.slug, n.provider, found.pk);
      } else {
        r := api.AddApplication(found.slug, n.provider, found.pk);
      }
    }

    method SyncAuthentikObjects(id: nat, cache: Cache, v: Provider) returns (r: Outcome<Found>)
      requires Valid()
      modifies api`server, api`sent, peer`cache
      ensures r.In(State()) == SyncObjects(context, old(State()), id, cache, v)
    {
      var found :- RecallObjects(id, cache, v);
      var _ :- ApplyObjects(context.ids(id), found, v);
      return Success(found);
    }

    /** The mappings of the scopes, remembered by their joined text. */
    method ObtainMappings(scopes: seq<string>) returns (r: Outcome<Resolution>)
      requires Valid()
      modifies this`resolved, api
      ensures r.In(State()) == ResolveMappings(context, old(State()), scopes)
    {
      var key := Join(scopes);
      if key !in resolved {
        var mappings :- api.GetPropertyMappings(scopes);
        resolved := resolved[key := Resolution(mappings, scopes)];
      }
      return Success(resolved[key]);
    }

    /** The slow path of a synchronization. */
    method ConvergeRelation(rel: Relation, cache: Cache, v: Want) returns (r: Outcome<()>)
      requires Valid()
      modifies this`bags, this`marks, this`resolved, api, peer`cache
      ensures r.In(State()) == Converge(context, old(State()), rel, cache, v)
    {
      var held :- GetOrGenerateCredentials(rel);
      var known :- ObtainMappings(v.scopes);
      var settings := Settings(v.uris, v.authorization, v.invalidation, known.mappings, v.grants);
      var found :- SyncAuthentikObjects(rel.id, cache, Provider(context.ids(rel.id).provider, held.0, settings));
      CompleteRelation(rel, found, held.0, held.1, v, known.scopes);
      return Success(());
    }

    /** Publishing first, the hash last. */
    method CompleteRelation(rel: Relation, found: Found, credentials: Credentials, isNew: bool, v: Want,
        served: seq<string>)
      modifies this`bags, this`marks, peer`cache
      ensures State() == Complete(context, old(State()), rel, found, credentials, isNew, v, served)
    {
      PublishProviderInfo(rel.id, found.slug, v.scopes);
      if isNew {
        SetClientCredentials(rel.id, credentials);
      }
      peer.SetCache(found.cache[Rel(rel.id) := Entry(SCHEMA_VERSION, Some(DigestOf(v)), Some(found.pk), found.slug)]);
      if peer.present {
        marks := marks[rel.id := Mark(|api.sent|, v, served)];
      }
    }

    method Sync(rel: Relation, authorization: string, invalidation: string) returns (r: Outcome<()>)
      requires Valid()
      modifies this`bags, this`marks, this`resolved, api, peer`cache
      ensures r.In(State()) == SyncRelation(context, old(State()), rel, authorization, invalidation)
    {
      if !rel.ready {
        return Success(());
      }
      var scopes := Scopes(rel.scope);
      var cache := peer.GetCache();
      var entry := EntryOf(cache, rel.id);
      PublishProviderInfo(rel.id, SlugOf(context.ids(rel.id), entry), scopes);
      if !rel.client.Valid? {
        return Success(());
      }
      var v := Want(Stripped(rel.client.uris), authorization, invalidation, scopes, Stripped(rel.client.grants));
      if Hit(entry, v) {
        return Success(());
      }
      r := ConvergeRelation(rel, cache, v);
    }

    // ---- Garbage collection -------------------------------------------------------------

    /** The application of an entry, after which the entry no longer names it. */
    method CollectApplicationOf(cache: Cache, key: Key) returns (r: Outcome<Entry>)
      requires Valid() && key in cache
      modifies api`server, api`sent, peer`cache
      ensures r.In(State()) == CollectApplication(context, old(State()), cache, key)
    {
      var entry := cache[key];
      if entry.slug != "" {
        var _ :- api.DropApplication(entry.slug);
        entry := entry.(slug := "", hash := None);
        peer.SetCache(cache[key := entry]);
      }
      return Success(entry);
    }

    method CollectProviderOf(cache: Cache, key: Key) returns (r: Outcome<Entry>)
      requires Valid() && key in cache
      modifies api`server, api`sent, peer`cache
      ensures r.In(State()) == CollectProvider(context, old(State()), cache, key)
    {
      var entry := cache[key];
      if entry.pk.Some? {
        var _ :- api.DropOauthProvider(entry.pk.value);
        entry := entry.(pk := None);
        peer.SetCache(cache[key := entry]);
      }
      return Success(entry);
    }

    method CollectOne(cache: Cache, key: Key) returns (r: Outcome<Cache>)
      requires Valid() && key in cache
      modifies api`server, api`sent, peer`cache
      ensures r.In(State()) == CollectEntry(context, old(State()), cache, key)
    {
      var entry :- CollectApplicationOf(cache, key);
      var _ :- CollectProviderOf(cache[key := entry], key);
      peer.SetCache(cache - {key});
      return Success(cache - {key});
    }

    method Collect(active: set<nat>) returns (r: Outcome<()>)
      requires Valid()
      modifies api`server, api`sent, peer`cache
      ensures r.In(State()) == GarbageCollect(context, old(State()), active)
    {
      var cache := peer.GetCache();
      var keys := context.order(cache.Keys);
      ghost var all := cache;
      var i := 0;
      assert keys[0..] == keys;
      while i < |keys|
        invariant 0 <= i <= |keys|
        invariant forall j :: i <= j < |keys| ==> keys[j] in cache
        invariant CollectAll(context, State(), active, cache, keys[i..]) == CollectAll(context, old(State()), active,
            all, keys)
      {
        assert keys[i..][0] == keys[i] && keys[i..][1..] == keys[i + 1..];
        if Collectable(keys[i], active) {
          cache :- CollectOne(cache, keys[i]);
        }
        i := i + 1;
      }
      return Success(());
    }

    // ---- One reconciliation -------------------------------------------------------------

    method ObtainFlow(flow: Flow) returns (r: Outcome<string>)
      requires Valid()
      modifies api`server, api`sent, peer`authorization, peer`invalidation
      ensures r.In(State()) == ResolveFlow(context, old(State()), flow)
    {
      var uuid := peer.GetFlow(flow);
      if uuid == "" {
        uuid :- api.GetFlowUuid(flow);
        peer.SetFlow(flow, uuid);
      }
      return Success(uuid);
    }

    /** Relation after relation; an error that flows may have caused makes the charm forget them. */
    method SyncRelations(model: map<nat, Relation>, ids: seq<nat>, authorization: string, invalidation: string)
      returns (r: Outcome<()>)
      requires Valid()
      modifies this`bags, this`marks, this`resolved, api, peer
      ensures r.In(State()) == SyncActive(context, old(State()), model, ids, authorization, invalidation)
    {
      var i := 0;
      while i < |ids|
        invariant 0 <= i <= |ids| && peer.present == old(peer.present)
        invariant SyncAll(context, State(), model, ids[i..], authorization, invalidation) ==
                  SyncAll(context, old(State()), model, ids, authorization, invalidation)
      {
        assert ids[i..][0] == ids[i] && ids[i..][1..] == ids[i + 1..];
        if ids[i] in model {
          var one := Sync(model[ids[i]], authorization, invalidation);
          if one.Failure? {
            if SuspectsFlows(one.error) {
              peer.SetFlow(AuthorizationFlow, "");
              peer.SetFlow(InvalidationFlow, "");
            }
            return one;
          }
        }
        i := i + 1;
      }
      return Success(());
    }

    method ReconcileRelations(model: map<nat, Relation>, ids: seq<nat>) returns (r: Outcome<()>)
      requires Valid()
      modifies this`bags, this`marks, this`resolved, api, peer
      ensures r.In(State()) == Reconcile(context, old(State()), model, ids)
    {
      if ids == [] {
        r := Collect({});
        return;
      }
      var authorization :- ObtainFlow(AuthorizationFlow);
      var invalidation :- ObtainFlow(InvalidationFlow);
      var _ :- SyncRelations(model, ids, authorization, invalidation);
      r := Collect(ToSet(ids));
    }

    // ---- The hook -----------------------------------------------------------------------

    /** One run of the handler, with a reconciler of its own. */
    method RunHandler(model: map<nat, Relation>, active: seq<nat>) returns (r: Outcome<()>)
      requires Valid()
      modifies this`bags, this`marks, this`resolved, this`retired, api, peer
      ensures r.In(State()) == Reconcile(context, Begin(old(State()), active), model, active)
    {
      resolved := map[];
      retired := retired + set k | k in peer.cache && Collectable(k, ToSet(active)) :: k.id;
      r := ReconcileRelations(model, active);
    }

    /**
     The last run of the handler in a hook. Transient failures escape, other API errors are
     swallowed; Juju then keeps or discards what was written locally, and the client is gone.
     */
    method HolisticHandler(h: Hook)
      requires Valid()
      modifies this`bags, this`saved, this`marks, this`resolved, this`retired, api, peer
      ensures State() == RunHook(context, old(State()), h)
    {
      var outcome := RunHandler(h.model, h.active);
      api.scopeMappings := None;
      resolved := map[];
      if h.crash || (outcome.Failure? && Escapes(outcome.error) && !h.keep) {
        peer.cache, peer.authorization, peer.invalidation := saved.cache, saved.authorization, saved.invalidation;
        bags := saved.bags;
        marks := saved.marks;
      } else {
        saved := Local(peer.cache, peer.authorization, peer.invalidation, bags, marks);
      }
    }
  }
}
