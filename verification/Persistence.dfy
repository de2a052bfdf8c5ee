/**
 What a synchronization sends, and what it has saved by then: before any write that adopts or uses a
 pair of objects, the cache names that pair.
 */
module Persistence {
  import opened Options
  import opened AuthentikServer
  import opened AuthentikApi
  import opened ConfigKey
  import opened Reconciler
  import opened Ownership
  import opened SyncProofs
  import opened Invariant
  import opened Collection
  import opened Runs
  import opened Orphans

  // ---- What is sent ---------------------------------------------------------------------

  /** The writes that use a pair of slug and primary key: all but the creation of a provider. */
  predicate Uses(q: Request) { q.PutProvider? || q.PostApplication? || q.PatchApplication? }

  /** Since then a pair was used. */
  ghost predicate Used(n: Net, n': Net)
    requires n.sent <= n'.sent
  {
    exists i :: |n.sent| <= i < |n'.sent| && Uses(n'.sent[i])
  }

  /** Nothing sent since then uses a pair. */
  ghost predicate Unused(n: Net, n': Net) {
    n.sent <= n'.sent && forall i :: |n.sent| <= i < |n'.sent| ==> !Uses(n'.sent[i])
  }

  lemma UnusedTransitive(n: Net, n1: Net, n2: Net)
    requires Unused(n, n1) && Unused(n1, n2)
    ensures Unused(n, n2)
  {
    forall i | |n.sent| <= i < |n2.sent| ensures !Uses(n2.sent[i]) {
      assert i < |n1.sent| ==> n2.sent[i] == n1.sent[i];
    }
  }

  lemma SendUnused(o: Oracle, n: Net, q: Request, attempts: nat)
    requires attempts >= 1 && !Uses(q) && (attempts == 1 || Idempotent(q))
    ensures Unused(n, Send(o, n, q, attempts).0)
  {
    SendOutcome(o, n, q, attempts);
  }

  lemma ReadsUnused(o: Oracle, n: Net, slug: string, pk: Pk, name: string)
    ensures Unused(n, ReadApplication(o, n, slug).net) && Unused(n, ReadProvider(o, n, pk).net)
    ensures Unused(n, FindProvider(o, n, name).net) && Unused(n, ReadMappings(o, n).net)
  {
    SendUnused(o, n, GetApplication(slug), MAX_ATTEMPTS);
    SendUnused(o, n, GetProvider(pk), MAX_ATTEMPTS);
    SendUnused(o, n, ListProviders(name), MAX_ATTEMPTS);
    SendUnused(o, n, ListMappings, MAX_ATTEMPTS);
  }

  lemma CreateUnused(o: Oracle, n: Net, v: Provider)
    ensures Unused(n, CreateProvider(o, n, v).net)
  {
    SendUnused(o, n, PostProvider(v), 1);
    var n1 := Send(o, n, PostProvider(v), 1).0;
    ReadsUnused(o, n1, "", 0, v.name);
    var n2 := FindProvider(o, n1, v.name).net;
    UnusedTransitive(n, n1, n2);
    assert CreateProvider(o, n, v).net == n1 || CreateProvider(o, n, v).net == n2;
  }

  lemma ValidateUnused(c: Context, w: World, app: Application, first: string, second: string)
    ensures Unused(w.net, ValidateApplication(c, w, app, first, second).world.net)
  {
    if app.provider.Some? {
      ReadsUnused(c.faults, w.net, "", app.provider.value, "");
    }
  }

  lemma FindOrCreateUnused(c: Context, w: World, n: Names, slug: string, cache: Cache, v: Provider)
    ensures Unused(w.net, FindOrCreate(c, w, n, slug, cache, v).world.net)
  {
    ReadsUnused(c.faults, w.net, "", 0, n.provider);
    var found := FindProvider(c.faults, w.net, n.provider);
    if found.Ok? && found.value.None? {
      CreateUnused(c.faults, found.net, v);
      UnusedTransitive(w.net, found.net, CreateProvider(c.faults, found.net, v).net);
    }
  }

  lemma LocateUnused(c: Context, w: World, n: Names, slug: string, cache: Cache, v: Provider)
    ensures Unused(w.net, Locate(c, w, n, slug, cache, v).world.net)
  {
    ReadsUnused(c.faults, w.net, n.managed, 0, "");
    var a1 := ReadApplication(c.faults, w.net, n.managed);
    var w1 := w.(net := a1.net);
    if a1.Ok? && a1.value.Some? {
      ValidateUnused(c, w1, a1.value.value, n.provider, n.provider);
      UnusedTransitive(w.net, w1.net, ValidateApplication(c, w1, a1.value.value, n.provider, n.provider).world.net);
    } else if a1.Ok? {
      LocateUnmanagedUnused(c, w1, n, slug, cache, v);
      UnusedTransitive(w.net, w1.net, LocateUnmanagedStep(c, w1, n, slug, cache, v).world.net);
    }
  }

  /** Discovery once there is no managed application. */
  function LocateUnmanagedStep(c: Context, w: World, n: Names, slug: string, cache: Cache, v: Provider): Step<Found> {
    var (w2, legacy) :- Lift(w, ReadApplication(c.faults, w.net, n.legacy));
    if legacy.Some? then
      var (w3, pk) :- ValidateApplication(c, w2, legacy.value, n.provider, n.legacyProvider);
      Done(w3, Found(cache, n.legacy, pk, true, false))
    else FindOrCreate(c, w2, n, slug, cache, v)
  }

  lemma LocateUnmanagedUnused(c: Context, w: World, n: Names, slug: string, cache: Cache, v: Provider)
    ensures Unused(w.net, LocateUnmanagedStep(c, w, n, slug, cache, v).world.net)
  {
    ReadsUnused(c.faults, w.net, n.legacy, 0, "");
    var a2 := ReadApplication(c.faults, w.net, n.legacy);
    var w2 := w.(net := a2.net);
    if a2.Ok? && a2.value.Some? {
      ValidateUnused(c, w2, a2.value.value, n.provider, n.legacyProvider);
      UnusedTransitive(w.net, w2.net, ValidateApplication(c, w2, a2.value.value, n.provider,
          n.legacyProvider).world.net);
    } else if a2.Ok? {
      FindOrCreateUnused(c, w2, n, slug, cache, v);
      UnusedTransitive(w.net, w2.net, FindOrCreate(c, w2, n, slug, cache, v).world.net);
    }
  }

  lemma DiscoverUnused(c: Context, w: World, id: nat, cache: Cache, v: Provider)
    ensures Unused(w.net, Discover(c, w, id, cache, v).world.net)
  {
    var n := c.ids(id);
    LocateUnused(c, w, n, SlugOf(n, EntryOf(cache, id)), cache, v);
  }

  /** Rediscovery, after the entry of a provider that is gone was dropped. */
  lemma RediscoverUnused(c: Context, w: World, before: Net, id: nat, cache: Cache, v: Provider)
    requires Unused(before, w.net)
    ensures Unused(before, Discover(c, SaveCache(w, cache), id, cache, v).world.net)
  {
    var w1 := SaveCache(w, cache);
    DiscoverUnused(c, w1, id, cache, v);
    UnusedTransitive(before, w1.net, Discover(c, w1, id, cache, v).world.net);
  }

  /** Finding the objects of a relation uses no pair. */
  lemma RecallUnused(c: Context, w: World, id: nat, cache: Cache, v: Provider)
    ensures Unused(w.net, Recall(c, w, id, cache, v).world.net)
  {
    var e := EntryOf(cache, id);
    if !Trusted(e) {
      DiscoverUnused(c, w, id, cache, v);
    } else {
      ReadsUnused(c.faults, w.net, e.slug, 0, "");
      var a1 := ReadApplication(c.faults, w.net, e.slug);
      if a1.Ok? && (a1.value.None? || a1.value.value.provider == e.pk) {
        ReadsUnused(c.faults, a1.net, "", e.pk.value, "");
        var a2 := ReadProvider(c.faults, a1.net, e.pk.value);
        UnusedTransitive(w.net, a1.net, a2.net);
        if a2.Ok? && a2.value.None? {
          RediscoverUnused(c, w.(net := a2.net), w.net, id, cache - {Rel(id)}, v);
        }
      }
    }
  }

  // ---- What is saved --------------------------------------------------------------------

  /** The cache names the pair that was found, without a hash unless it was there before. */
  ghost predicate NamesPair(cache: Cache, id: nat, before: Entry, found: Found) {
    Rel(id) in cache &&
    var e := cache[Rel(id)];
    && e.slug == found.slug && e.pk == Some(found.pk)
    && (!Trusted(before) ==> e.hash == None && e.version == 2)
  }

  lemma DiscoverSaves(c: Context, w: World, id: nat, cache: Cache, v: Provider)
    requires w.peer && Discover(c, w, id, cache, v).Done?
    ensures var r := Discover(c, w, id, cache, v); NamesPair(r.world.work.cache, id, NO_ENTRY, r.value)
  {}

  lemma RecallSaves(c: Context, w: World, id: nat, v: Provider)
    requires w.peer && Recall(c, w, id, w.work.cache, v).Done?
    ensures var r := Recall(c, w, id, w.work.cache, v);
      NamesPair(r.world.work.cache, id, EntryOf(w.work.cache, id), r.value)
  {
    var e := EntryOf(w.work.cache, id);
    if !Trusted(e) {
      DiscoverSaves(c, w, id, w.work.cache, v);
    } else {
      var a1 := ReadApplication(c.faults, w.net, e.slug);
      var a2 := ReadProvider(c.faults, a1.net, e.pk.value);
      if a2.value.None? {
        var cache1 := w.work.cache - {Rel(id)};
        DiscoverSaves(c, SaveCache(w.(net := a2.net), cache1), id, cache1, v);
      } else {
        assert Rel(id) in w.work.cache;
      }
    }
  }

  /** The cache names a bearer of the relation. */
  ghost predicate Saved(c: Context, w: World, id: nat) {
    Rel(id) in w.work.cache &&
    var e := w.work.cache[Rel(id)]; Trusted(e) && Bears(c.ids(id), w.net.server, e.pk.value)
  }

  /**
   Whatever becomes of a synchronization of the objects, once it has sent a write that uses a pair, the
   cache names that pair, and if it was found just now, without a hash.
   */
  lemma SyncObjectsSaves(c: Context, w: World, id: nat, v: Provider)
    requires Inv(c.ids, w) && w.peer && id !in w.retired && v.name == c.ids(id).provider
    requires BagOf(w.work, id).credentials.Some? ==> BagOf(w.work, id).credentials == Some(v.credentials)
    ensures var r := SyncObjects(c, w, id, w.work.cache, v);
      && w.net.sent <= r.world.net.sent
      && (Used(w.net, r.world.net) ==>
        && Saved(c, r.world, id)
        && (!Trusted(EntryOf(w.work.cache, id)) ==> r.world.work.cache[Rel(id)].hash == None))
  {
    SyncObjectsInv(c, w, id, v);
    RecallUnused(c, w, id, w.work.cache, v);
    var found := Recall(c, w, id, w.work.cache, v);
    if found.Done? {
      RecallSaves(c, w, id, v);
      SyncObjectsCache(c, w, id, v);
      var u := SyncObjects(c, w, id, w.work.cache, v).world;
      assert EntryOk(c.ids(id), u.net, u.work, id, false);
    }
  }

  lemma SyncObjectsCache(c: Context, w: World, id: nat, v: Provider)
    requires Recall(c, w, id, w.work.cache, v).Done?
    ensures SyncObjects(c, w, id, w.work.cache, v).world.work == Recall(c, w, id, w.work.cache, v).world.work
  {}

  lemma ConvergeWithSaves(c: Context, w: World, rel: Relation, credentials: Credentials, isNew: bool, want: Want,
      served: seq<string>)
    requires Inv(c.ids, w) && w.peer && rel.id !in w.retired && ServedAs(w.net.server.mappings, want.scopes, served)
    requires isNew <==> BagOf(w.work, rel.id).credentials.None?
    requires !isNew ==> BagOf(w.work, rel.id).credentials == Some(credentials)
    ensures var found := Resolution(MappingsOf(w.net.server.mappings, served), served);
      var r := ConvergeWith(c, w, rel, w.work.cache, credentials, isNew, found, want);
      && w.net.sent <= r.world.net.sent
      && (Used(w.net, r.world.net) ==>
        && Saved(c, r.world, rel.id)
        && (r.Raised? && !Trusted(EntryOf(w.work.cache, rel.id)) ==> r.world.work.cache[Rel(rel.id)].hash == None))
  {
    ConvergeWithInv(c, w, rel, credentials, isNew, want, served);
    SyncObjectsSaves(c, w, rel.id, PayloadFor(c, w, rel.id, credentials, want, served));
    var found := Resolution(MappingsOf(w.net.server.mappings, served), served);
    var u := ConvergeWith(c, w, rel, w.work.cache, credentials, isNew, found, want).world;
    assert Rel(rel.id) in u.work.cache ==> EntryOk(c.ids(rel.id), u.net, u.work, rel.id, false);
  }

  lemma MappingsUnused(c: Context, w: World, scopes: seq<string>)
    ensures Unused(w.net, ResolveMappings(c, w, scopes).world.net)
  {
    ReadsUnused(c.faults, w.net, "", 0, "");
  }

  lemma ConvergeSaves(c: Context, w: World, rel: Relation, want: Want)
    requires Inv(c.ids, w) && w.peer && rel.id !in w.retired && SecretKept(w.work, rel) && "" !in want.scopes
    ensures var r := Converge(c, w, rel, w.work.cache, want);
      && w.net.sent <= r.world.net.sent
      && (Used(w.net, r.world.net) ==>
        && Saved(c, r.world, rel.id)
        && (r.Raised? && !Trusted(EntryOf(w.work.cache, rel.id)) ==> r.world.work.cache[Rel(rel.id)].hash == None))
  {
    var held := ObtainCredentials(c, w, rel);
    if held.Done? {
      MappingsUnused(c, w, want.scopes);
      ResolveMappingsOutcome(c, w, want.scopes);
      var m := ResolveMappings(c, w, want.scopes);
      if m.Done? {
        ConvergeWithSaves(c, m.world, rel, held.value.0, held.value.1, want, Served(w, want.scopes));
        UsedLater(w.net, m.world.net, Converge(c, w, rel, w.work.cache, want).world.net);
      }
    }
  }

  lemma UsedLater(n: Net, n1: Net, n2: Net)
    requires Unused(n, n1) && n1.sent <= n2.sent && n.sent <= n2.sent
    ensures Used(n, n2) ==> Used(n1, n2)
  {
    forall i | |n.sent| <= i < |n1.sent| ensures !Uses(n2.sent[i]) {
      assert n2.sent[i] == n1.sent[i];
    }
  }

  /**
   Partial state. If a synchronization, whatever became of it and whatever faults struck, has written
   to a provider or an application other than by creating the provider, then the cache has an entry
   for the relation that names its provider. If it raised and there was no trusted entry before, that
   entry has no hash, so that the next synchronization will not take it for complete.
   */
  lemma PartialStateSaved(c: Context, w: World, rel: Relation, authorization: string, invalidation: string)
    requires Inv(c.ids, w) && w.peer && rel.id !in w.retired && SecretKept(w.work, rel)
    ensures var r := SyncRelation(c, w, rel, authorization, invalidation);
      && w.net.sent <= r.world.net.sent
      && (Used(w.net, r.world.net) ==>
        && Saved(c, r.world, rel.id)
        && (r.Raised? && !Trusted(EntryOf(w.work.cache, rel.id)) ==> r.world.work.cache[Rel(rel.id)].hash == None))
  {
    if rel.ready && NeedsWrite(w, rel, authorization, invalidation) {
      var slug := SlugOf(c.ids(rel.id), EntryOf(w.work.cache, rel.id));
      PublishInv(c.ids, w, c.host, rel.id, slug, Scopes(rel.scope));
      ScopesCanonical(rel.scope);
      ConvergeSaves(c, Publish(w, c.host, rel.id, slug, Scopes(rel.scope)), rel,
          WantOf(rel, authorization, invalidation));
    }
  }

  /**
   So nothing is lost to garbage collection: when the relation goes after such a synchronization, a
   collection without faults removes its provider.
   */
  lemma PartialStateCollected(c: Context, d: Context, w: World, rel: Relation, authorization: string,
      invalidation: string, active: seq<nat>)
    requires Inv(c.ids, w) && w.peer && rel.id !in w.retired && SecretKept(w.work, rel)
    requires d.ids == c.ids && Lists(d.order) && rel.id !in active
    requires var u := SyncRelation(c, w, rel, authorization, invalidation).world;
      && Calm(d.faults, |u.net.sent|) && w.net.sent <= u.net.sent && Used(w.net, u.net)
    ensures var u := SyncRelation(c, w, rel, authorization, invalidation).world;
      && Rel(rel.id) in u.work.cache && u.work.cache[Rel(rel.id)].pk.Some?
      && u.work.cache[Rel(rel.id)].pk.value in u.net.server.providers
      && u.work.cache[Rel(rel.id)].pk.value !in
          GarbageCollect(d, Begin(u, active), ToSet(active)).world.net.server.providers
  {
    PartialStateSaved(c, w, rel, authorization, invalidation);
    SyncRelationInv(c, w, rel, authorization, invalidation);
    var u := SyncRelation(c, w, rel, authorization, invalidation).world;
    OrphanRemovedIffCached(d, u, active, rel.id, u.work.cache[Rel(rel.id)].pk.value);
  }

  // ---- What is not sent -----------------------------------------------------------------

  /** A provider that was just created is not written again: the application is all that is sent. */
  lemma CreatedIsNotPut(c: Context, w: World, n: Names, found: Found, v: Provider)
    requires found.created
    ensures var n' := Apply(c, w, n, found, v).world.net;
      w.net.sent <= n'.sent && forall i :: |w.net.sent| <= i < |n'.sent| ==> !n'.sent[i].PutProvider?
  {
    if found.present {
      UpdateApplicationOutcome(c.faults, w.net, found.slug, n.provider, found.pk);
    } else {
      CreateApplicationOutcome(c.faults, w.net, found.slug, n.provider, found.pk);
    }
  }

  /** Garbage collection sends deletions only, and a reconciliation of no relation sends nothing else. */
  ghost predicate OnlyDeletes(n: Net, n': Net) {
    n.sent <= n'.sent
    && forall i :: |n.sent| <= i < |n'.sent| ==> n'.sent[i].DeleteApplication? || n'.sent[i].DeleteProvider?
  }

  lemma OnlyDeletesTransitive(n: Net, n1: Net, n2: Net)
    requires OnlyDeletes(n, n1) && OnlyDeletes(n1, n2)
    ensures OnlyDeletes(n, n2)
  {
    forall i | |n.sent| <= i < |n2.sent| ensures n2.sent[i].DeleteApplication? || n2.sent[i].DeleteProvider? {
      assert i < |n1.sent| ==> n2.sent[i] == n1.sent[i];
    }
  }

  lemma CollectApplicationDeletes(c: Context, w: World, cache: Cache, key: Key)
    requires key in cache
    ensures OnlyDeletes(w.net, CollectApplication(c, w, cache, key).world.net)
  {
    SendOutcome(c.faults, w.net, DeleteApplication(cache[key].slug), MAX_ATTEMPTS);
  }

  lemma CollectProviderDeletes(c: Context, w: World, cache: Cache, key: Key)
    requires key in cache
    ensures OnlyDeletes(w.net, CollectProvider(c, w, cache, key).world.net)
  {
    if cache[key].pk.Some? {
      SendOutcome(c.faults, w.net, DeleteProvider(cache[key].pk.value), MAX_ATTEMPTS);
    }
  }

  lemma CollectEntryDeletes(c: Context, w: World, cache: Cache, key: Key)
    requires key in cache
    ensures OnlyDeletes(w.net, CollectEntry(c, w, cache, key).world.net)
  {
    var a1 := CollectApplication(c, w, cache, key);
    CollectApplicationDeletes(c, w, cache, key);
    if a1.Done? {
      CollectProviderDeletes(c, a1.world, cache[key := a1.value], key);
      OnlyDeletesTransitive(w.net, a1.world.net, CollectProvider(c, a1.world, cache[key := a1.value], key).world.net);
    }
  }

  lemma {:induction false} CollectAllDeletes(c: Context, w: World, active: set<nat>, cache: Cache, keys: seq<Key>)
    requires Distinct(keys) && forall i :: 0 <= i < |keys| ==> keys[i] in cache
    ensures OnlyDeletes(w.net, CollectAll(c, w, active, cache, keys).world.net)
    decreases |keys|
  {
    if keys != [] {
      if !Collectable(keys[0], active) {
        CollectAllDeletes(c, w, active, cache, keys[1..]);
      } else {
        CollectEntryDeletes(c, w, cache, keys[0]);
        var a := CollectEntry(c, w, cache, keys[0]);
        if a.Done? {
          CollectAllDeletes(c, a.world, active, a.value, keys[1..]);
          OnlyDeletesTransitive(w.net, a.world.net, CollectAll(c, a.world, active, a.value, keys[1..]).world.net);
        }
      }
    }
  }

  lemma NoRelationOnlyDeletes(c: Context, w: World, model: map<nat, Relation>)
    requires Lists(c.order)
    ensures OnlyDeletes(w.net, Reconcile(c, w, model, []).world.net)
    ensures Reconcile(c, w, model, []).world.work.authorization == w.work.authorization
    ensures Reconcile(c, w, model, []).world.work.invalidation == w.work.invalidation
  {
    var cache := ReadCache(w);
    var keys := c.order(cache.Keys);
    assert forall i :: 0 <= i < |keys| ==> keys[i] in keys;
    CollectAllDeletes(c, w, {}, cache, keys);
    CollectAllWrites(c, w, {}, cache, keys);
  }

  /**
   Each step of a collection is saved on its own: one that is cut at the provider has saved that the
   application is gone, with the hash; one that is cut at the application has saved nothing.
   */
  lemma CutEntrySaved(c: Context, w: World, key: Key)
    requires w.peer && key in w.work.cache && CollectEntry(c, w, w.work.cache, key).Raised?
    ensures var e := w.work.cache[key]; var u := CollectEntry(c, w, w.work.cache, key).world;
      && |w.net.sent| < |u.net.sent|
      && match u.net.sent[|u.net.sent| - 1]
         case DeleteApplication(slug) => slug == e.slug && u.work.cache == w.work.cache
         case DeleteProvider(pk) =>
           && e.pk == Some(pk)
           && (e.slug != "" ==> u.work.cache == w.work.cache[key := Entry(e.version, None, e.pk, "")])
           && (e.slug == "" ==> u.work.cache == w.work.cache)
         case _ => false
  {
    var e := w.work.cache[key];
    var a1 := CollectApplication(c, w, w.work.cache, key);
    SendOutcome(c.faults, w.net, DeleteApplication(e.slug), MAX_ATTEMPTS);
    if a1.Done? {
      SendOutcome(c.faults, a1.world.net, DeleteProvider(if e.pk.Some? then e.pk.value else 0), MAX_ATTEMPTS);
    }
  }

  /** The listing of mappings is fetched at most once by a client: with it at hand nothing is sent. */
  lemma MappingsFetchedOnce(c: Context, w: World, scopes: seq<string>)
    ensures w.memo.Some? ==> ResolveMappings(c, w, scopes).world.net == w.net
    ensures ResolveMappings(c, w, scopes).Done? && Join(scopes) !in w.resolved ==>
        ResolveMappings(c, w, scopes).world.memo.Some?
    ensures Join(scopes) in w.resolved ==> ResolveMappings(c, w, scopes).world == w
  {}

  /** The flows are forgotten after a validation error and after a missing object, and after nothing else. */
  lemma FlowsForgottenIff(c: Context, w: World, model: map<nat, Relation>, ids: seq<nat>, authorization: string,
      invalidation: string)
    ensures var r, r' := SyncAll(c, w, model, ids, authorization, invalidation),
                         SyncActive(c, w, model, ids, authorization, invalidation);
      && (r.Raised? <==> r'.Raised?) && (r.Raised? ==> r'.error == r.error)
      && (r.Raised? && (r.error == Validation || r.error == NotFound) && r.world.peer ==>
        r'.world.work.authorization == "" && r'.world.work.invalidation == "")
      && (!(r.Raised? && (r.error == Validation || r.error == NotFound)) || !r.world.peer ==> r'.world == r.world)
  {}
}
