/**
 The OAuth reconciler as a function of the whole state: the remote server, the peer databag and
 our side of the relation databags, each with the copy the running hook works on and the copy
 last committed. `OauthReconciler` is the imperative counterpart, proved equal to this.
 */
module Reconciler {
  import opened Options
  import opened AuthentikServer
  import opened AuthentikApi
  import opened ConfigKey

  // ---- State ----------------------------------------------------------------------------

  /** The deterministic identities of one relation's objects. */
  datatype Names = Names(managed: string, legacy: string, provider: string, legacyProvider: string)

  /** A key of the cache: a relation id in decimal, or text that is not a number. */
  datatype Key = Rel(id: nat) | Malformed(text: string)

  /** A cache entry; an absent slug and an empty one are the same to the code. */
  datatype Entry = Entry(version: int, hash: Option<Digest>, pk: Option<Pk>, slug: string)

  type Cache = map<Key, Entry>

  const SCHEMA_VERSION := 2

  /** The endpoints published to the requirer, determined by host, slug and scopes. */
  datatype Published = Published(host: string, slug: string, scopes: seq<string>)

  datatype Bag = Bag(info: Option<Published>, credentials: Option<Credentials>)

  /** History only: when the hash of a relation was saved, for which configuration, with which scopes served. */
  datatype Mark = Mark(at: nat, want: Want, served: seq<string>)

  /** The mappings remembered for a scope key; the scopes they were looked up for are history only. */
  datatype Resolution = Resolution(mappings: seq<string>, scopes: seq<string>)

  /** Everything a hook may write and Juju may discard. */
  datatype Local = Local(
    cache: Cache,
    authorization: string,
    invalidation: string,
    bags: map<nat, Bag>,
    marks: map<nat, Mark>)

  /**
   `memo` is the client's memo of scope mappings, `resolved` the reconciler's memo of mappings per
   scope key, `peer` whether the peer relation exists.
   `retired` is history only: relations that had a cache entry and were seen inactive.
   */
  datatype World = World(
    net: Net,
    memo: Option<map<string, string>>,
    resolved: map<string, Resolution>,
    peer: bool,
    work: Local,
    saved: Local,
    retired: set<nat>)

  /** What is fixed during a run: faults, fresh tokens, identities, our host, listing orders. */
  datatype Context = Context(
    faults: Oracle,
    tokens: nat -> Credentials,
    ids: nat -> Names,
    host: string,
    order: set<Key> -> seq<Key>)

  /** The requirer's side: not valid, not there yet, or a configuration that validates. */
  datatype Client = Invalid | Missing | Valid(uris: seq<string>, grants: seq<string>)

  /** The Juju secret that holds the published client secret; one never recorded counts as deleted. */
  datatype Secret = Readable | Unreadable | Deleted

  datatype Relation = Relation(id: nat, ready: bool, scope: string, client: Client, secret: Secret)

  datatype Step<+T> = Done(world: World, value: T) | Raised(world: World, error: ApiError) {
    predicate IsFailure() { Raised? }

    function PropagateFailure<U>(): Step<U>
      requires Raised?
    {
      Raised(world, error)
    }

    function Extract(): (World, T)
      requires Done?
    {
      (world, value)
    }
  }

  function Lift<T>(w: World, a: Answer<T>): Step<T> {
    match a
    case Ok(n, v) => Done(w.(net := n), v)
    case Err(n, e) => Raised(w.(net := n), e)
  }

  // ---- Peer data ------------------------------------------------------------------------

  /** Without a peer relation there is nothing to read, and writes are dropped. */
  function ReadCache(w: World): Cache { if w.peer then w.work.cache else map[] }

  function SaveCache(w: World, cache: Cache): World {
    if w.peer then w.(work := w.work.(cache := cache)) else w
  }

  function ReadFlowCache(w: World, flow: Flow): string {
    if !w.peer then "" else if flow == AuthorizationFlow then w.work.authorization else w.work.invalidation
  }

  function SaveFlow(w: World, flow: Flow, uuid: string): World {
    if !w.peer then w
    else if flow == AuthorizationFlow then w.(work := w.work.(authorization := uuid))
    else w.(work := w.work.(invalidation := uuid))
  }

  function ForgetFlows(w: World): World {
    SaveFlow(SaveFlow(w, AuthorizationFlow, ""), InvalidationFlow, "")
  }

  // ---- Relation data --------------------------------------------------------------------

  function BagOf(l: Local, id: nat): Bag { if id in l.bags then l.bags[id] else Bag(None, None) }

  function Publish(w: World, host: string, id: nat, slug: string, scopes: seq<string>): World {
    var bag := BagOf(w.work, id).(info := Some(Published(host, slug, scopes)));
    w.(work := w.work.(bags := w.work.bags[id := bag]))
  }

  function PublishCredentials(w: World, id: nat, c: Credentials): World {
    w.(work := w.work.(bags := w.work.bags[id := BagOf(w.work, id).(credentials := Some(c))]))
  }

  /** The published credentials, or fresh ones kept in memory only, also when the secret is gone. */
  function ObtainCredentials(c: Context, w: World, rel: Relation): Step<(Credentials, bool)> {
    match BagOf(w.work, rel.id).credentials
    case Some(known) => (
      match rel.secret
      case Readable => Done(w, (known, false))
      case Unreadable => Raised(w, Transient)
      case Deleted => Done(w, (c.tokens(|w.net.sent|), true)))
    case None => Done(w, (c.tokens(|w.net.sent|), true))
  }

  // ---- Desired state --------------------------------------------------------------------

  function WantOf(rel: Relation, authorization: string, invalidation: string): Want
    requires rel.client.Valid?
  {
    Want(Stripped(rel.client.uris), authorization, invalidation, Scopes(rel.scope), Stripped(rel.client.grants))
  }

  predicate Supported(table: map<string, string>, scopes: seq<string>) {
    forall i :: 0 <= i < |scopes| ==> scopes[i] in table
  }

  function MappingsOf(table: map<string, string>, scopes: seq<string>): seq<string> {
    seq(|scopes|, i requires 0 <= i < |scopes| => if scopes[i] in table then table[scopes[i]] else "")
  }

  function SettingsWith(v: Want, mappings: seq<string>): Settings {
    Settings(v.uris, v.authorization, v.invalidation, mappings, v.grants)
  }

  function SettingsOf(table: map<string, string>, v: Want): Settings { SettingsWith(v, MappingsOf(table, v.scopes)) }

  /**
   The mappings of the scopes. They are remembered by the joined text of the scopes; only what is
   not remembered is looked up, and can be refused.
   */
  function ResolveMappings(c: Context, w: World, scopes: seq<string>): Step<Resolution> {
    if Join(scopes) in w.resolved then Done(w, w.resolved[Join(scopes)])
    else
      var (w1, table) :-
        if w.memo.Some? then Done(w, w.memo.value) else Lift(w, ReadMappings(c.faults, w.net));
      var w2 := w1.(memo := Some(table));
      if !Supported(table, scopes) then Raised(w2, Validation)
      else
        var found := Resolution(MappingsOf(table, scopes), scopes);
        Done(w2.(resolved := w2.resolved[Join(scopes) := found]), found)
  }

  // ---- One relation ---------------------------------------------------------------------

  const NO_ENTRY := Entry(0, None, None, "")

  function EntryOf(cache: Cache, id: nat): Entry { if Rel(id) in cache then cache[Rel(id)] else NO_ENTRY }

  function SlugOf(n: Names, e: Entry): string { if e.slug != "" then e.slug else n.managed }

  /** A pair of slug and primary key the cache vouches for. */
  predicate Trusted(e: Entry) { e.pk.Some? && e.slug != "" }

  /** The fast path: this very configuration was completely synchronized before. */
  predicate Hit(e: Entry, v: Want) {
    e.version == SCHEMA_VERSION && e.hash == Some(DigestOf(v)) && Trusted(e)
  }

  /** Where the objects of a relation are, and whether this hook has just created the provider. */
  datatype Found = Found(cache: Cache, slug: string, pk: Pk, present: bool, created: bool)

  /** The primary key an application refers to, provided that provider has an expected name. */
  function ValidateApplication(c: Context, w: World, app: Application, first: string, second: string): Step<Pk> {
    if app.provider.None? then Raised(w, Conflict)
    else
      var (w1, provider) :- Lift(w, ReadProvider(c.faults, w.net, app.provider.value));
      if provider.Some? && (provider.value.name == first || provider.value.name == second)
      then Done(w1, app.provider.value)
      else Raised(w1, Conflict)
  }

  /** With no application at either slug, the provider is looked up by name, or else created. */
  function FindOrCreate(c: Context, w: World, n: Names, slug: string, cache: Cache, v: Provider): Step<Found> {
    var (w1, pk) :- Lift(w, FindProvider(c.faults, w.net, n.provider));
    if pk.Some? then Done(w1, Found(cache, slug, pk.value, false, false))
    else
      var (w2, created) :- Lift(w1, CreateProvider(c.faults, w1.net, v));
      Done(w2, Found(cache, slug, created, false, true))
  }

  /**
   Discovery by deterministic identity: managed slug, legacy slug, provider name, else create.
   `slug` is where the application goes if there is none.
   */
  function Locate(c: Context, w: World, n: Names, slug: string, cache: Cache, v: Provider): Step<Found> {
    var (w1, managed) :- Lift(w, ReadApplication(c.faults, w.net, n.managed));
    if managed.Some? then
      var (w2, pk) :- ValidateApplication(c, w1, managed.value, n.provider, n.provider);
      Done(w2, Found(cache, n.managed, pk, true, false))
    else
      var (w2, legacy) :- Lift(w1, ReadApplication(c.faults, w1.net, n.legacy));
      if legacy.Some? then
        var (w3, pk) :- ValidateApplication(c, w2, legacy.value, n.provider, n.legacyProvider);
        Done(w3, Found(cache, n.legacy, pk, true, false))
      else FindOrCreate(c, w2, n, slug, cache, v)
  }

  /** Discovery, after which slug and primary key are saved without a hash. */
  function Discover(c: Context, w: World, id: nat, cache: Cache, v: Provider): Step<Found> {
    var n := c.ids(id);
    var (w1, found) :- Locate(c, w, n, SlugOf(n, EntryOf(cache, id)), cache, v);
    var cache1 := cache[Rel(id) := Entry(SCHEMA_VERSION, None, Some(found.pk), found.slug)];
    Done(SaveCache(w1, cache1), found.(cache := cache1))
  }

  /** The cached identity, checked against the server; a provider that is gone is rediscovered. */
  function Recall(c: Context, w: World, id: nat, cache: Cache, v: Provider): Step<Found> {
    var e := EntryOf(cache, id);
    if !Trusted(e) then Discover(c, w, id, cache, v)
    else
      var (w1, app) :- Lift(w, ReadApplication(c.faults, w.net, e.slug));
      if app.Some? && app.value.provider.None? then Raised(w1, Unexpected)
      else if app.Some? && app.value.provider != e.pk then Raised(w1, Conflict)
      else
        var (w2, provider) :- Lift(w1, ReadProvider(c.faults, w1.net, e.pk.value));
        if provider.Some? then Done(w2, Found(cache, e.slug, e.pk.value, app.Some?, false))
        else
          var cache1 := cache - {Rel(id)};
          Discover(c, SaveCache(w2, cache1), id, cache1, v)
  }

  /** Writing the provider, unless it was just created, and then the application. */
  function Apply(c: Context, w: World, n: Names, found: Found, v: Provider): Step<()> {
    var (w1, _) :-
      if found.created then Done(w, ()) else Lift(w, UpdateProvider(c.faults, w.net, found.pk, v));
    if found.present
    then Lift(w1, UpdateApplication(c.faults, w1.net, found.slug, n.provider, found.pk))
    else Lift(w1, CreateApplication(c.faults, w1.net, found.slug, n.provider, found.pk))
  }

  function SyncObjects(c: Context, w: World, id: nat, cache: Cache, v: Provider): Step<Found> {
    var (w1, found) :- Recall(c, w, id, cache, v);
    var (w2, _) :- Apply(c, w1, c.ids(id), found, v);
    Done(w2, found)
  }

  /** The last step of a synchronization: publish, then record the hash. */
  function Complete(c: Context, w: World, rel: Relation, found: Found, credentials: Credentials, isNew: bool,
      v: Want, served: seq<string>): World {
    var w1 := Publish(w, c.host, rel.id, found.slug, v.scopes);
    var w2 := if isNew then PublishCredentials(w1, rel.id, credentials) else w1;
    var entry := Entry(SCHEMA_VERSION, Some(DigestOf(v)), Some(found.pk), found.slug);
    var w3 := SaveCache(w2, found.cache[Rel(rel.id) := entry]);
    if w3.peer then w3.(work := w3.work.(marks := w3.work.marks[rel.id := Mark(|w3.net.sent|, v, served)])) else w3
  }

  /** The slow path: bring the server to the desired state. */
  function Converge(c: Context, w: World, rel: Relation, cache: Cache, v: Want): Step<()> {
    var (w1, held) :- ObtainCredentials(c, w, rel);
    var (w2, found) :- ResolveMappings(c, w1, v.scopes);
    ConvergeWith(c, w2, rel, cache, held.0, held.1, found, v)
  }

  function ConvergeWith(c: Context, w: World, rel: Relation, cache: Cache, credentials: Credentials, isNew: bool,
      resolution: Resolution, v: Want): Step<()> {
    var payload := Provider(c.ids(rel.id).provider, credentials, SettingsWith(v, resolution.mappings));
    var (w1, found) :- SyncObjects(c, w, rel.id, cache, payload);
    Done(Complete(c, w1, rel, found, credentials, isNew, v, resolution.scopes), ())
  }

  function SyncRelation(c: Context, w: World, rel: Relation, authorization: string, invalidation: string): Step<()> {
    if !rel.ready then Done(w, ())
    else
      var cache := ReadCache(w);
      var entry := EntryOf(cache, rel.id);
      var w1 := Publish(w, c.host, rel.id, SlugOf(c.ids(rel.id), entry), Scopes(rel.scope));
      if !rel.client.Valid? then Done(w1, ())
      else
        var v := WantOf(rel, authorization, invalidation);
        if Hit(entry, v) then Done(w1, ()) else Converge(c, w1, rel, cache, v)
  }

  // ---- Garbage collection ---------------------------------------------------------------

  /** Application, then provider, then the entry itself, each step saved on its own. */
  function CollectEntry(c: Context, w: World, cache: Cache, key: Key): (r: Step<Cache>)
    requires key in cache
    ensures r.Done? ==> r.value == cache - {key}
  {
    var e := cache[key];
    var (w1, e1) :- CollectApplication(c, w, cache, key);
    var (w2, e2) :- CollectProvider(c, w1, cache[key := e1], key);
    Done(SaveCache(w2, cache - {key}), cache - {key})
  }

  function CollectApplication(c: Context, w: World, cache: Cache, key: Key): (r: Step<Entry>)
    requires key in cache
  {
    var e := cache[key];
    if e.slug == "" then Done(w, e)
    else
      var (w1, _) :- Lift(w, RemoveApplication(c.faults, w.net, e.slug));
      var e1 := e.(slug := "", hash := None);
      Done(SaveCache(w1, cache[key := e1]), e1)
  }

  function CollectProvider(c: Context, w: World, cache: Cache, key: Key): (r: Step<Entry>)
    requires key in cache
  {
    var e := cache[key];
    if e.pk.None? then Done(w, e)
    else
      var (w1, _) :- Lift(w, RemoveProvider(c.faults, w.net, e.pk.value));
      var e1 := e.(pk := None);
      Done(SaveCache(w1, cache[key := e1]), e1)
  }

  /** The entries a pass removes: relation ids that are not active. */
  predicate Collectable(key: Key, active: set<nat>) { key.Rel? && key.id !in active }

  predicate Distinct<T(==)>(s: seq<T>) { forall i, j :: 0 <= i < j < |s| ==> s[i] != s[j] }

  function CollectAll(c: Context, w: World, active: set<nat>, cache: Cache, keys: seq<Key>): Step<()>
    requires Distinct(keys) && forall i :: 0 <= i < |keys| ==> keys[i] in cache
    decreases |keys|
  {
    if keys == [] then Done(w, ())
    else if !Collectable(keys[0], active) then CollectAll(c, w, active, cache, keys[1..])
    else
      var (w1, cache1) :- CollectEntry(c, w, cache, keys[0]);
      CollectAll(c, w1, active, cache1, keys[1..])
  }

  /** The order in which a listing returns the keys of a dictionary. */
  ghost predicate Lists(order: set<Key> -> seq<Key>) {
    forall keys: set<Key> :: Distinct(order(keys)) && (forall k :: k in order(keys) <==> k in keys)
  }

  function GarbageCollect(c: Context, w: World, active: set<nat>): Step<()>
    requires Lists(c.order)
  {
    var cache := ReadCache(w);
    CollectAll(c, w, active, cache, c.order(cache.Keys))
  }

  // ---- One reconciliation ---------------------------------------------------------------

  function ResolveFlow(c: Context, w: World, flow: Flow): Step<string> {
    var cached := ReadFlowCache(w, flow);
    if cached != "" then Done(w, cached)
    else
      var (w1, uuid) :- Lift(w, ReadFlow(c.faults, w.net, flow));
      Done(SaveFlow(w1, flow, uuid), uuid)
  }

  function SyncAll(c: Context, w: World, model: map<nat, Relation>, ids: seq<nat>, authorization: string,
      invalidation: string): Step<()>
    decreases |ids|
  {
    if ids == [] then Done(w, ())
    else
      var (w1, _) :-
        if ids[0] in model then SyncRelation(c, w, model[ids[0]], authorization, invalidation) else Done(w, ());
      SyncAll(c, w1, model, ids[1..], authorization, invalidation)
  }

  function ToSet(ids: seq<nat>): set<nat> { set i | i in ids }

  /** Flows that may be stale are forgotten, so that the next reconciliation looks them up. */
  predicate SuspectsFlows(e: ApiError) { e == Validation || e == NotFound }

  function SyncActive(c: Context, w: World, model: map<nat, Relation>, ids: seq<nat>, authorization: string,
      invalidation: string): Step<()> {
    match SyncAll(c, w, model, ids, authorization, invalidation)
    case Raised(w1, e) => Raised(if SuspectsFlows(e) then ForgetFlows(w1) else w1, e)
    case Done(w1, _) => Done(w1, ())
  }

  /** `ids` are the active relation ids in ascending order, `model` the relations Juju finds for them. */
  function Reconcile(c: Context, w: World, model: map<nat, Relation>, ids: seq<nat>): Step<()>
    requires Lists(c.order)
  {
    if ids == [] then GarbageCollect(c, w, {})
    else
      var (w1, authorization) :- ResolveFlow(c, w, AuthorizationFlow);
      var (w2, invalidation) :- ResolveFlow(c, w1, InvalidationFlow);
      var (w3, _) :- SyncActive(c, w2, model, ids, authorization, invalidation);
      GarbageCollect(c, w3, ToSet(ids))
  }
}
