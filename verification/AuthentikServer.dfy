/**
 The remote Authentik server as the charm sees it: providers keyed by primary key,
 applications keyed by slug, and what each HTTP request does to them. A fault may
 strike every single attempt, before or after the request takes effect.
 */
module AuthentikServer {
  import opened Options

  type Pk = nat

  datatype Credentials = Credentials(id: string, secret: string)

  datatype Settings = Settings(
    uris: seq<string>,
    authorization: string,
    invalidation: string,
    mappings: seq<string>,
    grants: seq<string>)

  datatype Provider = Provider(name: string, credentials: Credentials, settings: Settings)

  /** An application whose provider was deleted stays behind with no provider. */
  datatype Application = Application(name: string, provider: Option<Pk>)

  datatype Flow = AuthorizationFlow | InvalidationFlow

  /**
   `next` is the primary key the database hands out next; it only grows. `current` is the
   UUID each default flow has now, and `accepted` the flow UUIDs a provider may refer to.
   */
  datatype Server = Server(
    providers: map<Pk, Provider>,
    apps: map<string, Application>,
    next: Pk,
    current: map<Flow, string>,
    accepted: set<string>,
    mappings: map<string, string>)

  datatype ApiError =
    | NotFound
    | Authentication
    | Authorization
    | Conflict
    | Transient
    | Validation
    | TooManyPages   // the plain API error of a pagination that does not end
    | Unexpected     // a Python exception that is not an API error

  datatype Request =
    | GetApplication(slug: string)
    | GetProvider(pk: Pk)
    | ListProviders(name: string)
    | ListMappings
    | ListFlow(flow: Flow)
    | PostProvider(payload: Provider)
    | PutProvider(pk: Pk, payload: Provider)
    | PostApplication(slug: string, name: string, pk: Pk)
    | PatchApplication(slug: string, name: string, pk: Pk)
    | DeleteApplication(slug: string)
    | DeleteProvider(pk: Pk)

  datatype Reply =
    | ApplicationBody(application: Application)
    | ProviderBody(provider: Provider)
    | ProviderRows(rows: seq<(Pk, string)>)
    | MappingTable(table: map<string, string>)
    | FlowRows(flows: seq<string>)
    | Created(created: Pk)
    | Accepted
    | Failed(error: ApiError)

  predicate AcceptsFlows(s: Server, v: Settings) {
    v.authorization in s.accepted && v.invalidation in s.accepted
  }

  /** Deleting a provider leaves the applications that used it without one. */
  function Unlink(apps: map<string, Application>, pk: Pk): map<string, Application> {
    map t | t in apps :: if apps[t].provider == Some(pk) then apps[t].(provider := None) else apps[t]
  }

  /** The providers with a primary key below `bound`, in the order the database lists them. */
  function Rows(providers: map<Pk, Provider>, bound: Pk): seq<(Pk, string)> {
    if bound == 0 then []
    else if bound - 1 in providers then Rows(providers, bound - 1) + [(bound - 1, providers[bound - 1].name)]
    else Rows(providers, bound - 1)
  }

  /** One request, delivered once. */
  function Serve(s: Server, q: Request): (Server, Reply) {
    match q
    case GetApplication(slug) =>
      (s, if slug in s.apps then ApplicationBody(s.apps[slug]) else Failed(NotFound))
    case GetProvider(pk) =>
      (s, if pk in s.providers then ProviderBody(s.providers[pk]) else Failed(NotFound))
    case ListProviders(_) => (s, ProviderRows(Rows(s.providers, s.next)))
    case ListMappings => (s, MappingTable(s.mappings))
    case ListFlow(flow) => (s, FlowRows(if flow in s.current then [s.current[flow]] else []))
    case PostProvider(v) =>
      if AcceptsFlows(s, v.settings)
      then (s.(providers := s.providers[s.next := v], next := s.next + 1), Created(s.next))
      else (s, Failed(Validation))
    case PutProvider(pk, v) =>
      if pk !in s.providers then (s, Failed(NotFound))
      else if AcceptsFlows(s, v.settings) then (s.(providers := s.providers[pk := v]), Accepted)
      else (s, Failed(Validation))
    case PostApplication(slug, name, pk) =>
      if slug in s.apps then (s, Failed(Conflict))
      else if pk !in s.providers then (s, Failed(Validation))
      else (s.(apps := s.apps[slug := Application(name, Some(pk))]), Accepted)
    case PatchApplication(slug, name, pk) =>
      if slug !in s.apps then (s, Failed(NotFound))
      else if pk !in s.providers then (s, Failed(Validation))
      else (s.(apps := s.apps[slug := Application(name, Some(pk))]), Accepted)
    case DeleteApplication(slug) =>
      if slug in s.apps then (s.(apps := s.apps - {slug}), Accepted) else (s, Failed(NotFound))
    case DeleteProvider(pk) =>
      if pk in s.providers
      then (s.(providers := s.providers - {pk}, apps := Unlink(s.apps, pk)), Accepted)
      else (s, Failed(NotFound))
  }

  /** The server after one delivery of `q`. */
  function After(s: Server, q: Request): Server { Serve(s, q).0 }

  /** What can go wrong in transit. A 404 is never made up: it means the object is absent. */
  type Failure = e: ApiError | e != NotFound witness Transient

  datatype Fault = Clear | Fails(applied: bool, error: Failure)

  /** One fault per attempt, indexed by the number of attempts made before it. */
  type Oracle = nat -> Fault

  /** The server together with every request sent to it so far. */
  datatype Net = Net(server: Server, sent: seq<Request>)

  /** From here on, nothing goes wrong in transit. */
  ghost predicate Calm(o: Oracle, from: nat) { forall i: nat :: i >= from ==> o(i) == Clear }

  function Attempt(o: Oracle, n: Net, q: Request): (Net, Reply) {
    var (s, reply) := Serve(n.server, q);
    match o(|n.sent|)
    case Clear => (Net(s, n.sent + [q]), reply)
    case Fails(applied, error) =>
      (Net(if applied then s else n.server, n.sent + [q]), Failed(error))
  }

  /** `attempts` tries, repeated only after a transient failure. */
  function Send(o: Oracle, n: Net, q: Request, attempts: nat): (Net, Reply)
    requires attempts >= 1
    decreases attempts
  {
    var (n1, reply) := Attempt(o, n, q);
    if reply == Failed(Transient) && attempts > 1 then Send(o, n1, q, attempts - 1) else (n1, reply)
  }

  // ---- What a request does under faults -------------------------------------------------

  /** Requests with the same effect once or many times (section 9.2.2 of RFC 9110). */
  predicate Idempotent(q: Request) { !q.PostProvider? && !q.PostApplication? }

  lemma ServeTwice(s: Server, q: Request)
    requires Idempotent(q)
    ensures After(After(s, q), q) == After(s, q)
  {
    if q.DeleteProvider? && q.pk in s.providers {
      var u := Unlink(s.apps, q.pk);
      assert Unlink(u, q.pk) == u;
    }
  }

  /**
   Whatever is lost on the way, a request ends in one of two server states: untouched or served
   once. A reply that is not a fault is the honest one for the state it leaves.
   */
  lemma {:induction false} SendOutcome(o: Oracle, n: Net, q: Request, attempts: nat)
    requires attempts >= 1
    requires attempts == 1 || Idempotent(q)
    ensures var (n', reply) := Send(o, n, q, attempts);
      && n.sent < n'.sent
      && n'.sent[|n'.sent| - 1] == q
      && |n'.sent| <= |n.sent| + attempts
      && (n'.server == n.server || n'.server == After(n.server, q))
      && (forall i :: |n.sent| <= i < |n'.sent| ==> n'.sent[i] == q)
      && (!reply.Failed? || reply.error == NotFound ==>
        && n'.server == After(n.server, q)
        && (reply == Serve(n.server, q).1 || reply == Serve(After(n.server, q), q).1))
      && (Calm(o, |n.sent|) ==> n'.server == After(n.server, q) && reply == Serve(n.server, q).1)
    decreases attempts
  {
    var (n1, reply) := Attempt(o, n, q);
    if reply == Failed(Transient) && attempts > 1 {
      ServeTwice(n.server, q);
      if n1.server == After(n.server, q) {
        assert After(n1.server, q) == After(n.server, q);
      }
      SendOutcome(o, n1, q, attempts - 1);
      assert Serve(n.server, q).1 != Failed(Transient);
    }
  }
}
