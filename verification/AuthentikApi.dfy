/**
 The Authentik API client, as functions of the network state: each call sends requests under the
 fault oracle and either answers or raises. `AuthentikClient` is the imperative counterpart.
 */
module AuthentikApi {
  import opened Options
  import opened AuthentikServer

  const MAX_ATTEMPTS: nat := 3

  datatype Answer<+T> = Ok(net: Net, value: T) | Err(net: Net, error: ApiError) {
    predicate IsFailure() { Err? }

    function PropagateFailure<U>(): Answer<U>
      requires Err?
    {
      Err(net, error)
    }

    function Extract(): (Net, T)
      requires Ok?
    {
      (net, value)
    }
  }

  function ReadApplication(o: Oracle, n: Net, slug: string): Answer<Option<Application>> {
    match Send(o, n, GetApplication(slug), MAX_ATTEMPTS)
    case (n1, ApplicationBody(a)) => Ok(n1, Some(a))
    case (n1, Failed(NotFound)) => Ok(n1, None)
    case (n1, Failed(e)) => Err(n1, e)
    case (n1, _) => Err(n1, Unexpected)
  }

  function ReadProvider(o: Oracle, n: Net, pk: Pk): Answer<Option<Provider>> {
    match Send(o, n, GetProvider(pk), MAX_ATTEMPTS)
    case (n1, ProviderBody(p)) => Ok(n1, Some(p))
    case (n1, Failed(NotFound)) => Ok(n1, None)
    case (n1, Failed(e)) => Err(n1, e)
    case (n1, _) => Err(n1, Unexpected)
  }

  /** The primary keys of the rows with exactly this name, in the order of the listing. */
  function Matches(rows: seq<(Pk, string)>, name: string): seq<Pk> {
    if rows == [] then []
    else
      var last := rows[|rows| - 1];
      Matches(rows[..|rows| - 1], name) + if last.1 == name then [last.0] else []
  }

  function FindProvider(o: Oracle, n: Net, name: string): Answer<Option<Pk>> {
    match Send(o, n, ListProviders(name), MAX_ATTEMPTS)
    case (n1, ProviderRows(rows)) =>
      var found := Matches(rows, name);
      if |found| > 1 then Err(n1, Conflict)
      else Ok(n1, if found == [] then None else Some(found[0]))
    case (n1, Failed(e)) => Err(n1, e)
    case (n1, _) => Err(n1, Unexpected)
  }

  /** One POST; an ambiguous outcome is settled by looking the name up. */
  function CreateProvider(o: Oracle, n: Net, v: Provider): Answer<Pk> {
    match Send(o, n, PostProvider(v), 1)
    case (n1, Created(pk)) => Ok(n1, pk)
    case (n1, Failed(e)) =>
      if e == Transient || e == Conflict then
        var (n2, found) :- FindProvider(o, n1, v.name);
        if found.Some? then Ok(n2, found.value) else Err(n2, e)
      else Err(n1, e)
    case (n1, _) => Err(n1, Unexpected)
  }

  function UpdateProvider(o: Oracle, n: Net, pk: Pk, v: Provider): Answer<()> {
    match Send(o, n, PutProvider(pk, v), MAX_ATTEMPTS)
    case (n1, Failed(e)) => Err(n1, e)
    case (n1, _) => Ok(n1, ())
  }

  /** One POST; an ambiguous outcome is settled by looking the slug up. */
  function CreateApplication(o: Oracle, n: Net, slug: string, name: string, pk: Pk): Answer<()> {
    match Send(o, n, PostApplication(slug, name, pk), 1)
    case (n1, Failed(e)) =>
      if e == Transient || e == Conflict then
        var (n2, found) :- ReadApplication(o, n1, slug);
        if found.Some? && found.value.provider == Some(pk) then Ok(n2, ()) else Err(n2, e)
      else Err(n1, e)
    case (n1, _) => Ok(n1, ())
  }

  function UpdateApplication(o: Oracle, n: Net, slug: string, name: string, pk: Pk): Answer<()> {
    match Send(o, n, PatchApplication(slug, name, pk), MAX_ATTEMPTS)
    case (n1, Failed(e)) => Err(n1, e)
    case (n1, _) => Ok(n1, ())
  }

  function RemoveApplication(o: Oracle, n: Net, slug: string): Answer<()> {
    match Send(o, n, DeleteApplication(slug), MAX_ATTEMPTS)
    case (n1, Failed(NotFound)) => Ok(n1, ())
    case (n1, Failed(e)) => Err(n1, e)
    case (n1, _) => Ok(n1, ())
  }

  function RemoveProvider(o: Oracle, n: Net, pk: Pk): Answer<()> {
    match Send(o, n, DeleteProvider(pk), MAX_ATTEMPTS)
    case (n1, Failed(NotFound)) => Ok(n1, ())
    case (n1, Failed(e)) => Err(n1, e)
    case (n1, _) => Ok(n1, ())
  }

  function ReadMappings(o: Oracle, n: Net): Answer<map<string, string>> {
    match Send(o, n, ListMappings, MAX_ATTEMPTS)
    case (n1, MappingTable(t)) => Ok(n1, t)
    case (n1, Failed(e)) => Err(n1, e)
    case (n1, _) => Err(n1, Unexpected)
  }

  function ReadFlow(o: Oracle, n: Net, flow: Flow): Answer<string> {
    match Send(o, n, ListFlow(flow), MAX_ATTEMPTS)
    case (n1, FlowRows(flows)) => if flows == [] then Err(n1, NotFound) else Ok(n1, flows[0])
    case (n1, Failed(e)) => Err(n1, e)
    case (n1, _) => Err(n1, Unexpected)
  }

  // ---- Reads ----------------------------------------------------------------------------

  ghost predicate OnlyRead(n: Net, n': Net) {
    n'.server == n.server && n.sent < n'.sent
    && forall i :: |n.sent| <= i < |n'.sent| ==> !n'.sent[i].PutProvider? && !n'.sent[i].PostProvider?
  }

  /** A read that answers tells the truth about the server; absence is never an error. */
  lemma ReadApplicationOutcome(o: Oracle, n: Net, slug: string)
    ensures var r := ReadApplication(o, n, slug);
      && OnlyRead(n, r.net)
      && (r.Ok? ==> r.value == if slug in n.server.apps then Some(n.server.apps[slug]) else None)
      && (r.Err? ==> r.error != NotFound)
      && (Calm(o, |n.sent|) ==> r.Ok?)
  {
    SendOutcome(o, n, GetApplication(slug), MAX_ATTEMPTS);
  }

  lemma ReadProviderOutcome(o: Oracle, n: Net, pk: Pk)
    ensures var r := ReadProvider(o, n, pk);
      && OnlyRead(n, r.net)
      && (r.Ok? ==> r.value == if pk in n.server.providers then Some(n.server.providers[pk]) else None)
      && (r.Err? ==> r.error != NotFound)
      && (Calm(o, |n.sent|) ==> r.Ok?)
  {
    SendOutcome(o, n, GetProvider(pk), MAX_ATTEMPTS);
  }

  lemma ReadMappingsOutcome(o: Oracle, n: Net)
    ensures var r := ReadMappings(o, n);
      && OnlyRead(n, r.net)
      && (r.Ok? ==> r.value == n.server.mappings)
      && (r.Err? ==> r.error != NotFound)
      && (Calm(o, |n.sent|) ==> r.Ok?)
  {
    SendOutcome(o, n, ListMappings, MAX_ATTEMPTS);
  }

  lemma ReadFlowOutcome(o: Oracle, n: Net, flow: Flow)
    ensures var r := ReadFlow(o, n, flow);
      && OnlyRead(n, r.net)
      && (r.Ok? ==> flow in n.server.current && r.value == n.server.current[flow])
      && (Calm(o, |n.sent|) ==> if flow in n.server.current then r.Ok? else r.Err? && r.error == NotFound)
  {
    SendOutcome(o, n, ListFlow(flow), MAX_ATTEMPTS);
  }

  /** The listing holds each provider with the name once, in primary key order. */
  lemma {:induction false} MatchesOfRows(providers: map<Pk, Provider>, bound: Pk, name: string)
    ensures var found := Matches(Rows(providers, bound), name);
      && (forall p :: p in found <==> p < bound && p in providers && providers[p].name == name)
      && (forall i, j :: 0 <= i < j < |found| ==> found[i] < found[j])
  {
    if bound > 0 {
      MatchesOfRows(providers, bound - 1, name);
      var rows, before := Rows(providers, bound), Matches(Rows(providers, bound - 1), name);
      assert forall i :: 0 <= i < |before| ==> before[i] in before;
      if bound - 1 in providers {
        assert rows[..|rows| - 1] == Rows(providers, bound - 1);
      }
    }
  }

  lemma ListProvidersOutcome(o: Oracle, n: Net, name: string)
    ensures var (n1, reply) := Send(o, n, ListProviders(name), MAX_ATTEMPTS);
      && OnlyRead(n, n1)
      && (reply == ProviderRows(Rows(n.server.providers, n.server.next)) || (reply.Failed? && reply.error != NotFound))
      && (Calm(o, |n.sent|) ==> !reply.Failed?)
  {
    SendOutcome(o, n, ListProviders(name), MAX_ATTEMPTS);
  }

  ghost predicate Named(s: Server, p: Pk, name: string) {
    p in s.providers && s.providers[p].name == name
  }

  ghost predicate Numbered(s: Server) { forall p :: p in s.providers ==> p < s.next }

  /**
   The lookup answers "absent" exactly when no provider has the name, a primary key exactly when
   one provider has it, and raises a conflict when several do.
   */
  lemma FindProviderOutcome(o: Oracle, n: Net, name: string)
    requires Numbered(n.server)
    ensures var r := FindProvider(o, n, name);
      && OnlyRead(n, r.net)
      && (r.Ok? && r.value.None? ==> forall p :: !Named(n.server, p, name))
      && (r.Ok? && r.value.Some? ==> forall p :: Named(n.server, p, name) <==> p == r.value.value)
      && (r.Err? ==> r.error != NotFound)
      && (Calm(o, |n.sent|) ==>
        (r.Ok? <==> forall p, q :: Named(n.server, p, name) && Named(n.server, q, name) ==> p == q))
  {
    ListProvidersOutcome(o, n, name);
    MatchesOfRows(n.server.providers, n.server.next, name);
    var found := Matches(Rows(n.server.providers, n.server.next), name);
    forall p ensures Named(n.server, p, name) <==> p in found {}
    CountDecides(n.server, name, found);
  }

  /** None, one or several providers have the name if as many were found. */
  lemma CountDecides(s: Server, name: string, found: seq<Pk>)
    requires forall p :: Named(s, p, name) <==> p in found
    requires forall i, j :: 0 <= i < j < |found| ==> found[i] < found[j]
    ensures |found| == 0 ==> forall p :: !Named(s, p, name)
    ensures |found| == 1 ==> forall p :: Named(s, p, name) <==> p == found[0]
    ensures |found| <= 1 <==> forall p, q :: Named(s, p, name) && Named(s, q, name) ==> p == q
  {
    if |found| > 1 {
      assert found[0] in found && found[1] in found && found[0] != found[1];
    }
  }

  // ---- Writes ---------------------------------------------------------------------------

  /** How many of the requests sent since `from` are POSTs. */
  function Posts(sent: seq<Request>, from: nat): nat
    requires from <= |sent|
    decreases |sent| - from
  {
    if from == |sent| then 0
    else Posts(sent, from + 1) + if sent[from].PostProvider? || sent[from].PostApplication? then 1 else 0
  }

  lemma {:induction false} NoPosts(sent: seq<Request>, from: nat)
    requires from <= |sent|
    requires forall i :: from <= i < |sent| ==> !sent[i].PostProvider? && !sent[i].PostApplication?
    ensures Posts(sent, from) == 0
    decreases |sent| - from
  {
    if from < |sent| {
      NoPosts(sent, from + 1);
    }
  }

  /** A POST of a provider, before any lookup. */
  lemma PostProviderOutcome(o: Oracle, n: Net, v: Provider)
    ensures var (n1, reply) := Send(o, n, PostProvider(v), 1); var s, s' := n.server, n1.server;
      && n1.sent == n.sent + [PostProvider(v)]
      && (s' == s || (AcceptsFlows(s, v.settings) && s' == After(s, PostProvider(v))))
      && (reply.Created? ==> AcceptsFlows(s, v.settings) && s' == After(s, PostProvider(v)) && reply.created == s.next)
      && (reply.Created? || reply.Failed?) && reply != Failed(NotFound)
      && (Calm(o, |n.sent|) ==> reply == if AcceptsFlows(s, v.settings) then Created(s.next) else Failed(Validation))
  {
    SendOutcome(o, n, PostProvider(v), 1);
  }

  /** One POST is sent, whatever happens, and no failure reads as an absence. */
  lemma CreateProviderPosts(o: Oracle, n: Net, v: Provider)
    requires Numbered(n.server)
    ensures var r := CreateProvider(o, n, v);
      && n.sent < r.net.sent && r.net.sent[|n.sent|] == PostProvider(v)
      && Posts(r.net.sent, |n.sent|) == 1
      && (forall i :: |n.sent| <= i < |r.net.sent| ==> !r.net.sent[i].PutProvider?)
      && (r.Err? ==> r.error != NotFound)
      && (Calm(o, |n.sent|) && !AcceptsFlows(n.server, v.settings) ==> r.Err? && r.error == Validation)
  {
    var r := CreateProvider(o, n, v);
    PostProviderOutcome(o, n, v);
    var n1 := Send(o, n, PostProvider(v), 1).0;
    FindProviderOutcome(o, n1, v.name);
    assert r.net == n1 || OnlyRead(n1, r.net);
    NoMorePosts(n1, r.net, ListProviders(v.name), o);
  }

  lemma NoMorePosts(n1: Net, n2: Net, q: Request, o: Oracle)
    requires |n1.sent| >= 1 && (n1.sent[|n1.sent| - 1].PostProvider? || n1.sent[|n1.sent| - 1].PostApplication?)
    requires n2 == n1 || n2 == Send(o, n1, q, MAX_ATTEMPTS).0
    requires Idempotent(q)
    ensures Posts(n2.sent, |n1.sent| - 1) == 1
  {
    if n2 != n1 {
      SendOutcome(o, n1, q, MAX_ATTEMPTS);
    }
    NoPosts(n2.sent, |n1.sent|);
  }

  /**
   An ambiguous create. Either the server is unchanged or it holds one new provider, exactly as
   posted, under a fresh primary key. Success names that provider or, when the POST had no
   effect, one that already bore the name. After a failure that left the provider behind, a later
   lookup by the name finds it: nothing else changed.
   */
  lemma CreateProviderOutcome(o: Oracle, n: Net, v: Provider)
    requires Numbered(n.server)
    ensures var r := CreateProvider(o, n, v); var s, s' := n.server, r.net.server;
      && (s' == s || (AcceptsFlows(s, v.settings) && s' == After(s, PostProvider(v)) && s'.providers[s.next] == v))
      && (r.Ok? ==> Named(s', r.value, v.name))
      && (r.Ok? && (forall p :: !Named(s, p, v.name)) ==> s' != s && r.value == s.next)
      && (Calm(o, |n.sent|) && AcceptsFlows(s, v.settings) ==> r.Ok? && r.value == s.next)
  {
    var r := CreateProvider(o, n, v);
    PostProviderOutcome(o, n, v);
    var (n1, reply) := Send(o, n, PostProvider(v), 1);
    if reply.Failed? {
      FindProviderOutcome(o, n1, v.name);
      if r.Ok? && n1.server != n.server && (forall p :: !Named(n.server, p, v.name)) {
        assert Named(n1.server, n.server.next, v.name);
      }
    }
  }

  /**
   The raising create: the provider is absent, or there as posted, and a later lookup without
   faults says which.
   */
  lemma FailedCreateIsFound(o: Oracle, n: Net, v: Provider, later: Oracle, n2: Net)
    requires Numbered(n.server) && forall p :: !Named(n.server, p, v.name)
    requires CreateProvider(o, n, v).Err? && n2.server == CreateProvider(o, n, v).net.server
    requires Calm(later, |n2.sent|)
    ensures var found := FindProvider(later, n2, v.name);
      && found.Ok?
      && (n2.server == n.server ==> found.value == None)
      && (n2.server != n.server ==>
        && found.value == Some(n.server.next)
        && n.server.next in n2.server.providers && n2.server.providers[n.server.next] == v)
  {
    CreateProviderOutcome(o, n, v);
    FindProviderOutcome(later, n2, v.name);
    var found := FindProvider(later, n2, v.name);
    if n2.server != n.server {
      var s := n.server;
      assert n2.server == s.(providers := s.providers[s.next := v], next := s.next + 1);
      forall p ensures Named(n2.server, p, v.name) <==> p == s.next {
        assert !Named(s, p, v.name);
      }
    }
    if found.Ok? && found.value.Some? {
      assert Named(n2.server, found.value.value, v.name);
    }
  }

  lemma UpdateProviderOutcome(o: Oracle, n: Net, pk: Pk, v: Provider)
    ensures var r := UpdateProvider(o, n, pk, v); var s, s' := n.server, r.net.server;
      && n.sent < r.net.sent && PutProvider(pk, v) == r.net.sent[|r.net.sent| - 1]
      && (s' == s || (pk in s.providers && AcceptsFlows(s, v.settings) && s' == s.(providers := s.providers[pk := v])))
      && (r.Ok? ==> pk in s.providers && AcceptsFlows(s, v.settings) && s' == s.(providers := s.providers[pk := v]))
      && (Calm(o, |n.sent|) && pk in s.providers ==>
        if AcceptsFlows(s, v.settings) then r.Ok? else r.Err? && r.error == Validation)
  {
    SendOutcome(o, n, PutProvider(pk, v), MAX_ATTEMPTS);
  }

  ghost predicate NoProviderWrites(n: Net, n': Net) {
    n.sent < n'.sent
    && forall i :: |n.sent| <= i < |n'.sent| ==> !n'.sent[i].PutProvider? && !n'.sent[i].PostProvider?
  }

  /** The application's ambiguous create: one POST, and success means it refers to `pk`. */
  lemma CreateApplicationOutcome(o: Oracle, n: Net, slug: string, name: string, pk: Pk)
    ensures var r := CreateApplication(o, n, slug, name, pk); var s, s' := n.server, r.net.server;
      var post := PostApplication(slug, name, pk);
      && NoProviderWrites(n, r.net) && Posts(r.net.sent, |n.sent|) == 1
      && (s' == s || s' == After(s, post))
      && (r.Ok? ==> slug in s'.apps && s'.apps[slug].provider == Some(pk))
      && (r.Ok? && slug !in s.apps ==> s'.apps[slug] == Application(name, Some(pk)))
      && (Calm(o, |n.sent|) && slug !in s.apps && pk in s.providers ==> r.Ok?)
  {
    var r := CreateApplication(o, n, slug, name, pk);
    PostApplicationOutcome(o, n, slug, name, pk);
    var n1 := Send(o, n, PostApplication(slug, name, pk), 1).0;
    ReadApplicationOutcome(o, n1, slug);
    NoMorePosts(n1, r.net, GetApplication(slug), o);
    PostThenRead(n, n1, r.net, PostApplication(slug, name, pk));
  }

  /** A POST of an application, before any lookup. */
  lemma PostApplicationOutcome(o: Oracle, n: Net, slug: string, name: string, pk: Pk)
    ensures var post := PostApplication(slug, name, pk);
      var (n1, reply) := Send(o, n, post, 1); var s, s' := n.server, n1.server;
      && n1.sent == n.sent + [post]
      && (s' == s || s' == After(s, post))
      && (!reply.Failed? ==> slug in s'.apps && s'.apps[slug] == Application(name, Some(pk)))
      && (Calm(o, |n.sent|) && slug !in s.apps && pk in s.providers ==> !reply.Failed?)
  {
    SendOutcome(o, n, PostApplication(slug, name, pk), 1);
  }

  lemma PostThenRead(n: Net, n1: Net, n2: Net, post: Request)
    requires n1.sent == n.sent + [post] && post.PostApplication? && (n2 == n1 || OnlyRead(n1, n2))
    ensures NoProviderWrites(n, n2)
  {}

  /** The raising create of an application: it is absent, or there with its provider, and a later read says which. */
  lemma FailedCreateIsRead(o: Oracle, n: Net, slug: string, name: string, pk: Pk, later: Oracle, n2: Net)
    requires slug !in n.server.apps && CreateApplication(o, n, slug, name, pk).Err?
    requires n2.server == CreateApplication(o, n, slug, name, pk).net.server && Calm(later, |n2.sent|)
    ensures var read := ReadApplication(later, n2, slug);
      && read.Ok?
      && (n2.server == n.server ==> read.value == None)
      && (n2.server != n.server ==> read.value == Some(Application(name, Some(pk))))
  {
    CreateApplicationOutcome(o, n, slug, name, pk);
    ReadApplicationOutcome(later, n2, slug);
  }

  lemma UpdateApplicationOutcome(o: Oracle, n: Net, slug: string, name: string, pk: Pk)
    ensures var r := UpdateApplication(o, n, slug, name, pk); var s, s' := n.server, r.net.server;
      && NoProviderWrites(n, r.net)
      && (s' == s || s' == After(s, PatchApplication(slug, name, pk)))
      && (r.Ok? ==> slug in s'.apps && s'.apps[slug] == Application(name, Some(pk)))
      && (Calm(o, |n.sent|) && slug in s.apps && pk in s.providers ==> r.Ok?)
  {
    SendOutcome(o, n, PatchApplication(slug, name, pk), MAX_ATTEMPTS);
  }

  /** A delete that returns leaves the object absent, whichever attempt removed it. */
  lemma RemoveApplicationOutcome(o: Oracle, n: Net, slug: string)
    ensures var r := RemoveApplication(o, n, slug); var s, s' := n.server, r.net.server;
      && NoProviderWrites(n, r.net) && |r.net.sent| <= |n.sent| + 3
      && (s' == s || s' == After(s, DeleteApplication(slug)))
      && (r.Ok? ==> slug !in s'.apps)
      && (Calm(o, |n.sent|) ==> r.Ok? && |r.net.sent| == |n.sent| + 1)
  {
    SendOutcome(o, n, DeleteApplication(slug), MAX_ATTEMPTS);
  }

  lemma RemoveProviderOutcome(o: Oracle, n: Net, pk: Pk)
    ensures var r := RemoveProvider(o, n, pk); var s, s' := n.server, r.net.server;
      && NoProviderWrites(n, r.net) && |r.net.sent| <= |n.sent| + 3
      && (s' == s || s' == After(s, DeleteProvider(pk)))
      && (r.Ok? ==> pk !in s'.providers)
      && (Calm(o, |n.sent|) ==> r.Ok? && |r.net.sent| == |n.sent| + 1)
  {
    SendOutcome(o, n, DeleteProvider(pk), MAX_ATTEMPTS);
  }
}
