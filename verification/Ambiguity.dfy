/** Lost requests: when a retried one takes effect or is answered, and what becomes of an ambiguous create. */
module Ambiguity {
  import opened Options
  import opened AuthentikServer
  import opened AuthentikApi

  // ---- Lost requests --------------------------------------------------------------------

  /** Some attempt of a request whose attempts start at index `at` reaches the server. */
  predicate Lands(o: Oracle, at: nat, attempts: nat)
    requires attempts >= 1
    decreases attempts
  {
    match o(at)
    case Clear => true
    case Fails(applied, e) => applied || (e == Transient && attempts > 1 && Lands(o, at + 1, attempts - 1))
  }

  /** A retried request takes effect exactly if one of its attempts lands. */
  lemma {:induction false} SendLands(o: Oracle, n: Net, q: Request, attempts: nat)
    requires attempts >= 1 && Idempotent(q)
    ensures Send(o, n, q, attempts).0.server ==
      if Lands(o, |n.sent|, attempts) then After(n.server, q) else n.server
    decreases attempts
  {
    var (n1, reply) := Attempt(o, n, q);
    ServeTwice(n.server, q);
    if reply == Failed(Transient) && attempts > 1 {
      SendLands(o, n1, q, attempts - 1);
      assert Serve(n.server, q).1 != Failed(Transient);
      if n1.server == After(n.server, q) {
        assert After(n1.server, q) == n1.server;
      }
    }
  }

  /** Some attempt is answered honestly before the attempts or the patience run out. */
  predicate Returns(o: Oracle, at: nat, attempts: nat)
    requires attempts >= 1
    decreases attempts
  {
    match o(at)
    case Clear => true
    case Fails(_, e) => e == Transient && attempts > 1 && Returns(o, at + 1, attempts - 1)
  }

  /** How many attempts are made. */
  function Tries(o: Oracle, at: nat, attempts: nat): nat
    requires attempts >= 1
    decreases attempts
  {
    match o(at)
    case Clear => 1
    case Fails(_, e) => if e == Transient && attempts > 1 then 1 + Tries(o, at + 1, attempts - 1) else 1
  }

  /** A request that the server would grant, before and after, is granted exactly if an answer returns. */
  lemma {:induction false} SendReturns(o: Oracle, n: Net, q: Request, attempts: nat)
    requires attempts >= 1 && Idempotent(q)
    requires !Serve(n.server, q).1.Failed? && !Serve(After(n.server, q), q).1.Failed?
    ensures var (n', reply) := Send(o, n, q, attempts);
      (reply.Failed? <==> !Returns(o, |n.sent|, attempts)) && |n'.sent| == |n.sent| + Tries(o, |n.sent|, attempts)
    decreases attempts
  {
    var (n1, reply) := Attempt(o, n, q);
    ServeTwice(n.server, q);
    if reply == Failed(Transient) && attempts > 1 {
      SendReturns(o, n1, q, attempts - 1);
    }
  }

  /** A read is answered honestly exactly if an answer returns; else its reply is the fault of an attempt. */
  lemma {:induction false} ReadReturns(o: Oracle, n: Net, q: Request, attempts: nat)
    requires attempts >= 1 && After(n.server, q) == n.server && Serve(n.server, q).1 != Failed(Transient)
    ensures var (n', reply) := Send(o, n, q, attempts);
      && n'.server == n.server
      && (Returns(o, |n.sent|, attempts) ==> reply == Serve(n.server, q).1)
      && (!Returns(o, |n.sent|, attempts) ==> reply.Failed? && reply.error != NotFound)
    decreases attempts
  {
    var (n1, reply) := Attempt(o, n, q);
    if reply == Failed(Transient) && attempts > 1 {
      ReadReturns(o, n1, q, attempts - 1);
    }
  }

  // ---- Ambiguous creates ----------------------------------------------------------------

  /** What an answer that leaves the outcome of a POST open looks like. */
  predicate LeavesOpen(e: ApiError) { e == Transient || e == Conflict }

  /**
   An ambiguous POST of a provider whose name nobody bears. If it took effect and the lookup after it
   is answered, the create returns the primary key of the new provider; if it did not, the create
   raises the error of the POST. Only if the lookup is not answered, the error is that of the lookup.
   Any other error is raised at once, without a lookup.
   */
  lemma AmbiguousProvider(o: Oracle, n: Net, v: Provider, applied: bool, e: Failure)
    requires Numbered(n.server) && (forall p :: !Named(n.server, p, v.name)) && AcceptsFlows(n.server, v.settings)
    requires o(|n.sent|) == Fails(applied, e)
    ensures var r := CreateProvider(o, n, v); var answered := Returns(o, |n.sent| + 1, 3);
      && (LeavesOpen(e) && answered && applied ==>
        && r.Ok? && r.value == n.server.next
        && r.value in r.net.server.providers && r.net.server.providers[r.value] == v)
      && (LeavesOpen(e) && answered && !applied ==> r.Err? && r.error == e && r.net.server == n.server)
      && (LeavesOpen(e) && !answered ==> r.Err?)
      && (!LeavesOpen(e) ==> r.Err? && r.error == e && r.net.sent == n.sent + [PostProvider(v)])
  {
    var n1 := Send(o, n, PostProvider(v), 1).0;
    assert n1 == Net(if applied then After(n.server, PostProvider(v)) else n.server, n.sent + [PostProvider(v)]);
    ReadReturns(o, n1, ListProviders(v.name), MAX_ATTEMPTS);
    FoundAfterPost(n.server, n1.server, v, applied);
  }

  /** The listing after the POST has the name once, or not at all. */
  lemma FoundAfterPost(s: Server, s1: Server, v: Provider, applied: bool)
    requires Numbered(s) && (forall p :: !Named(s, p, v.name)) && AcceptsFlows(s, v.settings)
    requires s1 == if applied then After(s, PostProvider(v)) else s
    ensures Matches(Rows(s1.providers, s1.next), v.name) == if applied then [s.next] else []
  {
    var found := Matches(Rows(s1.providers, s1.next), v.name);
    MatchesOfRows(s1.providers, s1.next, v.name);
    forall p ensures Named(s1, p, v.name) <==> p in found {}
    forall p ensures Named(s1, p, v.name) <==> applied && p == s.next {
      assert !Named(s, p, v.name);
    }
    CountDecides(s1, v.name, found);
    assert applied ==> Named(s1, s.next, v.name);
    assert found != [] ==> found[0] in found;
  }

  /** The same for an application at a free slug. */
  lemma AmbiguousApplication(o: Oracle, n: Net, slug: string, name: string, pk: Pk, applied: bool, e: Failure)
    requires slug !in n.server.apps && pk in n.server.providers
    requires o(|n.sent|) == Fails(applied, e)
    ensures var r := CreateApplication(o, n, slug, name, pk); var answered := Returns(o, |n.sent| + 1, 3);
      && (LeavesOpen(e) && answered && applied ==>
        && r.Ok? && slug in r.net.server.apps && r.net.server.apps[slug] == Application(name, Some(pk)))
      && (LeavesOpen(e) && answered && !applied ==> r.Err? && r.error == e && r.net.server == n.server)
      && (LeavesOpen(e) && !answered ==> r.Err?)
      && (!LeavesOpen(e) ==> r.Err? && r.error == e && r.net.sent == n.sent + [PostApplication(slug, name, pk)])
  {
    var post := PostApplication(slug, name, pk);
    var n1 := Send(o, n, post, 1).0;
    assert n1 == Net(if applied then After(n.server, post) else n.server, n.sent + [post]);
    ReadReturns(o, n1, GetApplication(slug), MAX_ATTEMPTS);
  }

  /** An application that is there already counts as created exactly if it refers to the provider. */
  lemma ConflictingApplication(o: Oracle, n: Net, slug: string, name: string, pk: Pk)
    requires slug in n.server.apps && o(|n.sent|) == Clear
    ensures var r := CreateApplication(o, n, slug, name, pk);
      && r.net.server == n.server
      && (Returns(o, |n.sent| + 1, 3) ==> (r.Ok? <==> n.server.apps[slug].provider == Some(pk)))
      && (Returns(o, |n.sent| + 1, 3) && r.Err? ==> r.error == Conflict)
  {
    var n1 := Send(o, n, PostApplication(slug, name, pk), 1).0;
    ReadReturns(o, n1, GetApplication(slug), MAX_ATTEMPTS);
  }
}
