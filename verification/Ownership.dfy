/**
 Which remote objects belong to which relation, and what a request made for one relation can do
 to the objects of every relation.
 */
module Ownership {
  import opened Options
  import opened AuthentikServer
  import opened AuthentikApi
  import opened Reconciler

  // ---- Identities -----------------------------------------------------------------------

  ghost predicate SlugIs(n: Names, slug: string) { slug == n.managed || slug == n.legacy }

  ghost predicate NameIs(n: Names, name: string) { name == n.provider || name == n.legacyProvider }

  /** Two relations have no slug and no provider name in common. */
  ghost predicate Apart(n: Names, m: Names) {
    && !SlugIs(n, m.managed) && !SlugIs(n, m.legacy)
    && !NameIs(n, m.provider) && !NameIs(n, m.legacyProvider)
  }

  ghost predicate Separated(ids: nat -> Names) {
    && (forall r: nat :: ids(r).managed != "" && ids(r).legacy != "")
    && (forall r: nat, q: nat :: r != q ==> Apart(ids(r), ids(q)))
  }

  /** A provider bearing one of the relation's names. */
  ghost predicate Bears(n: Names, s: Server, p: Pk) { p in s.providers && NameIs(n, s.providers[p].name) }

  /** The slug under which the relation's application is, or is to be created. */
  ghost function Home(n: Names, s: Server): string { if n.legacy in s.apps then n.legacy else n.managed }

  /** An application referring to a bearer. */
  ghost predicate RefersToBearer(n: Names, s: Server, slug: string) {
    slug in s.apps && s.apps[slug].provider.Some? && Bears(n, s, s.apps[slug].provider.value)
  }

  /**
   What holds remotely of every relation: one provider at most bears its names, its application
   is at one slug at most, and refers to that provider, renamed already if the slug is managed.
   */
  ghost predicate Sound(n: Names, s: Server) {
    && (forall p, q :: Bears(n, s, p) && Bears(n, s, q) ==> p == q)
    && (n.managed in s.apps ==>
      && RefersToBearer(n, s, n.managed)
      && s.providers[s.apps[n.managed].provider.value].name == n.provider)
    && (n.legacy in s.apps ==> RefersToBearer(n, s, n.legacy))
    && (n.managed in s.apps && n.legacy in s.apps ==> n.managed == n.legacy)
  }

  /** A provider that still has its legacy name is the one of a legacy application. */
  ghost predicate Live(n: Names, s: Server) {
    forall p :: Bears(n, s, p) && s.providers[p].name != n.provider ==> n.legacy in s.apps
  }

  // ---- Change ---------------------------------------------------------------------------

  /** Nothing of relation `n` differs between the two states. */
  ghost predicate Same(n: Names, s: Server, s': Server) {
    && (forall p :: Bears(n, s, p) || Bears(n, s', p) ==>
      p in s.providers && p in s'.providers && s.providers[p] == s'.providers[p])
    && (n.managed in s.apps <==> n.managed in s'.apps)
    && (n.legacy in s.apps <==> n.legacy in s'.apps)
    && (n.managed in s.apps ==> s.apps[n.managed] == s'.apps[n.managed])
    && (n.legacy in s.apps ==> s.apps[n.legacy] == s'.apps[n.legacy])
  }

  /** The relation keeps its provider and stays at its slug. */
  ghost predicate Stays(n: Names, s: Server, s': Server) {
    && Home(n, s') == Home(n, s)
    && (forall p :: Bears(n, s, p) ==> Bears(n, s', p))
    && (forall slug :: SlugIs(n, slug) && slug in s.apps ==>
      slug in s'.apps && s'.apps[slug].provider == s.apps[slug].provider)
  }

  /** Primary keys are never handed out twice, and scope mappings stay. */
  ghost predicate Ages(s: Server, s': Server) {
    && Numbered(s') && s.next <= s'.next && s'.mappings == s.mappings
    && (forall p :: p in s'.providers && p !in s.providers ==> p >= s.next)
  }

  /** Moreover, the charm changes no flow. */
  ghost predicate Forward(s: Server, s': Server) {
    Ages(s, s') && s'.accepted == s.accepted && s'.current == s.current
  }

  /** Work done for relation `r`: sound for `r`, invisible to every other relation. */
  ghost predicate WorkFor(ids: nat -> Names, r: nat, s: Server, s': Server) {
    && Forward(s, s')
    && Sound(ids(r), s')
    && forall q: nat :: q != r ==> Same(ids(q), s, s')
  }

  ghost predicate SoundServer(ids: nat -> Names, s: Server) {
    Numbered(s) && forall r: nat :: Sound(ids(r), s)
  }

  lemma SameSound(n: Names, s: Server, s': Server)
    requires Same(n, s, s') && Sound(n, s)
    ensures Sound(n, s')
  {
    forall p, q | Bears(n, s', p) && Bears(n, s', q) ensures p == q {
      assert Bears(n, s, p) && Bears(n, s, q);
    }
  }

  lemma SameLive(n: Names, s: Server, s': Server)
    requires Same(n, s, s') && Live(n, s)
    ensures Live(n, s')
  {
    forall p | Bears(n, s', p) && s'.providers[p].name != n.provider ensures n.legacy in s'.apps {
      assert Bears(n, s, p);
    }
  }

  lemma SameTransitive(n: Names, s: Server, t: Server, u: Server)
    requires Same(n, s, t) && Same(n, t, u)
    ensures Same(n, s, u)
  {
    forall p | Bears(n, s, p) || Bears(n, u, p)
      ensures p in s.providers && p in u.providers && s.providers[p] == u.providers[p]
    {
      assert Bears(n, t, p);
    }
  }

  lemma SameSelf(n: Names, s: Server)
    ensures Same(n, s, s)
  {}

  lemma SameStays(n: Names, s: Server, s': Server)
    requires Same(n, s, s')
    ensures Stays(n, s, s')
  {
    forall p | Bears(n, s, p) ensures Bears(n, s', p) {}
  }

  lemma StaysTransitive(n: Names, s: Server, t: Server, u: Server)
    requires Stays(n, s, t) && Stays(n, t, u)
    ensures Stays(n, s, u)
  {
    forall p | Bears(n, s, p) ensures Bears(n, u, p) { assert Bears(n, t, p); }
  }

  lemma WorkTransitive(ids: nat -> Names, r: nat, s: Server, t: Server, u: Server)
    requires WorkFor(ids, r, s, t) && WorkFor(ids, r, t, u)
    ensures WorkFor(ids, r, s, u)
  {
    forall q: nat | q != r ensures Same(ids(q), s, u) { SameTransitive(ids(q), s, t, u); }
  }

  lemma WorkSound(ids: nat -> Names, r: nat, s: Server, s': Server)
    requires SoundServer(ids, s) && WorkFor(ids, r, s, s')
    ensures SoundServer(ids, s')
  {
    forall q: nat ensures Sound(ids(q), s') {
      if q != r {
        SameSound(ids(q), s, s');
      }
    }
  }

  lemma NoWork(ids: nat -> Names, r: nat, s: Server)
    requires SoundServer(ids, s)
    ensures WorkFor(ids, r, s, s) && Stays(ids(r), s, s)
  {}

  // ---- Requests -------------------------------------------------------------------------

  /** The requests the reconciler may send on behalf of a relation in a given server state. */
  ghost predicate Proper(n: Names, s: Server, q: Request) {
    match q
    case PostProvider(v) => v.name == n.provider && forall p :: !Bears(n, s, p)
    case PutProvider(p, v) => v.name == n.provider && Bears(n, s, p)
    case PostApplication(slug, _, p) =>
      slug == Home(n, s) && Bears(n, s, p) && s.providers[p].name == n.provider
    case PatchApplication(slug, _, p) =>
      SlugIs(n, slug) && Bears(n, s, p) && s.providers[p].name == n.provider
    case DeleteApplication(slug) => SlugIs(n, slug)
    case DeleteProvider(p) =>
      (p in s.providers ==> Bears(n, s, p)) && n.managed !in s.apps && n.legacy !in s.apps
    case _ => true
  }

  lemma PostSound(n: Names, s: Server, v: Provider)
    requires Numbered(s) && Sound(n, s) && Proper(n, s, PostProvider(v))
    ensures var s' := After(s, PostProvider(v));
      Forward(s, s') && Sound(n, s') && Stays(n, s, s') && (Live(n, s) ==> Live(n, s'))
  {
    var s' := After(s, PostProvider(v));
    forall p | Bears(n, s', p) ensures p == s.next { assert !Bears(n, s, p); }
  }

  lemma DeleteSound(n: Names, s: Server, p: Pk)
    requires Numbered(s) && Sound(n, s) && Proper(n, s, DeleteProvider(p))
    ensures var s' := After(s, DeleteProvider(p)); Forward(s, s') && Sound(n, s')
  {
    var s' := After(s, DeleteProvider(p));
    forall a, b | Bears(n, s', a) && Bears(n, s', b) ensures a == b {
      assert Bears(n, s, a) && Bears(n, s, b);
    }
  }

  lemma ApplicationSound(n: Names, s: Server, q: Request)
    requires Numbered(s) && Sound(n, s) && Proper(n, s, q)
    requires !q.PostProvider? && !q.PutProvider? && !q.DeleteProvider?
    ensures var s' := After(s, q);
      && Forward(s, s') && Sound(n, s')
      && (!q.DeleteApplication? ==> Stays(n, s, s') && (Live(n, s) ==> Live(n, s')))
  {
    assert forall a :: Bears(n, After(s, q), a) <==> Bears(n, s, a);
  }

  lemma PutSound(n: Names, s: Server, p: Pk, v: Provider)
    requires Numbered(s) && Sound(n, s) && Proper(n, s, PutProvider(p, v))
    ensures var s' := After(s, PutProvider(p, v));
      Forward(s, s') && Sound(n, s') && Stays(n, s, s') && (Live(n, s) ==> Live(n, s'))
  {
    var s' := After(s, PutProvider(p, v));
    forall a ensures Bears(n, s', a) <==> a == p {
      assert Bears(n, s', a) ==> Bears(n, s, a);
    }
    assert forall a :: Bears(n, s, a) ==> a == p;
  }

  /** A proper request keeps the relation's own objects sound. */
  lemma ProperSound(n: Names, s: Server, q: Request)
    requires Numbered(s) && Sound(n, s) && Proper(n, s, q)
    ensures Forward(s, After(s, q)) && Sound(n, After(s, q))
    ensures !q.DeleteApplication? && !q.DeleteProvider? ==> Stays(n, s, After(s, q))
    ensures !q.DeleteApplication? && !q.DeleteProvider? && Live(n, s) ==> Live(n, After(s, q))
  {
    match q
    case PostProvider(v) => PostSound(n, s, v);
    case PutProvider(p, v) => PutSound(n, s, p, v);
    case DeleteProvider(p) => DeleteSound(n, s, p);
    case _ => ApplicationSound(n, s, q);
  }

  /** A proper request for one relation changes nothing of another. */
  lemma ProperElsewhere(n: Names, m: Names, s: Server, q: Request)
    requires Numbered(s) && Sound(n, s) && Sound(m, s) && Apart(n, m) && Proper(n, s, q)
    ensures Same(m, s, After(s, q))
  {}

  lemma ProperWork(ids: nat -> Names, r: nat, s: Server, q: Request)
    requires Separated(ids) && SoundServer(ids, s) && Proper(ids(r), s, q)
    ensures WorkFor(ids, r, s, After(s, q))
    ensures !q.DeleteApplication? && !q.DeleteProvider? ==> Stays(ids(r), s, After(s, q))
    ensures !q.DeleteApplication? && !q.DeleteProvider? && Live(ids(r), s) ==> Live(ids(r), After(s, q))
  {
    ProperSound(ids(r), s, q);
    forall k: nat | k != r ensures Same(ids(k), s, After(s, q)) {
      ProperElsewhere(ids(r), ids(k), s, q);
    }
  }
}
