/** States from which runs begin: any server, with or without what an older charm left on it. */
module Start {
  import opened Options
  import opened AuthentikServer
  import opened AuthentikApi
  import opened Reconciler
  import opened Ownership
  import opened Identity
  import opened Runs

  /** The identities the charm computes for its relations. */
  ghost predicate Identified(ids: nat -> Names, model: string, apps: nat -> string) {
    && ' ' !in model
    && (forall r: nat :: ' ' !in apps(r))
    && (forall r: nat :: ids(r) == NamesOf(model, apps(r), r))
  }

  lemma IdentifiedSeparated(ids: nat -> Names, model: string, apps: nat -> string)
    requires Identified(ids, model, apps)
    ensures Separated(ids)
  {
    IdentitiesSeparated(model, apps);
    var same := (r: nat) => NamesOf(model, apps(r), r);
    forall r: nat, q: nat | r != q ensures Apart(ids(r), ids(q)) {
      assert Apart(same(r), same(q));
    }
  }

  /** Nothing is cached, and both copies of the local data are the same. */
  ghost predicate Fresh(w: World) {
    w.work == w.saved && w.work.cache == map[] && w.memo.None? && w.resolved == map[] && w.retired == {}
  }

  /** The server holds nothing that bears a name of the relation. */
  ghost predicate NoObjects(n: Names, s: Server) {
    n.managed !in s.apps && n.legacy !in s.apps && forall p :: !Bears(n, s, p)
  }

  /** What an older charm left of a relation: an application at the legacy slug and its provider. */
  ghost predicate LegacyObjects(n: Names, s: Server, pk: Pk) {
    && n.legacy in s.apps && s.apps[n.legacy].provider == Some(pk)
    && pk in s.providers && s.providers[pk].name == n.legacyProvider
    && (forall p :: Bears(n, s, p) ==> p == pk)
    && n.managed !in s.apps
  }

  /**
   A run may begin on any server, with any objects that are foreign to the relations, where each
   relation has either no objects or those an older charm left, for as many relations as there are.
   */
  lemma AnyStart(c: Context, w: World, model: string, apps: nat -> string, legacy: map<nat, Pk>)
    requires Lists(c.order) && Identified(c.ids, model, apps) && Fresh(w) && Numbered(w.net.server)
    requires forall r: nat :: r in legacy ==> LegacyObjects(c.ids(r), w.net.server, legacy[r])
    requires forall r: nat :: r !in legacy ==> NoObjects(c.ids(r), w.net.server)
    ensures Initial(c, w)
  {
    IdentifiedSeparated(c.ids, model, apps);
    var s := w.net.server;
    forall r: nat ensures Sound(c.ids(r), s) && Live(c.ids(r), s) {
      var n := c.ids(r);
      if r in legacy {
        assert Bears(n, s, legacy[r]);
      } else {
        assert NoObjects(n, s);
      }
    }
  }

  /** One more legacy pair, under a fresh key, leaves every other relation as it was. */
  lemma LegacyAdded(ids: nat -> Names, s: Server, r: nat, v: Provider, legacy: map<nat, Pk>) returns (s': Server)
    requires Separated(ids) && Numbered(s) && NoObjects(ids(r), s) && r !in legacy
    requires v.name == ids(r).legacyProvider && ids(r).legacy != ids(r).managed
    requires forall q: nat :: q in legacy ==> LegacyObjects(ids(q), s, legacy[q])
    requires forall q: nat :: q !in legacy ==> NoObjects(ids(q), s)
    ensures s' == s.(providers := s.providers[s.next := v], next := s.next + 1,
                     apps := s.apps[ids(r).legacy := Application(v.name, Some(s.next))])
    ensures Numbered(s') && LegacyObjects(ids(r), s', s.next)
    ensures forall q: nat :: q in legacy ==> LegacyObjects(ids(q), s', legacy[q])
    ensures forall q: nat :: q !in legacy && q != r ==> NoObjects(ids(q), s')
  {
    s' := s.(providers := s.providers[s.next := v], next := s.next + 1,
             apps := s.apps[ids(r).legacy := Application(v.name, Some(s.next))]);
    forall p | Bears(ids(r), s', p) ensures p == s.next {
      assert !Bears(ids(r), s, p);
    }
    forall q: nat | q != r
      ensures q in legacy ==> LegacyObjects(ids(q), s', legacy[q])
      ensures q !in legacy ==> NoObjects(ids(q), s')
    {
      assert Apart(ids(r), ids(q)) && Apart(ids(q), ids(r));
      forall p | Bears(ids(q), s', p) ensures Bears(ids(q), s, p) {}
      if q in legacy {
        assert LegacyObjects(ids(q), s, legacy[q]);
      } else {
        assert NoObjects(ids(q), s);
      }
    }
  }
}
