/**
 What one synchronization of one relation does, cut at any API call by any fault: the objects of
 the relation stay sound, those of every other relation are untouched, and only a run that got to
 the end leaves a synchronized server.
 */
module SyncProofs {
  import opened Options
  import opened AuthentikServer
  import opened AuthentikApi
  import opened Reconciler
  import opened Ownership

  // ---- Progress -------------------------------------------------------------------------

  /** Every provider the relation had is as before, or was overwritten with `v` by a recorded PUT. */
  ghost predicate Wrote(m: Names, n: Net, n': Net, v: Provider)
    requires n.sent <= n'.sent
  {
    forall p :: Bears(m, n.server, p) ==>
      && p in n'.server.providers
      && (|| n'.server.providers[p] == n.server.providers[p]
          || (n'.server.providers[p] == v && PutProvider(p, v) in n'.sent[|n.sent|..]))
  }

  ghost predicate Progress(ids: nat -> Names, r: nat, v: Provider, n: Net, n': Net) {
    && n.sent <= n'.sent
    && WorkFor(ids, r, n.server, n'.server)
    && Stays(ids(r), n.server, n'.server)
    && Live(ids(r), n'.server)
    && Wrote(ids(r), n, n', v)
  }

  lemma NoProgress(ids: nat -> Names, r: nat, v: Provider, n: Net, n': Net)
    requires SoundServer(ids, n.server) && Live(ids(r), n.server) && n'.server == n.server && n.sent <= n'.sent
    ensures Progress(ids, r, v, n, n')
  {
    NoWork(ids, r, n.server);
  }

  lemma ProgressTransitive(ids: nat -> Names, r: nat, v: Provider, n: Net, n1: Net, n2: Net)
    requires Progress(ids, r, v, n, n1) && Progress(ids, r, v, n1, n2)
    ensures Progress(ids, r, v, n, n2)
  {
    WorkTransitive(ids, r, n.server, n1.server, n2.server);
    forall p | Bears(ids(r), n.server, p)
      ensures p in n2.server.providers
      ensures n2.server.providers[p] == n.server.providers[p]
              || (n2.server.providers[p] == v && PutProvider(p, v) in n2.sent[|n.sent|..])
    {
      assert Bears(ids(r), n1.server, p);
      assert n1.sent[|n.sent|..] <= n2.sent[|n.sent|..];
      assert n2.sent[|n.sent|..] == n2.sent[|n.sent|..|n1.sent|] + n2.sent[|n1.sent|..];
    }
  }

  lemma ProgressSound(ids: nat -> Names, r: nat, v: Provider, n: Net, n': Net)
    requires SoundServer(ids, n.server) && Progress(ids, r, v, n, n')
    ensures SoundServer(ids, n'.server)
  {
    WorkSound(ids, r, n.server, n'.server);
  }

  /** A proper request that is lost or served, and writes no provider, is progress. */
  lemma RequestProgress(ids: nat -> Names, r: nat, v: Provider, n: Net, n': Net, q: Request)
    requires Separated(ids) && SoundServer(ids, n.server) && Live(ids(r), n.server) && n.sent <= n'.sent
    requires Proper(ids(r), n.server, q) && !q.DeleteApplication? && !q.DeleteProvider? && !q.PutProvider?
    requires n'.server == n.server || n'.server == After(n.server, q)
    ensures Progress(ids, r, v, n, n')
  {
    ProperWork(ids, r, n.server, q);
    NoProgress(ids, r, v, n, n.(sent := n'.sent));
  }

  lemma PutProgress(ids: nat -> Names, r: nat, v: Provider, n: Net, n': Net, p: Pk)
    requires Separated(ids) && SoundServer(ids, n.server) && Live(ids(r), n.server) && n.sent < n'.sent
    requires Proper(ids(r), n.server, PutProvider(p, v)) && n'.sent[|n'.sent| - 1] == PutProvider(p, v)
    requires n'.server == n.server || n'.server == n.server.(providers := n.server.providers[p := v])
    requires n'.server != n.server ==> AcceptsFlows(n.server, v.settings)
    ensures Progress(ids, r, v, n, n')
  {
    ProperWork(ids, r, n.server, PutProvider(p, v));
    NoProgress(ids, r, v, n, n.(sent := n'.sent));
    assert n'.sent[|n.sent|..][|n'.sent| - 1 - |n.sent|] == PutProvider(p, v);
  }

  // ---- Discovery ------------------------------------------------------------------------

  /** The outcome of a discovery is consistent with the server it leaves. */
  ghost predicate Placed(m: Names, s: Server, found: Found, v: Provider) {
    && found.slug == Home(m, s)
    && Bears(m, s, found.pk)
    && (found.present <==> found.slug in s.apps)
    && (found.created ==> s.providers[found.pk] == v)
  }

  lemma ValidateOutcome(c: Context, w: World, m: Names, app: Application, first: string, second: string)
    ensures var r := ValidateApplication(c, w, app, first, second);
      && r.world == w.(net := r.world.net) && r.world.net.server == w.net.server && w.net.sent <= r.world.net.sent
      && (r.Done? ==> app.provider == Some(r.value))
      && (r.Raised? ==> r.error != NotFound)
      && (Calm(c.faults, |w.net.sent|) && app.provider.Some? && app.provider.value in w.net.server.providers ==>
        (r.Done? <==> var name := w.net.server.providers[app.provider.value].name; name == first || name == second))
  {
    if app.provider.Some? {
      ReadProviderOutcome(c.faults, w.net, app.provider.value);
    }
  }

  /** Everything `Locate` can do, given that the relation's objects are sound. */
  ghost predicate LocateFacts(c: Context, w: World, id: nat, cache: Cache, v: Provider, r: Step<Found>) {
    && r.world == w.(net := r.world.net)
    && Progress(c.ids, id, v, w.net, r.world.net)
    && (r.Done? ==> Placed(c.ids(id), r.world.net.server, r.value, v) && r.value.cache == cache)
    && (r.Raised? ==> r.error != NotFound)
    && (Calm(c.faults, |w.net.sent|) ==>
      && (AcceptsFlows(w.net.server, v.settings) ==> r.Done?)
      && (r.Raised? ==> r.error == Validation))
    && (r.Done? && r.value.created ==> AcceptsFlows(w.net.server, v.settings))
  }

  lemma LocateOutcome(c: Context, w: World, id: nat, cache: Cache, v: Provider)
    requires Separated(c.ids) && SoundServer(c.ids, w.net.server) && Live(c.ids(id), w.net.server)
    requires v.name == c.ids(id).provider
    ensures LocateFacts(c, w, id, cache, v, Locate(c, w, c.ids(id), c.ids(id).managed, cache, v))
  {
    var m := c.ids(id);
    var r := Locate(c, w, m, m.managed, cache, v);
    ReadApplicationOutcome(c.faults, w.net, m.managed);
    var a1 := ReadApplication(c.faults, w.net, m.managed);
    var w1 := w.(net := a1.net);
    NoProgress(c.ids, id, v, w.net, w1.net);
    assert Sound(m, w.net.server);
    if a1.Ok? {
      if a1.value.Some? {
        ValidateOutcome(c, w1, m, a1.value.value, m.provider, m.provider);
        NoProgress(c.ids, id, v, w.net, r.world.net);
      } else {
        LocateUnmanaged(c, w, w1, id, cache, v);
      }
    }
  }

  lemma LocateUnmanaged(c: Context, w: World, w1: World, id: nat, cache: Cache, v: Provider)
    requires Separated(c.ids) && SoundServer(c.ids, w.net.server) && Live(c.ids(id), w.net.server)
    requires v.name == c.ids(id).provider && c.ids(id).managed !in w.net.server.apps
    requires ReadApplication(c.faults, w.net, c.ids(id).managed) == Ok(w1.net, None)
    requires w1 == w.(net := w1.net) && OnlyRead(w.net, w1.net)
    ensures LocateFacts(c, w, id, cache, v, Locate(c, w, c.ids(id), c.ids(id).managed, cache, v))
  {
    var m := c.ids(id);
    var r := Locate(c, w, m, m.managed, cache, v);
    ReadApplicationOutcome(c.faults, w1.net, m.legacy);
    var a2 := ReadApplication(c.faults, w1.net, m.legacy);
    var w2 := w1.(net := a2.net);
    NoProgress(c.ids, id, v, w.net, w2.net);
    if a2.Ok? {
      if a2.value.Some? {
        ValidateOutcome(c, w2, m, a2.value.value, m.provider, m.legacyProvider);
        NoProgress(c.ids, id, v, w.net, r.world.net);
      } else {
        FindOrCreateOutcome(c, w2, id, cache, v);
        ProgressTransitive(c.ids, id, v, w.net, w2.net, r.world.net);
      }
    }
  }

  lemma CreateProgress(c: Context, n: Net, id: nat, v: Provider)
    requires Separated(c.ids) && SoundServer(c.ids, n.server) && Live(c.ids(id), n.server)
    requires v.name == c.ids(id).provider && forall p :: !Bears(c.ids(id), n.server, p)
    ensures var r := CreateProvider(c.faults, n, v);
      && Progress(c.ids, id, v, n, r.net)
      && (r.Ok? ==> Bears(c.ids(id), r.net.server, r.value) && r.net.server.providers[r.value] == v)
      && (r.Ok? ==> AcceptsFlows(n.server, v.settings))
      && r.net.server.apps == n.server.apps
      && (r.Err? ==> r.error != NotFound)
      && (Calm(c.faults, |n.sent|) ==> if AcceptsFlows(n.server, v.settings) then r.Ok?
          else r.Err? && r.error == Validation)
  {
    var r := CreateProvider(c.faults, n, v);
    CreateProviderPosts(c.faults, n, v);
    CreateProviderOutcome(c.faults, n, v);
    assert forall p :: Named(n.server, p, v.name) ==> Bears(c.ids(id), n.server, p);
    RequestProgress(c.ids, id, v, n, r.net, PostProvider(v));
  }

  /** Without a legacy application the bearers are those with the managed name, one at most. */
  lemma NamedBears(m: Names, s: Server)
    requires Sound(m, s) && Live(m, s) && m.legacy !in s.apps
    ensures forall p :: Bears(m, s, p) <==> Named(s, p, m.provider)
    ensures forall p, q :: Named(s, p, m.provider) && Named(s, q, m.provider) ==> p == q
  {
    forall p ensures Bears(m, s, p) <==> Named(s, p, m.provider) {}
  }

  lemma FindOrCreateOutcome(c: Context, w: World, id: nat, cache: Cache, v: Provider)
    requires Separated(c.ids) && SoundServer(c.ids, w.net.server) && Live(c.ids(id), w.net.server)
    requires v.name == c.ids(id).provider
    requires c.ids(id).managed !in w.net.server.apps && c.ids(id).legacy !in w.net.server.apps
    ensures LocateFacts(c, w, id, cache, v, FindOrCreate(c, w, c.ids(id), c.ids(id).managed, cache, v))
  {
    var m := c.ids(id);
    var r := FindOrCreate(c, w, m, m.managed, cache, v);
    var s := w.net.server;
    FindProviderOutcome(c.faults, w.net, m.provider);
    var a := FindProvider(c.faults, w.net, m.provider);
    NamedBears(m, s);
    NoProgress(c.ids, id, v, w.net, a.net);
    if a.Ok? {
      if a.value.Some? {
        assert Named(s, a.value.value, m.provider);
      } else {
        CreateProgress(c, a.net, id, v);
        ProgressTransitive(c.ids, id, v, w.net, a.net, r.world.net);
      }
    }
  }

  // ---- Recall and apply -----------------------------------------------------------------

  /** What a cache entry claims is so; a slug never stands alone. */
  ghost predicate Anchored(m: Names, s: Server, e: Entry) {
    e.slug != "" ==> Trusted(e) && e.slug == Home(m, s) && Bears(m, s, e.pk.value)
  }

  /** At most the relation's own entry changed, to a true one without a hash. */
  ghost predicate CacheStep(m: Names, id: nat, s: Server, before: Cache, after: Cache) {
    && before - {Rel(id)} == after - {Rel(id)}
    && (after == before ||
        (Rel(id) in after && var e := after[Rel(id)];
          e.hash.None? && Trusted(e) && e.slug == Home(m, s) && Bears(m, s, e.pk.value)))
  }

  ghost predicate RecallFacts(c: Context, w: World, id: nat, cache: Cache, v: Provider, r: Step<Found>) {
    && r.world == w.(net := r.world.net, work := w.work.(cache := r.world.work.cache))
    && Progress(c.ids, id, v, w.net, r.world.net)
    && CacheStep(c.ids(id), id, r.world.net.server, w.work.cache, r.world.work.cache)
    && (r.Done? ==>
      && Placed(c.ids(id), r.world.net.server, r.value, v)
      && r.value.cache - {Rel(id)} == cache - {Rel(id)}
      && (r.value.created ==> AcceptsFlows(w.net.server, v.settings)))
    && (r.Raised? ==> r.error != NotFound)
    && (Calm(c.faults, |w.net.sent|) ==>
      && (AcceptsFlows(w.net.server, v.settings) ==> r.Done?)
      && (r.Raised? ==> r.error == Validation))
  }

  lemma DiscoverOutcome(c: Context, w: World, id: nat, cache: Cache, v: Provider)
    requires Separated(c.ids) && SoundServer(c.ids, w.net.server) && Live(c.ids(id), w.net.server)
    requires v.name == c.ids(id).provider && (w.peer ==> cache == w.work.cache)
    requires SlugOf(c.ids(id), EntryOf(cache, id)) == c.ids(id).managed
    ensures RecallFacts(c, w, id, cache, v, Discover(c, w, id, cache, v))
  {
    LocateOutcome(c, w, id, cache, v);
    var r := Locate(c, w, c.ids(id), c.ids(id).managed, cache, v);
    if r.Done? {
      var e := Entry(SCHEMA_VERSION, None, Some(r.value.pk), r.value.slug);
      assert cache[Rel(id) := e] - {Rel(id)} == cache - {Rel(id)};
      assert c.ids(id).managed != "" && c.ids(id).legacy != "";
    }
  }

  lemma RecallOutcome(c: Context, w: World, id: nat, cache: Cache, v: Provider)
    requires Separated(c.ids) && SoundServer(c.ids, w.net.server) && Live(c.ids(id), w.net.server)
    requires v.name == c.ids(id).provider && (w.peer ==> cache == w.work.cache)
    requires Anchored(c.ids(id), w.net.server, EntryOf(cache, id))
    ensures RecallFacts(c, w, id, cache, v, Recall(c, w, id, cache, v))
  {
    var e := EntryOf(cache, id);
    if !Trusted(e) {
      DiscoverOutcome(c, w, id, cache, v);
    } else {
      var a1 := ReadApplication(c.faults, w.net, e.slug);
      ReadApplicationOutcome(c.faults, w.net, e.slug);
      NoProgress(c.ids, id, v, w.net, a1.net);
      assert Sound(c.ids(id), w.net.server);
      if a1.Ok? {
        ReadProviderOutcome(c.faults, a1.net, e.pk.value);
        var a2 := ReadProvider(c.faults, a1.net, e.pk.value);
        NoProgress(c.ids, id, v, w.net, a2.net);
      }
    }
  }

  /** The desired end: the application refers to the provider, which is as desired. */
  ghost predicate Synced(s: Server, slug: string, pk: Pk, v: Provider) {
    && slug in s.apps && s.apps[slug] == Application(v.name, Some(pk))
    && pk in s.providers && s.providers[pk] == v
  }

  ghost predicate ApplyFacts(c: Context, w: World, id: nat, found: Found, v: Provider, r: Step<()>) {
    && r.world == w.(net := r.world.net)
    && Progress(c.ids, id, v, w.net, r.world.net)
    && (r.Done? ==> Synced(r.world.net.server, found.slug, found.pk, v))
    && (Calm(c.faults, |w.net.sent|) ==>
      if found.created || AcceptsFlows(w.net.server, v.settings) then r.Done? else r.Raised? && r.error == Validation)
  }

  lemma ApplyOutcome(c: Context, w: World, id: nat, found: Found, v: Provider)
    requires Separated(c.ids) && SoundServer(c.ids, w.net.server) && Live(c.ids(id), w.net.server)
    requires v.name == c.ids(id).provider && Placed(c.ids(id), w.net.server, found, v)
    ensures ApplyFacts(c, w, id, found, v, Apply(c, w, c.ids(id), found, v))
  {
    var m := c.ids(id);
    var r := Apply(c, w, m, found, v);
    if found.created {
      NoProgress(c.ids, id, v, w.net, w.net);
      ApplyApplication(c, w, id, found, v);
    } else {
      var a := UpdateProvider(c.faults, w.net, found.pk, v);
      UpdateProviderOutcome(c.faults, w.net, found.pk, v);
      PutProgress(c.ids, id, v, w.net, a.net, found.pk);
      ProgressSound(c.ids, id, v, w.net, a.net);
      if a.Ok? {
        ApplyApplication(c, w.(net := a.net), id, found, v);
        ProgressTransitive(c.ids, id, v, w.net, a.net, r.world.net);
      }
    }
  }

  /** The second half of `Apply`, once the provider is as desired. */
  lemma ApplyApplication(c: Context, w: World, id: nat, found: Found, v: Provider)
    requires Separated(c.ids) && SoundServer(c.ids, w.net.server) && Live(c.ids(id), w.net.server)
    requires v.name == c.ids(id).provider && Placed(c.ids(id), w.net.server, found, v)
    requires w.net.server.providers[found.pk] == v
    ensures var m := c.ids(id);
      var r := if found.present
               then Lift(w, UpdateApplication(c.faults, w.net, found.slug, m.provider, found.pk))
               else Lift(w, CreateApplication(c.faults, w.net, found.slug, m.provider, found.pk));
      && r.world == w.(net := r.world.net)
      && Progress(c.ids, id, v, w.net, r.world.net)
      && (r.Done? ==> Synced(r.world.net.server, found.slug, found.pk, v))
      && (Calm(c.faults, |w.net.sent|) ==> r.Done?)
  {
    var m := c.ids(id);
    if found.present {
      UpdateApplicationOutcome(c.faults, w.net, found.slug, m.provider, found.pk);
      RequestProgress(c.ids, id, v, w.net, UpdateApplication(c.faults, w.net, found.slug, m.provider, found.pk).net,
        PatchApplication(found.slug, m.provider, found.pk));
    } else {
      CreateApplicationOutcome(c.faults, w.net, found.slug, m.provider, found.pk);
      RequestProgress(c.ids, id, v, w.net, CreateApplication(c.faults, w.net, found.slug, m.provider, found.pk).net,
        PostApplication(found.slug, m.provider, found.pk));
    }
  }

  ghost predicate SyncFacts(c: Context, w: World, id: nat, cache: Cache, v: Provider, r: Step<Found>) {
    && r.world == w.(net := r.world.net, work := w.work.(cache := r.world.work.cache))
    && Progress(c.ids, id, v, w.net, r.world.net)
    && CacheStep(c.ids(id), id, r.world.net.server, w.work.cache, r.world.work.cache)
    && (r.Done? ==>
      && Synced(r.world.net.server, r.value.slug, r.value.pk, v)
      && r.value.slug == Home(c.ids(id), r.world.net.server)
      && r.value.cache - {Rel(id)} == cache - {Rel(id)})
    && (Calm(c.faults, |w.net.sent|) ==>
      if AcceptsFlows(w.net.server, v.settings) then r.Done? else r.Raised? && r.error == Validation)
  }

  lemma SyncObjectsOutcome(c: Context, w: World, id: nat, cache: Cache, v: Provider)
    requires Separated(c.ids) && SoundServer(c.ids, w.net.server) && Live(c.ids(id), w.net.server)
    requires v.name == c.ids(id).provider && (w.peer ==> cache == w.work.cache)
    requires Anchored(c.ids(id), w.net.server, EntryOf(cache, id))
    ensures SyncFacts(c, w, id, cache, v, SyncObjects(c, w, id, cache, v))
  {
    RecallOutcome(c, w, id, cache, v);
    var r1 := Recall(c, w, id, cache, v);
    var w1 := r1.world;
    ProgressSound(c.ids, id, v, w.net, w1.net);
    if r1.Done? {
      ApplyOutcome(c, w1, id, r1.value, v);
      var r2 := Apply(c, w1, c.ids(id), r1.value, v);
      ProgressTransitive(c.ids, id, v, w.net, w1.net, r2.world.net);
      CacheStepStays(c.ids(id), id, w1.net.server, r2.world.net.server, w.work.cache, w1.work.cache);
    }
  }

  lemma CacheStepStays(m: Names, id: nat, s: Server, s': Server, before: Cache, after: Cache)
    requires CacheStep(m, id, s, before, after) && Stays(m, s, s')
    ensures CacheStep(m, id, s', before, after)
  {}
}
