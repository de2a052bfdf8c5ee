/**
 Which objects a synchronization takes for its own, and which it refuses, on any server, sound or not:
 decided by what the server holds, not by how the reconciler asks.
 */
module Discovery {
  import opened Options
  import opened AuthentikServer
  import opened AuthentikApi
  import opened ConfigKey
  import opened Reconciler

  /** The application at the slug refers to a provider with this name. */
  ghost predicate RefersTo(s: Server, slug: string, name: string) {
    slug in s.apps && s.apps[slug].provider.Some? && Named(s, s.apps[slug].provider.value, name)
  }

  /**
   Checking an application: without faults it is accepted exactly if it refers to a provider with one
   of the two names, else refused as a conflict; no answer accepts another, whatever faults strike.
   */
  lemma ValidateDecides(c: Context, w: World, slug: string, first: string, second: string)
    requires slug in w.net.server.apps
    ensures var r := ValidateApplication(c, w, w.net.server.apps[slug], first, second); var s := w.net.server;
      && r.world.net.server == s && r.world == w.(net := r.world.net) && w.net.sent <= r.world.net.sent
      && (r.Done? ==> s.apps[slug].provider == Some(r.value) && (RefersTo(s, slug, first) || RefersTo(s, slug, second)))
      && (Calm(c.faults, |w.net.sent|) ==>
        if RefersTo(s, slug, first) || RefersTo(s, slug, second) then r.Done? else r == Raised(r.world, Conflict))
  {
    var app := w.net.server.apps[slug];
    if app.provider.Some? {
      ReadProviderOutcome(c.faults, w.net, app.provider.value);
    }
  }

  /** What discovery may come to, given the server before it and after it. */
  ghost predicate Rightly(n: Names, slug: string, s: Server, s': Server, found: Found) {
    if n.managed in s.apps then
      && s' == s && RefersTo(s, n.managed, n.provider)
      && found == Found(found.cache, n.managed, s.apps[n.managed].provider.value, true, false)
    else if n.legacy in s.apps then
      && s' == s && (RefersTo(s, n.legacy, n.provider) || RefersTo(s, n.legacy, n.legacyProvider))
      && found == Found(found.cache, n.legacy, s.apps[n.legacy].provider.value, true, false)
    else if exists p :: Named(s, p, n.provider) then
      && s' == s && (forall p :: Named(s, p, n.provider) <==> p == found.pk)
      && found == Found(found.cache, slug, found.pk, false, false)
    else
      found == Found(found.cache, slug, s.next, false, true) && s'.apps == s.apps && Named(s', s.next, n.provider)
  }

  /** Without faults discovery is refused for these reasons only. */
  ghost predicate Refused(n: Names, s: Server, v: Provider, e: ApiError) {
    if n.managed in s.apps then e == Conflict && !RefersTo(s, n.managed, n.provider)
    else if n.legacy in s.apps then
      e == Conflict && !RefersTo(s, n.legacy, n.provider) && !RefersTo(s, n.legacy, n.legacyProvider)
    else if exists p :: Named(s, p, n.provider) then
      e == Conflict && exists p, q :: Named(s, p, n.provider) && Named(s, q, n.provider) && p != q
    else e == Validation && !AcceptsFlows(s, v.settings)
  }

  ghost predicate LocateRight(c: Context, w: World, n: Names, slug: string, v: Provider, r: Step<Found>) {
    && r.world == w.(net := r.world.net)
    && (r.Done? ==> Rightly(n, slug, w.net.server, r.world.net.server, r.value))
    && (r.Raised? && Calm(c.faults, |w.net.sent|) ==>
        Refused(n, w.net.server, v, r.error) && r.world.net.server == w.net.server)
  }

  /**
   Discovery on any server: whatever faults strike, it settles only on the managed application with the
   managed provider, else on the legacy application with one of the two, else on the single provider
   of the name, else on a new one. Without faults it fails only where none of these is to be had.
   */
  lemma LocateDecides(c: Context, w: World, n: Names, slug: string, cache: Cache, v: Provider)
    requires Numbered(w.net.server) && v.name == n.provider
    ensures LocateRight(c, w, n, slug, v, Locate(c, w, n, slug, cache, v))
  {
    ReadApplicationOutcome(c.faults, w.net, n.managed);
    var a1 := ReadApplication(c.faults, w.net, n.managed);
    var w1 := w.(net := a1.net);
    if a1.Ok? && a1.value.Some? {
      ValidateDecides(c, w1, n.managed, n.provider, n.provider);
    } else if a1.Ok? {
      ReadApplicationOutcome(c.faults, w1.net, n.legacy);
      var a2 := ReadApplication(c.faults, w1.net, n.legacy);
      var w2 := w1.(net := a2.net);
      if a2.Ok? && a2.value.Some? {
        ValidateDecides(c, w2, n.legacy, n.provider, n.legacyProvider);
      } else if a2.Ok? {
        FindOrCreateDecides(c, w2, n, slug, cache, v);
      }
    }
  }

  lemma FindOrCreateDecides(c: Context, w: World, n: Names, slug: string, cache: Cache, v: Provider)
    requires Numbered(w.net.server) && v.name == n.provider
    requires n.managed !in w.net.server.apps && n.legacy !in w.net.server.apps
    ensures LocateRight(c, w, n, slug, v, FindOrCreate(c, w, n, slug, cache, v))
  {
    var s := w.net.server;
    FindProviderOutcome(c.faults, w.net, n.provider);
    var found := FindProvider(c.faults, w.net, n.provider);
    if found.Ok? && found.value.None? {
      CreateDecides(c.faults, found.net, v);
    } else if found.Ok? {
      assert Named(s, found.value.value, n.provider);
    }
  }

  lemma CreateDecides(o: Oracle, n: Net, v: Provider)
    requires Numbered(n.server) && forall p :: !Named(n.server, p, v.name)
    ensures var r := CreateProvider(o, n, v); var s, s' := n.server, r.net.server;
      && (r.Ok? ==> r.value == s.next && s'.apps == s.apps && Named(s', s.next, v.name))
      && (r.Err? && Calm(o, |n.sent|) ==> !AcceptsFlows(s, v.settings) && r.error == Validation && s' == s)
  {
    CreateProviderOutcome(o, n, v);
    CreateProviderPosts(o, n, v);
  }

  /** The entry that the checks of a cached pair are about. */
  ghost predicate Cached(w: World, id: nat, e: Entry) { EntryOf(w.work.cache, id) == e && Trusted(e) }

  /**
   A cached pair whose application now refers to another provider, or to none, is never used: nothing is
   written, on the server or here, whatever faults strike; without faults the first is a conflict and
   the second an exception that is no API error.
   */
  lemma ForeignApplicationRefused(c: Context, w: World, id: nat, e: Entry, v: Provider)
    requires Cached(w, id, e) && e.slug in w.net.server.apps && w.net.server.apps[e.slug].provider != e.pk
    ensures var r := SyncObjects(c, w, id, w.work.cache, v);
      && r.Raised? && r.world == w.(net := r.world.net) && r.world.net.server == w.net.server
      && (Calm(c.faults, |w.net.sent|) ==>
        r.error == if w.net.server.apps[e.slug].provider.None? then Unexpected else Conflict)
  {
    ReadApplicationOutcome(c.faults, w.net, e.slug);
  }

  /** A cached provider that is gone: the entry is dropped, and what follows is discovery. */
  lemma DeadEntryDropped(c: Context, w: World, id: nat, e: Entry, v: Provider) returns (u: World)
    requires Cached(w, id, e) && w.peer && e.pk.value !in w.net.server.providers && e.slug !in w.net.server.apps
    requires Calm(c.faults, |w.net.sent|) && Numbered(w.net.server) && v.name == c.ids(id).provider
    ensures u.net.server == w.net.server && w.net.sent <= u.net.sent
    ensures u == w.(net := u.net, work := w.work.(cache := w.work.cache - {Rel(id)}))
    ensures var r := Recall(c, w, id, w.work.cache, v);
      r == Discover(c, u, id, u.work.cache, v) && (r.Raised? ==> Rel(id) !in r.world.work.cache)
  {
    ReadApplicationOutcome(c.faults, w.net, e.slug);
    var n1 := ReadApplication(c.faults, w.net, e.slug).net;
    ReadProviderOutcome(c.faults, n1, e.pk.value);
    var n2 := ReadProvider(c.faults, n1, e.pk.value).net;
    u := w.(net := n2, work := w.work.(cache := w.work.cache - {Rel(id)}));
    RaisedWritesNothing(c, u, id, v);
  }

  /** A discovery that raises has written nothing here. */
  lemma RaisedWritesNothing(c: Context, w: World, id: nat, v: Provider)
    requires Numbered(w.net.server) && v.name == c.ids(id).provider
    ensures var r := Discover(c, w, id, w.work.cache, v); r.Raised? ==> r.world.work == w.work
  {
    var n := c.ids(id);
    LocateDecides(c, w, n, SlugOf(n, EntryOf(w.work.cache, id)), w.work.cache, v);
  }
}
