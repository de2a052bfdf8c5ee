/** What no run can ever violate. */
module Safety {
  import opened Text
  import opened Options
  import opened AuthentikServer
  import opened AuthentikApi
  import opened ConfigKey
  import opened Reconciler
  import opened Ownership
  import opened SyncProofs
  import opened Invariant
  import opened Collection
  import opened Runs

  /**
   No duplicates. Although the server enforces no unique provider names, and peer writes may be
   lost or have nowhere to go, at most one provider ever bears a relation's managed name, and its
   applications, managed and legacy, are never two.
   */
  lemma NoDuplicates(c: Context, w: World, events: seq<Event>, r: nat, p: Pk, q: Pk)
    requires Initial(c, w) && LegalRun(c, w, events)
    ensures var s, n := Run(c, w, events).net.server, c.ids(r);
      && (Named(s, p, n.provider) && Named(s, q, n.provider) ==> p == q)
      && (n.managed in s.apps && n.legacy in s.apps ==> n.managed == n.legacy)
      && (n.managed in s.apps && Named(s, p, n.provider) ==> s.apps[n.managed].provider == Some(p))
  {
    Reachable(c, w, events);
    var s := Run(c, w, events).net.server;
    assert Sound(c.ids(r), s);
    assert Named(s, p, c.ids(r).provider) ==> Bears(c.ids(r), s, p);
    assert Named(s, q, c.ids(r).provider) ==> Bears(c.ids(r), s, q);
  }

  /**
   Ownership. Entries of different relations share neither slug nor primary key, not even that of
   an object long deleted, and a primary key in an entry is dead or names a provider of that
   relation. So a garbage collection of whatever is inactive leaves every object of every active
   relation as it was.
   */
  lemma OwnershipSeparated(c: Context, w: World, events: seq<Event>, r: nat, q: nat)
    requires Initial(c, w) && LegalRun(c, w, events) && r != q
    ensures var u := Run(c, w, events); var s := u.net.server;
      && (Rel(r) in u.saved.cache && Rel(q) in u.saved.cache ==>
        var e, f := u.saved.cache[Rel(r)], u.saved.cache[Rel(q)];
        && (e.slug != "" ==> e.slug != f.slug)
        && (e.pk.Some? ==> e.pk != f.pk)
        && (e.pk.Some? && e.pk.value in s.providers ==>
          Bears(c.ids(r), s, e.pk.value) && !Bears(c.ids(q), s, e.pk.value)))
  {
    Reachable(c, w, events);
    var u := Run(c, w, events);
    if Rel(r) in u.saved.cache && Rel(q) in u.saved.cache {
      assert EntryOk(c.ids(r), u.net, u.saved, r, r in u.retired);
      assert EntryOk(c.ids(q), u.net, u.saved, q, q in u.retired);
      assert Apart(c.ids(r), c.ids(q));
    }
  }

  /** A whole hook of garbage collection never touches an object of a relation that is active. */
  lemma CollectionSparesActive(c: Context, w: World, events: seq<Event>, active: seq<nat>, q: nat)
    requires Initial(c, w) && LegalRun(c, w, events)
    requires forall i :: i in active ==> i !in Run(c, w, events).retired
    requires q in active
    ensures var u := Begin(Run(c, w, events), active);
      Same(c.ids(q), u.net.server, GarbageCollect(c, u, ToSet(active)).world.net.server)
  {
    Reachable(c, w, events);
    var u := Run(c, w, events);
    BeginInv(c.ids, u, active);
    CollectInv(c, Begin(u, active), ToSet(active));
  }

  /**
   Credentials. For every committed entry with a hash and a primary key, of whatever relation, the
   relation databag holds exactly the credentials of the remote provider if and only if the provider
   is there, though they are sent first and published last. For a relation in service it is there.
   */
  lemma CredentialsAgreeEverywhere(c: Context, w: World, events: seq<Event>, r: nat)
    requires Initial(c, w) && LegalRun(c, w, events)
    ensures var u := Run(c, w, events);
      Rel(r) in u.saved.cache && Finished(u.saved.cache[Rel(r)]) ==>
        var e, s := u.saved.cache[Rel(r)], u.net.server;
        && (r !in u.retired ==> e.pk.Some?)
        && (e.pk.Some? ==>
          && (CredentialsAgree(s, u.saved, r, e.pk.value) <==> e.pk.value in s.providers)
          && (r !in u.retired ==> e.pk.value in s.providers))
  {
    Reachable(c, w, events);
    var u := Run(c, w, events);
    assert Rel(r) in u.saved.cache ==> EntryOk(c.ids(r), u.net, u.saved, r, r in u.retired);
  }

  /** The settings are those wanted, up to the order and repetition of URIs and grant types. */
  ghost predicate AsWanted(v: Settings, table: map<string, string>, want: Want, served: seq<string>) {
    && Elements(v.uris) == Elements(want.uris) && Elements(v.grants) == Elements(want.grants)
    && Configured(v, table, v.uris, v.grants, want.authorization, want.invalidation, served)
  }

  /**
   The fast path. A hit means that the remote provider, if it is there, is as desired, or that it was
   overwritten by a request sent after the hash was recorded: an attempt for another configuration,
   that failed later on, or the hash would have been replaced. As desired is meant up to the scopes
   that were served: they have the same joined text as the desired ones, and are the same unless
   some scope has a comma.
   */
  lemma HitMeansSynchronized(c: Context, w: World, events: seq<Event>, r: nat, want: Want)
    requires Initial(c, w) && LegalRun(c, w, events)
    requires var u := Run(c, w, events);
      && Rel(r) in u.saved.cache && Hit(u.saved.cache[Rel(r)], want)
      && u.saved.cache[Rel(r)].pk.value in u.net.server.providers
      && (r in u.saved.marks ==> Plain(u.saved.marks[r].want))
    requires Plain(want)
    ensures var u := Run(c, w, events); var v := u.net.server.providers[u.saved.cache[Rel(r)].pk.value];
      && r in u.saved.marks && u.saved.marks[r].at <= |u.net.sent|
      && var served := u.saved.marks[r].served;
        && ServedAs(u.net.server.mappings, want.scopes, served)
        && (Without(',', served) ==> served == want.scopes)
        && (|| AsWanted(v.settings, u.net.server.mappings, want, served)
            || PutProvider(u.saved.cache[Rel(r)].pk.value, v) in u.net.sent[u.saved.marks[r].at..])
  {
    Reachable(c, w, events);
    var u := Run(c, w, events);
    assert EntryOk(c.ids(r), u.net, u.saved, r, r in u.retired);
    KeyIffSameClient(u.saved.marks[r].want, want);
    var served := u.saved.marks[r].served;
    if Without(',', served) {
      JoinInjective(served, want.scopes);
    }
  }

  /** On a server none of whose scopes has a comma, no scope with a comma is ever served. */
  lemma CommaFreeServer(table: map<string, string>, scopes: seq<string>, served: seq<string>)
    requires (forall x :: x in table ==> ',' !in x) && ServedAs(table, scopes, served)
    requires Without(',', scopes) && "" !in scopes
    ensures served == scopes
  {
    forall x | x in served ensures ',' !in x {
      var i :| 0 <= i < |served| && served[i] == x;
      assert served[i] in table;
    }
    JoinInjective(served, scopes);
  }

  // ---- Legacy adoption ------------------------------------------------------------------

  lemma HookStays(c: Context, w: World, h: Hook, r: nat)
    requires Inv(c.ids, w) && Lists(c.order) && Legal(c, w, HookEvent(h))
    requires r !in RunHook(c, w, h).retired
    ensures r !in w.retired && Stays(c.ids(r), w.net.server, RunHook(c, w, h).net.server)
  {
    BeginInv(c.ids, w, h.active);
    ReconcileInv(c, Begin(w, h.active), h.model, h.active);
  }

  /** A relation in service keeps its provider and its slug through any run. */
  lemma {:induction false} RunStays(c: Context, w: World, events: seq<Event>, r: nat)
    requires Inv(c.ids, w) && Lists(c.order) && LegalRun(c, w, events)
    requires r !in Run(c, w, events).retired
    ensures r !in w.retired && Stays(c.ids(r), w.net.server, Run(c, w, events).net.server)
    decreases |events|
  {
    if events == [] {
      SameSelf(c.ids(r), w.net.server);
      SameStays(c.ids(r), w.net.server, w.net.server);
    } else {
      var w1 := Happen(c, w, events[0]);
      HappenInv(c, w, events[0]);
      RunStays(c, w1, events[1..], r);
      EventStays(c, w, events[0], r);
      StaysTransitive(c.ids(r), w.net.server, w1.net.server, Run(c, w, events).net.server);
    }
  }

  lemma EventStays(c: Context, w: World, e: Event, r: nat)
    requires Inv(c.ids, w) && Lists(c.order) && Legal(c, w, e) && r !in Happen(c, w, e).retired
    ensures r !in w.retired && Stays(c.ids(r), w.net.server, Happen(c, w, e).net.server)
  {
    match e {
      case RoundEvent(model, active) => RoundInv(c, w, model, active);
      case HookEvent(h) => HookStays(c, w, h, r);
      case ServerEvent(s) => SameStays(c.ids(r), w.net.server, s);
      case PeerEvent =>
        SameSelf(c.ids(r), w.net.server);
        SameStays(c.ids(r), w.net.server, w.net.server);
    }
  }

  /**
   Adoption is for good. If a relation's application is found at its legacy slug, then after any
   further run, with caches kept or lost, that application still refers to the same provider, and
   every synchronization that gets through, under any faults, settles on that slug and that
   primary key, also when the provider has lost its legacy name.
   */
  lemma AdoptionIsStable(c: Context, w: World, before: seq<Event>, after: seq<Event>, r: nat, v: Provider)
    requires Initial(c, w) && LegalRun(c, w, before) && LegalRun(c, Run(c, w, before), after)
    requires var u, u' := Run(c, w, before), Run(c, Run(c, w, before), after);
      && c.ids(r).legacy in u.net.server.apps && r !in u'.retired
      && v.name == c.ids(r).provider
      && (BagOf(u'.work, r).credentials.Some? ==> BagOf(u'.work, r).credentials == Some(v.credentials))
    ensures var u, u' := Run(c, w, before), Run(c, Run(c, w, before), after);
      var legacy := c.ids(r).legacy; var app := u.net.server.apps[legacy];
      && legacy in u'.net.server.apps && u'.net.server.apps[legacy].provider == app.provider
      && app.provider.Some? && app.provider.value in u'.net.server.providers
      && var sync := SyncObjects(c, u', r, ReadCache(u'), v);
        sync.Done? ==> sync.value.slug == legacy && Some(sync.value.pk) == app.provider
  {
    Reachable(c, w, before);
    var u := Run(c, w, before);
    RunStays(c, u, after, r);
    RunInv(c, u, after);
    var u' := Run(c, u, after);
    assert Sound(c.ids(r), u.net.server) && Sound(c.ids(r), u'.net.server);
    SyncObjectsInv(c, u', r, v);
  }
}
