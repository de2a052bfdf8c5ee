/**
 The invariant of the whole state, kept by every step of every reconciliation whatever faults
 strike: remote objects are sound, and both the working and the committed copy of the peer data
 tell the truth about them.
 */
module Invariant {
  import opened Options
  import opened AuthentikServer
  import opened AuthentikApi
  import opened ConfigKey
  import opened Reconciler
  import opened Ownership
  import opened SyncProofs

  /** An entry on which the fast path may rely. */
  predicate Finished(e: Entry) { e.version == SCHEMA_VERSION && e.hash.Some? }

  /** The credentials in the relation databag are those of the remote provider. */
  ghost predicate CredentialsAgree(s: Server, l: Local, r: nat, p: Pk) {
    p in s.providers && BagOf(l, r).credentials == Some(s.providers[p].credentials)
  }

  /** The served scopes have the same joined text as the wanted ones, and the server has them all. */
  ghost predicate ServedAs(table: map<string, string>, scopes: seq<string>, served: seq<string>) {
    Join(served) == Join(scopes) && Supported(table, served) && "" !in served
  }

  /** What is wanted, with the scopes that are served for it. */
  function Serving(want: Want, served: seq<string>): Want { want.(scopes := served) }

  /** Every memorized resolution is that of scopes with this joined text. */
  ghost predicate Remembers(table: map<string, string>, resolved: map<string, Resolution>) {
    forall key :: key in resolved ==>
      && Join(resolved[key].scopes) == key && Supported(table, resolved[key].scopes) && "" !in resolved[key].scopes
      && resolved[key].mappings == MappingsOf(table, resolved[key].scopes)
  }

  /**
   The remote settings are those of the recorded hash, or were written by a request sent after
   that hash was recorded.
   */
  ghost predicate HistoryOk(n: Net, l: Local, r: nat, e: Entry, p: Pk) {
    && p in n.server.providers
    && r in l.marks && l.marks[r].at <= |n.sent|
    && e.hash == Some(DigestOf(l.marks[r].want))
    && ServedAs(n.server.mappings, l.marks[r].want.scopes, l.marks[r].served)
    && (|| n.server.providers[p].settings == SettingsOf(n.server.mappings, Serving(l.marks[r].want, l.marks[r].served))
        || PutProvider(p, n.server.providers[p]) in n.sent[l.marks[r].at..])
  }

  ghost predicate EntryOk(m: Names, n: Net, l: Local, r: nat, retired: bool)
    requires Rel(r) in l.cache
  {
    var e, s := l.cache[Rel(r)], n.server;
    && (e.slug == "" || SlugIs(m, e.slug))
    && (m.managed in s.apps ==> e.slug == m.managed)
    && (m.legacy in s.apps ==> e.slug == m.legacy)
    && (e.pk.Some? ==> e.pk.value < s.next && (e.pk.value in s.providers ==> Bears(m, s, e.pk.value)))
    && (!retired ==>
      Trusted(e) && e.slug == Home(m, s) && Bears(m, s, e.pk.value))
    && (Finished(e) && e.pk.Some? && e.pk.value in s.providers ==>
      CredentialsAgree(s, l, r, e.pk.value) && HistoryOk(n, l, r, e, e.pk.value))
  }

  ghost predicate LocalOk(ids: nat -> Names, n: Net, l: Local, retired: set<nat>) {
    forall r: nat :: Rel(r) in l.cache ==> EntryOk(ids(r), n, l, r, r in retired)
  }

  /** Credentials once committed stay as they are. */
  ghost predicate Kept(before: Local, now: Local) {
    forall r: nat :: BagOf(before, r).credentials.Some? ==> BagOf(now, r).credentials == BagOf(before, r).credentials
  }

  /** Entries of different relations never have a primary key in common, dead or alive. */
  ghost predicate Unshared(a: Local, b: Local) {
    forall r: nat, q: nat :: r != q && Rel(r) in a.cache && Rel(q) in b.cache && a.cache[Rel(r)].pk.Some? ==>
      a.cache[Rel(r)].pk != b.cache[Rel(q)].pk
  }

  ghost predicate ServerInv(ids: nat -> Names, s: Server, retired: set<nat>) {
    && Separated(ids)
    && SoundServer(ids, s)
    && forall r: nat :: r !in retired ==> Live(ids(r), s)
  }

  ghost predicate Inv(ids: nat -> Names, w: World) {
    && ServerInv(ids, w.net.server, w.retired)
    && (w.memo.Some? ==> w.memo.value == w.net.server.mappings)
    && Remembers(w.net.server.mappings, w.resolved)
    && LocalOk(ids, w.net, w.work, w.retired)
    && LocalOk(ids, w.net, w.saved, w.retired)
    && Kept(w.saved, w.work)
    && Unshared(w.work, w.work) && Unshared(w.work, w.saved) && Unshared(w.saved, w.saved)
  }

  // ---- Frames ---------------------------------------------------------------------------

  /** An entry stays true when nothing of its relation changes. */
  lemma EntryElsewhere(m: Names, n: Net, n': Net, l: Local, r: nat, retired: bool)
    requires Rel(r) in l.cache && EntryOk(m, n, l, r, retired)
    requires Same(m, n.server, n'.server) && Ages(n.server, n'.server) && n.sent <= n'.sent
    ensures EntryOk(m, n', l, r, retired)
  {
    var e := l.cache[Rel(r)];
    if !retired && Finished(e) {
      assert n.sent[l.marks[r].at..] <= n'.sent[l.marks[r].at..];
    }
  }

  /** An entry stays true while its relation is synchronized with the published credentials. */
  lemma EntryHere(ids: nat -> Names, n: Net, n': Net, l: Local, r: nat, v: Provider)
    requires Rel(r) in l.cache && EntryOk(ids(r), n, l, r, false)
    requires Progress(ids, r, v, n, n')
    requires Finished(l.cache[Rel(r)]) ==> BagOf(l, r).credentials == Some(v.credentials)
    ensures EntryOk(ids(r), n', l, r, false)
  {
    var e := l.cache[Rel(r)];
    var p := e.pk.value;
    assert Bears(ids(r), n'.server, p);
    if Finished(e) {
      var at := l.marks[r].at;
      assert n'.sent[at..] == n'.sent[at..|n.sent|] + n'.sent[|n.sent|..];
      assert n.sent[at..] == n'.sent[at..|n.sent|];
    }
  }

  lemma LocalProgress(ids: nat -> Names, n: Net, n': Net, l: Local, r: nat, v: Provider, retired: set<nat>)
    requires LocalOk(ids, n, l, retired) && r !in retired
    requires Progress(ids, r, v, n, n')
    requires Rel(r) in l.cache && Finished(l.cache[Rel(r)]) ==> BagOf(l, r).credentials == Some(v.credentials)
    ensures LocalOk(ids, n', l, retired)
  {
    forall q: nat | Rel(q) in l.cache ensures EntryOk(ids(q), n', l, q, q in retired) {
      if q == r {
        EntryHere(ids, n, n', l, r, v);
      } else {
        EntryElsewhere(ids(q), n, n', l, q, q in retired);
      }
    }
  }

  lemma ServerProgress(ids: nat -> Names, n: Net, n': Net, r: nat, v: Provider, retired: set<nat>)
    requires ServerInv(ids, n.server, retired) && r !in retired && Progress(ids, r, v, n, n')
    ensures ServerInv(ids, n'.server, retired)
  {
    ProgressSound(ids, r, v, n, n');
    forall q: nat | q !in retired ensures Live(ids(q), n'.server) {
      if q != r {
        SameLive(ids(q), n.server, n'.server);
      }
    }
  }

  /** More requests that changed nothing. */
  lemma LocalRead(ids: nat -> Names, n: Net, n': Net, l: Local, retired: set<nat>)
    requires LocalOk(ids, n, l, retired) && Numbered(n.server)
    requires n'.server == n.server && n.sent <= n'.sent
    ensures LocalOk(ids, n', l, retired)
  {
    forall q: nat | Rel(q) in l.cache ensures EntryOk(ids(q), n', l, q, q in retired) {
      EntryElsewhere(ids(q), n, n', l, q, q in retired);
    }
  }

  lemma ReadInv(ids: nat -> Names, w: World, w': World)
    requires Inv(ids, w) && w' == w.(net := w'.net, memo := w'.memo, resolved := w'.resolved)
    requires w'.net.server == w.net.server && w.net.sent <= w'.net.sent
    requires (w'.memo.Some? ==> w'.memo.value == w.net.server.mappings) && Remembers(w.net.server.mappings, w'.resolved)
    ensures Inv(ids, w')
  {
    LocalRead(ids, w.net, w'.net, w.work, w.retired);
    LocalRead(ids, w.net, w'.net, w.saved, w.retired);
  }

  /** A databag write that touches no credentials that are there. */
  lemma BagInv(ids: nat -> Names, w: World, w': World)
    requires Inv(ids, w)
    requires w' == w.(work := w.work.(bags := w'.work.bags))
    requires Kept(w.work, w'.work)
    ensures Inv(ids, w')
  {
    forall q: nat | Rel(q) in w'.work.cache ensures EntryOk(ids(q), w'.net, w'.work, q, q in w.retired) {
      assert EntryOk(ids(q), w.net, w.work, q, q in w.retired);
    }
  }

  lemma PublishInv(ids: nat -> Names, w: World, host: string, id: nat, slug: string, scopes: seq<string>)
    requires Inv(ids, w)
    ensures Inv(ids, Publish(w, host, id, slug, scopes))
  {
    BagInv(ids, w, Publish(w, host, id, slug, scopes));
  }

  /** Flow caches carry no obligation. */
  lemma FlowInv(ids: nat -> Names, w: World, w': World)
    requires Inv(ids, w)
    requires w' == w.(work := w.work.(authorization := w'.work.authorization, invalidation := w'.work.invalidation))
    ensures Inv(ids, w')
  {
    forall q: nat | Rel(q) in w'.work.cache ensures EntryOk(ids(q), w'.net, w'.work, q, q in w.retired) {
      assert EntryOk(ids(q), w.net, w.work, q, q in w.retired);
    }
  }

  // ---- One relation ---------------------------------------------------------------------

  /** A live provider of one relation is in no entry of another. */
  lemma NotElsewhere(ids: nat -> Names, n: Net, l: Local, retired: set<nat>, id: nat, p: Pk, q: nat)
    requires Separated(ids) && LocalOk(ids, n, l, retired) && Bears(ids(id), n.server, p)
    requires q != id && Rel(q) in l.cache
    ensures l.cache[Rel(q)].pk != Some(p)
  {
    assert EntryOk(ids(q), n, l, q, q in retired);
    assert Apart(ids(id), ids(q));
  }

  /** Sharing cannot begin while one entry changes to name a live provider, or nothing new. */
  lemma UnsharedStep(ids: nat -> Names, w: World, w': World, id: nat)
    requires Inv(ids, w) && w'.saved == w.saved
    requires w.work.cache - {Rel(id)} == w'.work.cache - {Rel(id)}
    requires Rel(id) in w'.work.cache && w'.work.cache[Rel(id)].pk.Some? ==>
      || Bears(ids(id), w.net.server, w'.work.cache[Rel(id)].pk.value)
      || (Rel(id) in w.work.cache && w'.work.cache[Rel(id)].pk == w.work.cache[Rel(id)].pk)
    ensures Unshared(w'.work, w'.work) && Unshared(w'.work, w'.saved)
  {
    forall q: nat | q != id ensures Rel(q) in w.work.cache <==> Rel(q) in w'.work.cache
      ensures Rel(q) in w.work.cache ==> w.work.cache[Rel(q)] == w'.work.cache[Rel(q)]
    {
      assert Rel(q) in w.work.cache - {Rel(id)} <==> Rel(q) in w'.work.cache - {Rel(id)};
    }
    forall q: nat | q != id && Rel(id) in w'.work.cache && w'.work.cache[Rel(id)].pk.Some?
      ensures Rel(q) in w.work.cache ==> w.work.cache[Rel(q)].pk != w'.work.cache[Rel(id)].pk
      ensures Rel(q) in w.saved.cache ==> w.saved.cache[Rel(q)].pk != w'.work.cache[Rel(id)].pk
    {
      var p := w'.work.cache[Rel(id)].pk.value;
      if Bears(ids(id), w.net.server, p) {
        if Rel(q) in w.work.cache {
          NotElsewhere(ids, w.net, w.work, w.retired, id, p, q);
        }
        if Rel(q) in w.saved.cache {
          NotElsewhere(ids, w.net, w.saved, w.retired, id, p, q);
        }
      }
    }
  }

  /** A change of the relation's own entry to a true one without a hash. */
  lemma CacheStepInv(ids: nat -> Names, w: World, w': World, id: nat)
    requires Inv(ids, w) && id !in w.retired
    requires w' == w.(work := w.work.(cache := w'.work.cache))
    requires CacheStep(ids(id), id, w.net.server, w.work.cache, w'.work.cache)
    ensures Inv(ids, w')
  {
    assert Sound(ids(id), w.net.server);
    UnsharedStep(ids, w, w', id);
    forall q: nat | Rel(q) in w'.work.cache ensures EntryOk(ids(q), w'.net, w'.work, q, q in w.retired) {
      if q != id {
        assert Rel(q) in w'.work.cache - {Rel(id)};
        assert Rel(q) in w.work.cache && w.work.cache[Rel(q)] == w'.work.cache[Rel(q)];
        assert EntryOk(ids(q), w.net, w.work, q, q in w.retired);
      } else if w'.work.cache == w.work.cache {
        assert EntryOk(ids(q), w.net, w.work, q, false);
      } else {
        assert Numbered(w.net.server);
      }
    }
  }

  /** Progress on the server, with the working copy as it was. */
  lemma ProgressInv(ids: nat -> Names, w: World, w': World, id: nat, v: Provider)
    requires Inv(ids, w) && id !in w.retired && w' == w.(net := w'.net)
    requires Progress(ids, id, v, w.net, w'.net)
    requires BagOf(w.work, id).credentials.Some? ==> BagOf(w.work, id).credentials == Some(v.credentials)
    ensures Inv(ids, w')
  {
    ServerProgress(ids, w.net, w'.net, id, v, w.retired);
    assert Rel(id) in w.work.cache ==> EntryOk(ids(id), w.net, w.work, id, false);
    assert Rel(id) in w.saved.cache ==> EntryOk(ids(id), w.net, w.saved, id, false);
    LocalProgress(ids, w.net, w'.net, w.work, id, v, w.retired);
    LocalProgress(ids, w.net, w'.net, w.saved, id, v, w.retired);
  }

  /** What the provider of a relation is to hold. */
  ghost function PayloadFor(c: Context, w: World, id: nat, credentials: Credentials, want: Want,
      served: seq<string>): Provider {
    Provider(c.ids(id).provider, credentials, SettingsOf(w.net.server.mappings, Serving(want, served)))
  }

  lemma CompleteInv(c: Context, w: World, rel: Relation, found: Found, credentials: Credentials, isNew: bool,
      want: Want, served: seq<string>)
    requires Inv(c.ids, w) && rel.id !in w.retired
    requires w.peer ==> found.cache - {Rel(rel.id)} == w.work.cache - {Rel(rel.id)}
    requires found.slug == Home(c.ids(rel.id), w.net.server)
    requires ServedAs(w.net.server.mappings, want.scopes, served)
    requires Synced(w.net.server, found.slug, found.pk, PayloadFor(c, w, rel.id, credentials, want, served))
    requires isNew <==> BagOf(w.work, rel.id).credentials.None?
    requires !isNew ==> BagOf(w.work, rel.id).credentials == Some(credentials)
    ensures Inv(c.ids, Complete(c, w, rel, found, credentials, isNew, want, served))
  {
    var id := rel.id;
    var w1 := Publish(w, c.host, id, found.slug, want.scopes);
    PublishInv(c.ids, w, c.host, id, found.slug, want.scopes);
    var w2 := if isNew then PublishCredentials(w1, id, credentials) else w1;
    BagInv(c.ids, w1, w2);
    var w' := Complete(c, w, rel, found, credentials, isNew, want, served);
    if w.peer {
      assert Sound(c.ids(id), w.net.server) && Numbered(w.net.server);
      assert w2.work.cache - {Rel(id)} == w'.work.cache - {Rel(id)};
      assert EntryOk(c.ids(id), w'.net, w'.work, id, false);
      NewEntryInv(c.ids, w2, w', id);
    }
  }

  /** A new entry that is true keeps the invariant. */
  lemma NewEntryInv(ids: nat -> Names, w: World, w': World, id: nat)
    requires Inv(ids, w) && id !in w.retired
    requires w' == w.(work := w.work.(cache := w'.work.cache, marks := w'.work.marks))
    requires forall q: nat :: q != id ==>
      (q in w.work.marks <==> q in w'.work.marks) && (q in w.work.marks ==> w.work.marks[q] == w'.work.marks[q])
    requires w.work.cache - {Rel(id)} == w'.work.cache - {Rel(id)}
    requires Rel(id) in w'.work.cache && EntryOk(ids(id), w'.net, w'.work, id, false)
    ensures Inv(ids, w')
  {
    UnsharedStep(ids, w, w', id);
    forall q: nat | Rel(q) in w'.work.cache ensures EntryOk(ids(q), w'.net, w'.work, q, q in w.retired) {
      if q != id {
        assert Rel(q) in w'.work.cache - {Rel(id)};
        assert Rel(q) in w.work.cache - {Rel(id)} && w.work.cache[Rel(q)] == w'.work.cache[Rel(q)];
        assert EntryOk(ids(q), w.net, w.work, q, q in w.retired);
      }
    }
  }

  /** The scopes for which mappings are found: those remembered under the same joined text, else these. */
  function Served(w: World, scopes: seq<string>): seq<string> {
    if Join(scopes) in w.resolved then w.resolved[Join(scopes)].scopes else scopes
  }

  /** What is remembered once mappings for the scopes have been found. */
  function Remember(w: World, scopes: seq<string>): map<string, Resolution> {
    w.resolved[Join(scopes) := Resolution(MappingsOf(w.net.server.mappings, Served(w, scopes)), Served(w, scopes))]
  }

  lemma ResolveMappingsOutcome(c: Context, w: World, scopes: seq<string>)
    requires Inv(c.ids, w) && "" !in scopes
    ensures var r := ResolveMappings(c, w, scopes);
      && r.world == w.(net := r.world.net, memo := r.world.memo, resolved := r.world.resolved)
      && r.world.net.server == w.net.server && w.net.sent <= r.world.net.sent
      && Inv(c.ids, r.world)
      && (r.Done? ==>
        && ServedAs(w.net.server.mappings, scopes, Served(w, scopes))
        && r.value == Resolution(MappingsOf(w.net.server.mappings, Served(w, scopes)), Served(w, scopes))
        && r.world.resolved == Remember(w, scopes))
      && (r.Raised? ==> r.world.resolved == w.resolved)
      && (Calm(c.faults, |w.net.sent|) ==>
        if Supported(w.net.server.mappings, Served(w, scopes)) then r.Done? else r.Raised? && r.error == Validation)
  {
    var r := ResolveMappings(c, w, scopes);
    if Join(scopes) in w.resolved {
      assert Remember(w, scopes) == w.resolved;
    } else if w.memo.None? {
      ReadMappingsOutcome(c.faults, w.net);
    }
    ReadInv(c.ids, w, r.world);
  }

  /** What the slow path makes of the server and the cache when it gets to the end. */
  ghost predicate Converged(c: Context, w: World, id: nat, want: Want, served: seq<string>) {
    var s := w.net.server;
    && ServedAs(s.mappings, want.scopes, served)
    && exists pk ::
      && Synced(s, Home(c.ids(id), s), pk, PayloadFor(c, w, id, RemoteCredentials(s, pk), want, served))
      && (w.peer ==>
        && EntryOf(w.work.cache, id) == Entry(SCHEMA_VERSION, Some(DigestOf(want)), Some(pk), Home(c.ids(id), s))
        && Rel(id) in w.work.cache)
      && BagOf(w.work, id).credentials == Some(RemoteCredentials(s, pk))
      && BagOf(w.work, id).info == Some(Published(c.host, Home(c.ids(id), s), want.scopes))
  }

  /**
   The settings of a provider field by field: the URIs, flows and grant types given, and for each
   served scope the server's mapping of it.
   */
  ghost predicate Configured(v: Settings, table: map<string, string>, uris: seq<string>, grants: seq<string>,
      authorization: string, invalidation: string, served: seq<string>) {
    && v.uris == uris && v.grants == grants
    && v.authorization == authorization && v.invalidation == invalidation
    && |v.mappings| == |served|
    && forall i :: 0 <= i < |served| ==> served[i] in table && v.mappings[i] == table[served[i]]
  }

  /** What a converged relation has on the server and in its databag, in terms of what was asked for. */
  lemma ConvergedMeans(c: Context, w: World, rel: Relation, authorization: string, invalidation: string,
      served: seq<string>) returns (pk: Pk)
    requires rel.client.Valid? && Converged(c, w, rel.id, WantOf(rel, authorization, invalidation), served)
    ensures var n, s, bag := c.ids(rel.id), w.net.server, BagOf(w.work, rel.id);
      && pk in s.providers && s.providers[pk].name == n.provider
      && Configured(s.providers[pk].settings, s.mappings, Stripped(rel.client.uris), Stripped(rel.client.grants),
                    authorization, invalidation, served)
      && Home(n, s) in s.apps && s.apps[Home(n, s)] == Application(n.provider, Some(pk))
      && bag.credentials == Some(s.providers[pk].credentials)
      && bag.info == Some(Published(c.host, Home(n, s), Scopes(rel.scope)))
  {
    var n, s, want := c.ids(rel.id), w.net.server, WantOf(rel, authorization, invalidation);
    pk :| && Synced(s, Home(n, s), pk, PayloadFor(c, w, rel.id, RemoteCredentials(s, pk), want, served))
          && BagOf(w.work, rel.id).credentials == Some(RemoteCredentials(s, pk))
          && BagOf(w.work, rel.id).info == Some(Published(c.host, Home(n, s), want.scopes));
  }

  ghost function RemoteCredentials(s: Server, pk: Pk): Credentials {
    if pk in s.providers then s.providers[pk].credentials else Credentials("", "")
  }

  lemma CompleteConverged(c: Context, w: World, rel: Relation, found: Found, credentials: Credentials, isNew: bool,
      want: Want, served: seq<string>)
    requires found.slug == Home(c.ids(rel.id), w.net.server)
    requires ServedAs(w.net.server.mappings, want.scopes, served)
    requires Synced(w.net.server, found.slug, found.pk, PayloadFor(c, w, rel.id, credentials, want, served))
    requires !isNew ==> BagOf(w.work, rel.id).credentials == Some(credentials)
    ensures Converged(c, Complete(c, w, rel, found, credentials, isNew, want, served), rel.id, want, served)
  {
    var w' := Complete(c, w, rel, found, credentials, isNew, want, served);
    assert w'.net == w.net;
    assert Synced(w'.net.server, found.slug, found.pk,
      PayloadFor(c, w', rel.id, RemoteCredentials(w'.net.server, found.pk), want, served));
  }

  /** The cache entry and the databag of every relation but `ids` are as they were. */
  ghost predicate OnlyEntries(w: World, w': World, ids: set<nat>) {
    && (forall k: Key :: !(k.Rel? && k.id in ids) ==>
      && (k in w.work.cache <==> k in w'.work.cache)
      && (k in w.work.cache ==> w.work.cache[k] == w'.work.cache[k]))
    && (forall q: nat :: q !in ids ==>
      && (q in w.work.bags <==> q in w'.work.bags)
      && (q in w.work.bags ==> w.work.bags[q] == w'.work.bags[q]))
    && w'.work.authorization == w.work.authorization && w'.work.invalidation == w.work.invalidation
  }

  /** Nothing of any relation but `ids` changes, neither here nor on the server. */
  ghost predicate Confined(names: nat -> Names, w: World, w': World, ids: set<nat>) {
    && OnlyEntries(w, w', ids)
    && forall q: nat :: q !in ids ==> Same(names(q), w.net.server, w'.net.server)
  }

  lemma ConfinedTransitive(names: nat -> Names, w: World, w1: World, w2: World, first: set<nat>, rest: set<nat>)
    requires Confined(names, w, w1, first) && Confined(names, w1, w2, rest)
    ensures Confined(names, w, w2, first + rest)
  {
    forall q: nat | q !in first + rest ensures Same(names(q), w.net.server, w2.net.server) {
      SameTransitive(names(q), w.net.server, w1.net.server, w2.net.server);
    }
    forall k: Key | !(k.Rel? && k.id in first + rest)
      ensures (k in w.work.cache <==> k in w2.work.cache) && (k in w.work.cache ==> w.work.cache[k] == w2.work.cache[k])
    {
      assert k in w.work.cache <==> k in w1.work.cache;
    }
  }

  lemma OneEntry(w: World, w': World, id: nat)
    requires w.work.cache - {Rel(id)} == w'.work.cache - {Rel(id)}
    requires w.work.bags - {id} == w'.work.bags - {id}
    requires w'.work.authorization == w.work.authorization && w'.work.invalidation == w.work.invalidation
    ensures OnlyEntries(w, w', {id})
  {
    forall k: Key | !(k.Rel? && k.id in {id})
      ensures (k in w.work.cache <==> k in w'.work.cache) && (k in w.work.cache ==> w.work.cache[k] == w'.work.cache[k])
    {
      assert k in w.work.cache - {Rel(id)} <==> k in w'.work.cache - {Rel(id)};
    }
    forall q: nat | q !in {id}
      ensures (q in w.work.bags <==> q in w'.work.bags) && (q in w.work.bags ==> w.work.bags[q] == w'.work.bags[q])
    {
      assert q in w.work.bags - {id} <==> q in w'.work.bags - {id};
    }
  }

  /** What stays fixed while a hook works; every relation in service keeps its objects. */
  ghost predicate Working(ids: nat -> Names, w: World, w': World) {
    && (forall r: nat :: r !in w.retired ==> Stays(ids(r), w.net.server, w'.net.server))
    && w'.saved == w.saved && w'.retired == w.retired && w'.peer == w.peer
    && w.net.sent <= w'.net.sent
    && w'.net.server.accepted == w.net.server.accepted && w'.net.server.current == w.net.server.current
    && w'.net.server.mappings == w.net.server.mappings
  }

  lemma WorkingTransitive(ids: nat -> Names, w: World, w1: World, w2: World)
    requires Working(ids, w, w1) && Working(ids, w1, w2)
    ensures Working(ids, w, w2)
  {
    forall r: nat | r !in w.retired ensures Stays(ids(r), w.net.server, w2.net.server) {
      StaysTransitive(ids(r), w.net.server, w1.net.server, w2.net.server);
    }
  }

  /** Work for one relation is work of the hook. */
  lemma ProgressWorking(ids: nat -> Names, w: World, w': World, id: nat, v: Provider)
    requires Progress(ids, id, v, w.net, w'.net)
    requires w'.saved == w.saved && w'.retired == w.retired && w'.peer == w.peer
    ensures Working(ids, w, w')
  {
    forall r: nat | r !in w.retired ensures Stays(ids(r), w.net.server, w'.net.server) {
      if r != id {
        SameStays(ids(r), w.net.server, w'.net.server);
      }
    }
  }

  /** Bringing the objects of a relation up to date keeps the invariant at every point. */
  lemma SyncObjectsInv(c: Context, w: World, id: nat, v: Provider)
    requires Inv(c.ids, w) && id !in w.retired
    requires v.name == c.ids(id).provider
    requires BagOf(w.work, id).credentials.Some? ==> BagOf(w.work, id).credentials == Some(v.credentials)
    ensures var r := SyncObjects(c, w, id, ReadCache(w), v);
      && Inv(c.ids, r.world) && Working(c.ids, w, r.world) && Confined(c.ids, w, r.world, {id})
      && r.world.work == w.work.(cache := r.world.work.cache)
      && r.world.work.cache - {Rel(id)} == w.work.cache - {Rel(id)}
      && SyncFacts(c, w, id, ReadCache(w), v, r)
      && (r.Done? && w.peer ==> r.value.cache - {Rel(id)} == r.world.work.cache - {Rel(id)})
  {
    var cache := ReadCache(w);
    assert Rel(id) in w.work.cache ==> EntryOk(c.ids(id), w.net, w.work, id, false);
    SyncObjectsOutcome(c, w, id, cache, v);
    var r := SyncObjects(c, w, id, cache, v);
    var w1 := w.(net := r.world.net);
    ProgressInv(c.ids, w, w1, id, v);
    CacheStepInv(c.ids, w1, r.world, id);
    ProgressWorking(c.ids, w, r.world, id, v);
    OneEntry(w, r.world, id);
  }

  /** The whole of `Complete`, after the objects are up to date. */
  lemma CompleteOutcome(c: Context, w: World, rel: Relation, found: Found, credentials: Credentials, isNew: bool,
      want: Want, served: seq<string>)
    requires Inv(c.ids, w) && rel.id !in w.retired
    requires w.peer ==> found.cache - {Rel(rel.id)} == w.work.cache - {Rel(rel.id)}
    requires found.slug == Home(c.ids(rel.id), w.net.server)
    requires ServedAs(w.net.server.mappings, want.scopes, served)
    requires Synced(w.net.server, found.slug, found.pk, PayloadFor(c, w, rel.id, credentials, want, served))
    requires isNew <==> BagOf(w.work, rel.id).credentials.None?
    requires !isNew ==> BagOf(w.work, rel.id).credentials == Some(credentials)
    ensures var w' := Complete(c, w, rel, found, credentials, isNew, want, served);
      Inv(c.ids, w') && Working(c.ids, w, w') && Confined(c.ids, w, w', {rel.id})
          && Converged(c, w', rel.id, want, served)
  {
    CompleteInv(c, w, rel, found, credentials, isNew, want, served);
    CompleteConverged(c, w, rel, found, credentials, isNew, want, served);
    CompleteConfined(c, w, rel, found, credentials, isNew, want, served);
  }

  lemma CompleteConfined(c: Context, w: World, rel: Relation, found: Found, credentials: Credentials, isNew: bool,
      want: Want, served: seq<string>)
    requires w.peer ==> found.cache - {Rel(rel.id)} == w.work.cache - {Rel(rel.id)}
    ensures var w' := Complete(c, w, rel, found, credentials, isNew, want, served);
      Working(c.ids, w, w') && Confined(c.ids, w, w', {rel.id})
  {
    var w' := Complete(c, w, rel, found, credentials, isNew, want, served);
    assert w'.net == w.net;
    assert w'.work.bags - {rel.id} == w.work.bags - {rel.id};
    assert w'.work.cache - {Rel(rel.id)} == w.work.cache - {Rel(rel.id)};
    OneEntry(w, w', rel.id);
    NoChange(c.ids, w, w');
  }

  /** The server is as it was. */
  lemma NoChange(ids: nat -> Names, w: World, w': World)
    requires w'.net.server == w.net.server && w.net.sent <= w'.net.sent
    requires w'.saved == w.saved && w'.retired == w.retired && w'.peer == w.peer
    ensures Working(ids, w, w') && forall q: nat :: Same(ids(q), w.net.server, w'.net.server)
  {
    forall q: nat ensures Same(ids(q), w.net.server, w'.net.server) && Stays(ids(q), w.net.server, w'.net.server) {
      SameSelf(ids(q), w.net.server);
      SameStays(ids(q), w.net.server, w'.net.server);
    }
  }

  /** The slow path with credentials and mappings at hand: the invariant at every cut, and the end. */
  lemma ConvergeWithInv(c: Context, w: World, rel: Relation, credentials: Credentials, isNew: bool, want: Want,
      served: seq<string>)
    requires Inv(c.ids, w) && rel.id !in w.retired && ServedAs(w.net.server.mappings, want.scopes, served)
    requires isNew <==> BagOf(w.work, rel.id).credentials.None?
    requires !isNew ==> BagOf(w.work, rel.id).credentials == Some(credentials)
    ensures var found := Resolution(MappingsOf(w.net.server.mappings, served), served);
      var r := ConvergeWith(c, w, rel, ReadCache(w), credentials, isNew, found, want);
      && Inv(c.ids, r.world) && Working(c.ids, w, r.world) && Confined(c.ids, w, r.world, {rel.id})
      && r.world.resolved == w.resolved
      && (r.Done? ==> Converged(c, r.world, rel.id, want, served))
      && (Calm(c.faults, |w.net.sent|) ==>
        if want.authorization in w.net.server.accepted && want.invalidation in w.net.server.accepted
        then r.Done? else r.Raised? && r.error == Validation)
  {
    var v := PayloadFor(c, w, rel.id, credentials, want, served);
    SyncObjectsInv(c, w, rel.id, v);
    var r := SyncObjects(c, w, rel.id, ReadCache(w), v);
    if r.Done? {
      CompleteOutcome(c, r.world, rel, r.value, credentials, isNew, want, served);
      var w' := Complete(c, r.world, rel, r.value, credentials, isNew, want, served);
      WorkAfter(c, w, r.world, w', rel.id);
    }
  }

  /** The secret of published credentials was not deleted. */
  predicate SecretKept(l: Local, rel: Relation) { BagOf(l, rel.id).credentials.Some? ==> !rel.secret.Deleted? }

  /** What the server and the databag have against bringing a relation to `want`, if anything. */
  function Obstacle(w: World, rel: Relation, want: Want): Option<ApiError> {
    if BagOf(w.work, rel.id).credentials.Some? && rel.secret.Unreadable? then Some(Transient)
    else if !Supported(w.net.server.mappings, Served(w, want.scopes)) then Some(Validation)
    else if !(want.authorization in w.net.server.accepted && want.invalidation in w.net.server.accepted)
        then Some(Validation)
    else None
  }

  /** Without faults a step fails exactly on an obstacle, with its error. */
  ghost predicate Decides(r: Step<()>, obstacle: Option<ApiError>) {
    match obstacle
    case None => r.Done?
    case Some(e) => r.Raised? && r.error == e
  }

  ghost predicate ConvergeFacts(c: Context, w: World, rel: Relation, want: Want, r: Step<()>) {
    && Inv(c.ids, r.world) && Working(c.ids, w, r.world) && Confined(c.ids, w, r.world, {rel.id})
    && (r.Done? ==>
      Converged(c, r.world, rel.id, want, Served(w, want.scopes)) && r.world.resolved == Remember(w, want.scopes))
    && (Calm(c.faults, |w.net.sent|) ==> Decides(r, Obstacle(w, rel, want)))
  }

  lemma ConvergeInv(c: Context, w: World, rel: Relation, want: Want)
    requires Inv(c.ids, w) && rel.id !in w.retired && SecretKept(w.work, rel) && "" !in want.scopes
    ensures ConvergeFacts(c, w, rel, want, Converge(c, w, rel, ReadCache(w), want))
  {
    var r1 := ObtainCredentials(c, w, rel);
    if r1.Done? {
      ResolveMappingsOutcome(c, w, want.scopes);
      var r2 := ResolveMappings(c, w, want.scopes);
      if r2.Done? {
        ConvergeResolved(c, w, r2.world, rel, r1.value.0, r1.value.1, want);
      } else {
        OnlyReadInv(c, w, r2.world, rel.id);
      }
    } else {
      OnlyReadInv(c, w, w, rel.id);
    }
  }

  lemma OnlyReadInv(c: Context, w: World, w1: World, id: nat)
    requires w1 == w.(net := w1.net, memo := w1.memo, resolved := w1.resolved)
    requires w1.net.server == w.net.server && w.net.sent <= w1.net.sent
    ensures Working(c.ids, w, w1) && Confined(c.ids, w, w1, {id})
  {
    NoChange(c.ids, w, w1);
  }

  /** The slow path once the scope mappings are known. */
  lemma ConvergeResolved(c: Context, w: World, w2: World, rel: Relation, credentials: Credentials, isNew: bool,
      want: Want)
    requires Inv(c.ids, w) && Inv(c.ids, w2) && rel.id !in w.retired
    requires ServedAs(w.net.server.mappings, want.scopes, Served(w, want.scopes))
    requires w2 == w.(net := w2.net, memo := w2.memo, resolved := Remember(w, want.scopes))
    requires w2.net.server == w.net.server && w.net.sent <= w2.net.sent
    requires isNew <==> BagOf(w.work, rel.id).credentials.None?
    requires !isNew ==> BagOf(w.work, rel.id).credentials == Some(credentials) && !rel.secret.Unreadable?
    ensures var served := Served(w, want.scopes);
      var found := Resolution(MappingsOf(w.net.server.mappings, served), served);
      ConvergeFacts(c, w, rel, want, ConvergeWith(c, w2, rel, ReadCache(w), credentials, isNew, found, want))
  {
    var served := Served(w, want.scopes);
    ConvergeWithInv(c, w2, rel, credentials, isNew, want, served);
    var found := Resolution(MappingsOf(w.net.server.mappings, served), served);
    var r := ConvergeWith(c, w2, rel, ReadCache(w), credentials, isNew, found, want);
    ReadThenWork(c, w, w2, r.world, rel.id);
  }

  /** Reading changes nothing, so what comes after it is all there is. */
  lemma ReadThenWork(c: Context, w: World, w1: World, w2: World, id: nat)
    requires w1 == w.(net := w1.net, memo := w1.memo, resolved := w1.resolved)
    requires w1.net.server == w.net.server && w.net.sent <= w1.net.sent
    requires Working(c.ids, w1, w2) && Confined(c.ids, w1, w2, {id})
    ensures Working(c.ids, w, w2) && Confined(c.ids, w, w2, {id})
  {}

  /** The fast path would not be taken. */
  predicate NeedsWrite(w: World, rel: Relation, authorization: string, invalidation: string) {
    rel.ready && rel.client.Valid? && !Hit(EntryOf(ReadCache(w), rel.id), WantOf(rel, authorization, invalidation))
  }

  /** What is remembered of mappings after a synchronization that gets through. */
  function Learned(w: World, rel: Relation, authorization: string, invalidation: string): map<string, Resolution> {
    if NeedsWrite(w, rel, authorization, invalidation) then Remember(w, Scopes(rel.scope)) else w.resolved
  }

  /** What will stop the synchronization of a relation when nothing goes wrong in transit. */
  function Hindrance(w: World, rel: Relation, authorization: string, invalidation: string): Option<ApiError> {
    if NeedsWrite(w, rel, authorization, invalidation)
    then Obstacle(w, rel, WantOf(rel, authorization, invalidation))
    else None
  }

  lemma PublishConfined(c: Context, w: World, host: string, id: nat, slug: string, scopes: seq<string>)
    ensures var w1 := Publish(w, host, id, slug, scopes);
      Working(c.ids, w, w1) && Confined(c.ids, w, w1, {id})
  {
    var w1 := Publish(w, host, id, slug, scopes);
    NoChange(c.ids, w, w1);
    assert w1.work.bags - {id} == w.work.bags - {id};
    OneEntry(w, w1, id);
  }

  /** The slow path after the first publication. */
  lemma SyncWrites(c: Context, w: World, w1: World, rel: Relation, want: Want)
    requires Inv(c.ids, w) && Inv(c.ids, w1) && rel.id !in w.retired && SecretKept(w.work, rel)
    requires w1 == w.(work := w.work.(bags := w1.work.bags))
    requires BagOf(w1.work, rel.id).credentials == BagOf(w.work, rel.id).credentials && "" !in want.scopes
    requires Working(c.ids, w, w1) && Confined(c.ids, w, w1, {rel.id})
    ensures ConvergeFacts(c, w, rel, want, Converge(c, w1, rel, ReadCache(w), want))
  {
    ConvergeInv(c, w1, rel, want);
    ObstacleSame(w, w1, rel, want);
    WorkAfter(c, w, w1, Converge(c, w1, rel, ReadCache(w1), want).world, rel.id);
  }

  lemma ObstacleSame(w: World, w1: World, rel: Relation, want: Want)
    requires w1.net == w.net && BagOf(w1.work, rel.id).credentials == BagOf(w.work, rel.id).credentials
    requires w1.resolved == w.resolved
    ensures Obstacle(w1, rel, want) == Obstacle(w, rel, want)
  {}

  lemma WorkAfter(c: Context, w: World, w1: World, w2: World, id: nat)
    requires Working(c.ids, w, w1) && Confined(c.ids, w, w1, {id})
    requires Working(c.ids, w1, w2) && Confined(c.ids, w1, w2, {id})
    ensures Working(c.ids, w, w2) && Confined(c.ids, w, w2, {id})
  {
    WorkingTransitive(c.ids, w, w1, w2);
    ConfinedTransitive(c.ids, w, w1, w2, {id}, {id});
    assert {id} + {id} == {id};
  }

  lemma SyncRelationInv(c: Context, w: World, rel: Relation, authorization: string, invalidation: string)
    requires Inv(c.ids, w) && rel.id !in w.retired && SecretKept(w.work, rel)
    ensures var r := SyncRelation(c, w, rel, authorization, invalidation);
      && Inv(c.ids, r.world) && Working(c.ids, w, r.world) && Confined(c.ids, w, r.world, {rel.id})
      && (!NeedsWrite(w, rel, authorization, invalidation) ==>
        r.Done? && r.world.net == w.net && r.world.work.cache == w.work.cache && r.world.memo == w.memo)
      && (r.Done? ==> r.world.resolved == Learned(w, rel, authorization, invalidation))
      && (NeedsWrite(w, rel, authorization, invalidation) && r.Done? ==>
        Converged(c, r.world, rel.id, WantOf(rel, authorization, invalidation), Served(w, Scopes(rel.scope))))
      && (Calm(c.faults, |w.net.sent|) ==> Decides(r, Hindrance(w, rel, authorization, invalidation)))
  {
    if !rel.ready {
      OnlyReadInv(c, w, w, rel.id);
    } else {
      var slug := SlugOf(c.ids(rel.id), EntryOf(ReadCache(w), rel.id));
      PublishInv(c.ids, w, c.host, rel.id, slug, Scopes(rel.scope));
      var w1 := Publish(w, c.host, rel.id, slug, Scopes(rel.scope));
      PublishConfined(c, w, c.host, rel.id, slug, Scopes(rel.scope));
      if NeedsWrite(w, rel, authorization, invalidation) {
        ScopesCanonical(rel.scope);
        SyncWrites(c, w, w1, rel, WantOf(rel, authorization, invalidation));
      }
    }
  }

  /** The relations Juju hands out carry the ids they are asked for, and no client secret is deleted. */
  ghost predicate ModelOk(model: map<nat, Relation>) {
    forall i :: i in model ==> model[i].id == i && !model[i].secret.Deleted?
  }

  lemma FirstThenRest(c: Context, w: World, w1: World, w2: World, ids: seq<nat>)
    requires ids != []
    requires Working(c.ids, w, w1) && Confined(c.ids, w, w1, {ids[0]})
    requires Working(c.ids, w1, w2) && Confined(c.ids, w1, w2, ToSet(ids[1..]))
    ensures Working(c.ids, w, w2) && Confined(c.ids, w, w2, ToSet(ids))
  {
    assert ToSet(ids) == {ids[0]} + ToSet(ids[1..]);
    WorkingTransitive(c.ids, w, w1, w2);
    ConfinedTransitive(c.ids, w, w1, w2, {ids[0]}, ToSet(ids[1..]));
  }

  lemma SyncAllInv(c: Context, w: World, model: map<nat, Relation>, ids: seq<nat>, authorization: string,
      invalidation: string)
    requires Inv(c.ids, w) && ModelOk(model) && forall i :: i in ids ==> i !in w.retired
    ensures var r := SyncAll(c, w, model, ids, authorization, invalidation);
      Inv(c.ids, r.world) && Working(c.ids, w, r.world) && Confined(c.ids, w, r.world, ToSet(ids))
    decreases |ids|
  {
    NoChange(c.ids, w, w);
    if ids != [] {
      assert ids[0] in ids;
      var r1 := if ids[0] in model then SyncRelation(c, w, model[ids[0]], authorization, invalidation) else Done(w, ());
      if ids[0] in model {
        SyncRelationInv(c, w, model[ids[0]], authorization, invalidation);
      }
      if r1.Done? {
        SyncAllInv(c, r1.world, model, ids[1..], authorization, invalidation);
        FirstThenRest(c, w, r1.world, SyncAll(c, r1.world, model, ids[1..], authorization, invalidation).world, ids);
      } else {
        NoChange(c.ids, r1.world, r1.world);
        FirstThenRest(c, w, r1.world, r1.world, ids);
      }
    }
  }
}
