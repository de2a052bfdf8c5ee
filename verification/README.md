# Verification of the Authentik server charm

This project models the part of the Authentik server charm that keeps state in two places at once,
and proves what that part guarantees.

**The OAuth reconciler.** One leader drives a remote Authentik server (OAuth providers keyed by
primary key, applications keyed by slug) towards the set of live OAuth relations. It remembers what
it owns in a cache in the peer databag. Every attempt of every API request may fail before or after
it took effect, with any error but a made-up 404. Remote effects are immediate. Local writes belong
to the hook: if a transient error (or a Python exception that is not an API error) escapes, Juju may
keep or discard them, and a unit may die before they are flushed. The handler may run several times
in one hook, on the same uncommitted writes. In between the peer relation may appear and other users
may change anything on the server that bears no name of a relation.

The code is modelled twice. `Clients.AuthentikClient`, `Charm.PeerData` and `Charm.OauthReconciler`
are classes that update their fields step by step, as `src/authentik_api.py`, `src/integrations.py`
and `src/oauth.py` do. The modules `AuthentikServer`, `AuthentikApi`, `Reconciler` and `Runs` say
the same as functions of the whole state, and every method is proved to do exactly what its function
says, up to `HolisticHandler`, which ends one hook; the table lists those with loops and those that
join the others. The theorems are about those functions: an
inductive invariant (`Invariant`, `Collection`, `Runs`) over all runs of hooks, faults, commits and
losses, and on top of it safety (`Safety`), recovery (`Passes`, `Recovery`), quiescence (`Quiescence`)
and the exact limits of the naive guarantees (`Limits`, `Starvation`, `Orphans`). `Ambiguity`,
`Discovery` and `Persistence` say what lost requests, discovery on any server, and cut
synchronizations come to, in terms of what the server holds and what was sent. `Start` names states from which runs begin, and
`Witness` is one concrete world. `Identity` and `ConfigKey` prove what the invariant
rests on: deterministic names of different relations never meet, and the configuration key
identifies a client. `Pagination` covers listings that come page by page.

**Three pure-data algorithms of vendored libraries.** Expansion of Prometheus scrape targets into
jobs per unit (`ScrapeTargets`), de-duplication of job names (`ScrapeDedupe`), and the adjustment of
Kubernetes limits and requests (`Resources`).

## Assumptions

They stand as preconditions of the lemmas, most of them in `Runs.Initial` and `Runs.Legal`.

- There is one leader. An effect happens no later than the response to its request.
- The server never hands out a primary key twice. It is not assumed to enforce unique provider names.
- A relation that has a cache entry and was once inactive is never active again.
- Names of Juju applications contain no spaces.
- At the beginning the cache is empty and each relation has at most one identity on the server,
  managed or legacy; a legacy application refers to its expected provider, and a provider with the
  legacy name has its legacy application. `Limits.StrayLegacyProvider` says what happens to one that
  has none.
- Nobody else edits an object that bears a relation's name, except in `Limits.OutOfBandDeletion`.
- Scope mappings do not change, except in `Limits.RecreatedMappingStays`; flows may change at any time.
- The secret with the client credentials is not deleted from outside, except in
  `Limits.DeletedSecretDisagrees`. It may be unreadable for a while.

Three pieces of the state are history that no operation reads. `retired` is the set of relations that
had a cache entry and were seen inactive. A `Mark` says how many requests had been sent when a hash
was recorded, for which configuration, and with the mappings of which scopes. A `Resolution` names
the scopes for which remembered mappings were looked up.

## Where the code does less than one might expect

- "A stored hash means the remote provider matches it" is false after a failed update of a cached
  relation, because no partial entry is written on that path (`Limits.StoredHashMayLie`), and the
  fast path may believe it later (`Limits.LieIsCommitted`). It stays
  true after such a failure if and only if the PUT was not sent, was refused or had no effect
  (`Limits.FailedUpdateKeepsHash`); over whole runs, a hit means a match unless a PUT sent after the
  hash was recorded overwrote the provider (`Safety.HitMeansSynchronized`).
- A provider deleted behind the charm's back is recovered if and only if its application is gone as
  well; otherwise `int(None)` raises (`Limits.OutOfBandDeletion`).
- "No orphan is ever left" is false: a provider of a relation that goes away is removed if and only if
  the cache has an entry for that relation (`Orphans.OrphanRemovedIffCached`). A hook that dies before
  its cache write is flushed leaves one for ever (`Orphans.OrphanArises`, `Witness.OneOrphan`).
- "Every valid active relation is synchronized" is false: the scopes come from the requirer, and
  unsupported ones fail the loop at that relation. Without faults, with accepted flows and readable
  secrets, the loop gets to the end if and only if, of every relation that needs a write, the joined
  text of its scopes is that of supported scopes, its own or those of a relation before it
  (`Starvation.ScopesDecide`); if no scope has a comma, that means its own
  (`Starvation.CommaFreeScopesDecide`). Relations with higher ids, and all orphans, starve
  (`Starvation.UnservedStarves`). An unreadable secret delays them likewise. The recovery results name
  how far a pass gets.
- Mappings are remembered by the scopes joined with commas, so a relation that asks for the one word
  `a,b` after one that asked for `a` and `b` is served the mappings of those two, supported or not
  (`Starvation.CommaCollides`). If no scope has a comma, remembering changes nothing
  (`Passes.CommaFreeTransparent`).
- Mappings are in no hash, so a recreated mapping never reaches a synchronized relation
  (`Limits.RecreatedMappingStays`).
- A legacy provider whose application was never created is not adopted; a second one is created beside
  it (`Limits.StrayLegacyProvider`).
- When the client secret is deleted from outside, the slow path sends new credentials before it
  publishes them, so one that fails after its PUT can leave databag and provider apart (`Limits.DeletedSecretDisagrees`);
  the fast path does not look at the secret at all (`Limits.HitSendsNothing`).
- De-duplication of job names yields distinct names, and is idempotent, if and only if no plain name
  imitates the renamed form of another job (`ScrapeDedupe.DedupeNamesDistinct`,
  `ScrapeDedupe.DedupeIdempotent`, `ScrapeDedupe.IncompatibleInput`).
- Adjusting resources fails with a decimal error for a memory amount strictly between zero and one
  byte, since the remainder by zero is undefined (`Resources.AdjustSucceeds`).

## Model

| member | source | states |
|---|---|---|
| Safety.NoDuplicates | src/oauth.py:275-328 | over any run with any faults and losses, at most one provider ever bears a relation's managed name, its managed and legacy applications are never two, and a managed application refers to that provider; no unique names are assumed of the server |
| Safety.OwnershipSeparated | src/oauth.py:217-362 | in every reachable state, committed entries of different relations share neither slug nor primary key, even of deleted objects, and a live primary key names a provider of its own relation only |
| Safety.CollectionSparesActive | src/oauth.py:335-362 | after any run, a collection under any faults leaves every object of every active relation unchanged |
| Safety.CredentialsAgreeEverywhere | src/oauth.py:175-205 | for every committed entry with a hash and a primary key, of whatever relation, the databag holds the credentials of the remote provider if and only if the provider is there, though they are sent first and published last; for a relation in service it is there |
| Safety.HitMeansSynchronized | src/oauth.py:155-173 | a fast-path hit on an entry whose provider is there means the remote flows, URIs and grant types are the desired ones and each mapping is the server's for the scope served, which has the same joined text as the desired one, or the settings were overwritten by a PUT sent after the hash was recorded |
| Safety.CommaFreeServer | src/oauth.py:176-179 | on a server none of whose scopes has a comma, scopes without commas are served as themselves |
| Safety.RunStays | src/oauth.py:230-333 | through any run a relation in service keeps its provider, its slug, and the reference between them |
| Safety.AdoptionIsStable | src/oauth.py:283-309 | once a legacy application exists, after any further run every synchronization that gets through settles on the legacy slug and the same primary key, renamed provider and lost cache included |
| Recovery.CrashRecovery | src/oauth.py:230-333 | after any run, the first synchronization of a new reconciler, without faults, ends with exactly one bearer; its flows are those of the call, its URIs and grant types the client's, its mappings the server's of the scopes; one application with the provider's name refers to it, the databag has its credentials and the endpoints, and a complete cache entry names the pair |
| Invariant.ConvergedMeans | src/oauth.py:289-333 | the same field by field for every relation that has converged, with the scopes it is served |
| Persistence.PartialStateSaved | src/oauth.py:207-215 | if a synchronization, whatever became of it and whatever faults struck, has sent a PUT of a provider or a POST or PATCH of an application, the cache has an entry that names the relation's provider; if it raised and no trusted entry was there before, one without a hash |
| Persistence.PartialStateCollected | src/oauth.py:207-215 | so if the relation then goes, a collection without faults removes its provider |
| Persistence.CreatedIsNotPut | src/oauth.py:311-313 | a provider that was just created is not written again |
| Persistence.CutEntrySaved | src/oauth.py:347-362 | a collection of an entry cut at the provider has saved that the application is gone, together with the hash; one cut at the application has saved nothing |
| Persistence.NoRelationOnlyDeletes | src/oauth.py:57-59 | a reconciliation of no relation sends deletions only and resolves no flow |
| Persistence.FlowsForgottenIff | src/oauth.py:76-81 | both flow caches are cleared after a validation error and after a missing object, and after nothing else |
| Discovery.LocateDecides | src/oauth.py:275-308 | on any server and under any faults discovery settles only on the managed application with the managed provider, else on the legacy application with one of the two, else on the single provider of the name, else on a new one; without faults it fails only where none is to be had, with a conflict, or a validation error for refused flows |
| Discovery.ValidateDecides | src/oauth.py:217-228 | without faults an application is accepted exactly if it refers to a provider with an expected name, else it is a conflict |
| Discovery.ForeignApplicationRefused | src/oauth.py:253-259 | a cached pair whose application refers to another provider, or to none, is never used: nothing is written; the first is a conflict, the second an exception |
| Discovery.DeadEntryDropped | src/oauth.py:260-273 | an entry whose provider is gone is dropped from the cache before rediscovery, and stays dropped if that fails |
| Passes.SyncAllOutcome | src/oauth.py:71-75 | a pass without faults over any relations gets to the end exactly if no relation that needs a write is hindered; those before the first hindered one that needed a write have converged, with the mappings of the scopes they are served, those after it are left alone, and the error is that relation's |
| Passes.PassableDecides | src/oauth.py:126-179 | a pass gets to the end if and only if, of every relation that needs a write, the flows are accepted, the secret can be read, and the joined text of its scopes is remembered or that of supported scopes, its own or those of a relation before it |
| Passes.MemoAt | src/oauth.py:176-179 | at every point of a pass, what is remembered under a joined text is what was remembered before or belongs to the first relation that asked |
| Passes.CommaFreeTransparent | src/oauth.py:176-179 | if nobody who needs a write asks for a scope with a comma, everyone is served its own scopes, which must be supported |
| Recovery.ReconcileOutcome | src/oauth.py:51-83 | the outcome of the pass holds of a whole reconciliation, with cached or fresh flows; if it gets to the end, every orphan in the cache is gone, else none is touched |
| Recovery.HookOutcome | src/charm.py:267-290 | and of a hook from rest, where everything is committed unless an unreadable secret stopped it and Juju discards its writes |
| Recovery.StaleFlowsForgotten | src/oauth.py:71-81 | if a flow a reconciliation would use, cached or not, is not accepted, it stops at the first relation that needs a write and records no hash; the error is a validation error, which clears both flow caches, unless the secret of that relation cannot be read |
| Recovery.StaleFlowsHeal | src/oauth.py:51-100 | if that secret can be read, after two hooks without faults every relation not recorded with the server's new flows has been brought to them, up to the first hindered one; all of them exactly if every secret can be read and all scopes are provided for |
| Recovery.StaleFlowsHealAll | src/oauth.py:51-100 | if nobody asks for unsupported scopes and every secret can be read, two hooks bring all such relations onto the new flows and remove all orphans |
| Recovery.OtherFlowsPending | src/oauth.py:155-173 | the flows are part of the hash: a relation recorded with other flows, in plain text, is not recorded with these |
| Quiescence.Quiescent | src/oauth.py:51-173 | after a normal reconciliation, repeating it on the local data it left leaves the whole state equal and sends no request, whatever faults await, for any relations, ready or not, valid or not |
| Quiescence.HooksSettle | src/charm.py:267-290 | the same for two hooks at the end of any run, whether the second commits, fails to, or dies |
| Collection.CollectAllPass | src/oauth.py:335-362 | a pass cut at any call: an entry loses a field, and leaves, only after its object is absent, other entries are untouched; without faults it ends after exactly one request per remaining field with only active and malformed keys |
| Collection.CutPassResumes | src/oauth.py:347-362 | a pass cut anywhere is finished by a later pass from what the first one wrote: exactly the collectable entries are gone, and every object they named is absent |
| Collection.CollectAllInv | src/oauth.py:335-362 | a pass cut anywhere keeps the invariant and changes no object of a relation it does not collect |
| Collection.CollectEntryInv | src/oauth.py:347-362 | collecting one entry of a retired relation, cut anywhere, keeps the invariant and is work for that relation alone |
| Collection.NothingToCollect | src/oauth.py:338-345 | a pass over active and malformed keys changes nothing and sends nothing |
| Limits.StoredHashMayLie | src/oauth.py:311-332 | a refused PATCH after a successful PUT leaves the old hash a hit while the provider has the new settings; the error is one the handler swallows |
| Limits.LieIsCommitted | src/oauth.py:155-173 | a whole hook that meets such a refusal ends normally and commits, and when the requirer returns to its earlier configuration the fast path sends nothing although the provider has the later settings |
| Limits.FailedUpdateKeepsHash | src/oauth.py:252-332 | an update of a cached relation that fails at any call, after any retries, changes no local data, and the remote provider is as before if and only if the PUT was not sent, was refused, or had no effect |
| Starvation.ScopesDecide | src/oauth.py:71-75 | with accepted flows, readable secrets and no faults, a pass gets to the end if and only if, of every relation that needs a write, the joined text of its scopes is remembered or that of supported scopes, its own or those of a relation before it; else it ends in a validation error |
| Starvation.CommaFreeScopesDecide | src/oauth.py:71-75 | if no scope has a comma, if and only if every relation that needs a write asks for supported scopes |
| Starvation.CommaCollides | src/oauth.py:158-179 | after a relation that asks for `a b`, one that asks for the unsupported word `a,b` gets through and is served the mappings of `a` and `b` |
| Starvation.UnservedStops | src/oauth.py:71-83 | if the first relation asks for an unsupported scope and is not recorded as synchronized, the reconciliation raises under any faults and changes neither server nor cache nor any other relation's databag |
| Starvation.UnservedStarves | src/oauth.py:71-83 | so it is in every run, whatever other users do to the server in between, in which such relations come first: no other relation is synchronized, no orphan removed |
| Limits.DeletedSecretDisagrees | src/charm.py:532-551 | with the client secret deleted from outside, databag and remote provider disagree after a slow path if and only if its PUT took effect and its answer, or every answer to the PATCH after it, failed to come through |
| Ambiguity.SendReturns | src/authentik_api.py:71-91 | a retried request that the server grants is granted if and only if an attempt is answered before the attempts or the transient errors run out |
| Limits.RecreatedMappingStays | src/oauth.py:155-173 | when the scope mappings are replaced, a synchronized relation sends nothing, and is as desired if and only if the mappings of its scopes are the same as before |
| Limits.StrayLegacyProvider | src/oauth.py:275-308 | a legacy provider without an application is not adopted: discovery creates a second provider beside it |
| Ambiguity.SendLands | src/authentik_api.py:71-91 | a retried idempotent request takes effect if and only if one of its attempts does |
| Limits.OutOfBandDeletion | src/oauth.py:253-273 | after someone deletes the provider, a synchronization without faults succeeds if and only if the application is gone too, and then creates both anew under a fresh primary key |
| Orphans.OrphanRemovedIffCached | src/oauth.py:335-362 | a collection without faults removes the provider of a relation that went away if and only if the cache has its entry |
| Orphans.OrphanStays | src/oauth.py:335-362 | an orphan without an entry stays through any run in which its relation is not active |
| Orphans.OrphanArises | src/oauth.py:311-362 | a first hook that dies before its local writes are flushed leaves such an orphan, and nothing ever removes it |
| Witness.OneOrphan | src/oauth.py:311-362 | one concrete run: a legal beginning, a hook that creates the provider and dies, then any number of hooks without relations, after which the provider is still there and the cache is empty of it |
| Runs.Reachable | src/charm.py:267-290 | every state of every legal run satisfies the invariant, also between several runs of the handler in one hook |
| Runs.HookInv | src/charm.py:267-290 | the end of a hook keeps the invariant under any faults, whether Juju keeps or discards its writes, and leaves both copies of the local data equal |
| Runs.HookEnds | src/charm.py:283-290 | a hook that dies loses its local writes; one that a transient failure or a non-API exception leaves loses them unless Juju keeps them; after every other error and after a normal end they are committed |
| Runs.ReconcileInv | src/oauth.py:51-83 | one reconciliation, cut anywhere, keeps the invariant and moves no relation in service |
| Runs.ServerEventInv | src/oauth.py:230-362 | changes by other users to foreign objects and to flows keep the invariant |
| Start.AnyStart | src/oauth.py:85-92 | with the names the charm computes, a run may begin on any server with any foreign objects where each relation has no objects or exactly a legacy application and its provider, for any number of such relations |
| Start.LegacyAdded | src/oauth.py:283-292 | adding the objects of one more legacy relation keeps a server such a beginning, unless the application's name makes the legacy slug the managed one |
| Witness.TheWorldIsInitial | src/oauth.py:85-92 | one concrete world in which a run may begin |
| Invariant.SyncRelationInv | src/oauth.py:116-205 | one synchronization, cut anywhere, keeps the invariant and touches its own relation only; on the fast path it sends nothing; if it gets through, the relation has converged and the mappings of its scopes are remembered; without faults it fails exactly on an unreadable secret, unsupported scopes that are not remembered, or a refused flow |
| Invariant.ResolveMappingsOutcome | src/oauth.py:176-179 | mappings come from the memo or from the server, and are always those of supported scopes with the same joined text |
| Invariant.ConvergeInv | src/oauth.py:175-205 | the slow path: credentials, mappings, objects, publication and hash, cut anywhere |
| Invariant.SyncObjectsInv | src/oauth.py:230-333 | synchronizing the objects, cut anywhere, keeps the invariant and leaves a true cache entry without a new hash |
| Invariant.SyncAllInv | src/oauth.py:71-75 | the loop over relations, cut anywhere, keeps the invariant and touches only the relations it loops over |
| SyncProofs.LocateOutcome | src/oauth.py:275-308 | discovery finds the home slug and the bearer whatever earlier hooks left, creates at most one provider and only when none bears a name, and fails without faults only on refused flows |
| SyncProofs.RecallOutcome | src/oauth.py:252-309 | a trusted entry is confirmed, an untrusted one rediscovered, keeping the relation's objects sound under any faults |
| SyncProofs.ApplyOutcome | src/oauth.py:311-333 | after the writes the application has the provider's name and refers to it, and the provider has the desired payload, also when the PUT was skipped after a create |
| Ownership.ProperWork | src/oauth.py:85-92 | a request on behalf of one relation keeps that relation sound and changes nothing of any other |
| AuthentikServer.SendOutcome | src/authentik_api.py:71-111 | under any loss pattern a request leaves the server untouched or served once, and an honest reply is that of one of these states |
| AuthentikServer.ServeTwice | src/authentik_api.py:71-77 | every request that is retried has the same effect once or twice (section 9.2.2 of RFC 9110) |
| AuthentikApi.CreateProviderPosts | src/authentik_api.py:331-343 | a create sends exactly one POST and no PUT |
| AuthentikApi.CreateProviderOutcome | src/authentik_api.py:331-343 | a create changes nothing or adds one provider exactly as posted; success names the new provider if none had the name before; without faults it succeeds exactly with the fresh key |
| AuthentikApi.FailedCreateIsFound | src/authentik_api.py:331-343 | a create that raises leaves the provider absent, or there as posted, and a later lookup by its name finds which |
| AuthentikApi.FailedCreateIsRead | src/authentik_api.py:376-383 | the same for an application and its slug |
| AuthentikApi.CreateApplicationOutcome | src/authentik_api.py:372-383 | one POST; success means the application refers to the given provider, and has the given name if the slug was free |
| Ambiguity.AmbiguousProvider | src/authentik_api.py:331-338 | if the POST met a transient error or a conflict and the lookup after it is answered, the create returns the new primary key if the POST took effect, else raises that error; any other error is raised without a lookup |
| Ambiguity.AmbiguousApplication | src/authentik_api.py:376-382 | the same for an application at a free slug |
| Ambiguity.ConflictingApplication | src/authentik_api.py:376-382 | an application that is there already counts as created exactly if it refers to the provider |
| AuthentikApi.FindProviderOutcome | src/authentik_api.py:251-261 | the lookup answers absent, the unique match, or a conflict exactly when none, one or several providers have the name |
| AuthentikApi.UpdateProviderOutcome | src/authentik_api.py:345-370 | an update replaces the whole payload or nothing; success means it was replaced |
| AuthentikApi.UpdateApplicationOutcome | src/authentik_api.py:385-394 | success means the application has the name and refers to the provider; a failure leaves it patched or untouched |
| AuthentikApi.RemoveApplicationOutcome | src/authentik_api.py:396-402 | a delete that returns leaves the application absent under any loss pattern of at most three attempts |
| AuthentikApi.RemoveProviderOutcome | src/authentik_api.py:404-410 | the same for a provider |
| AuthentikApi.ReadApplicationOutcome | src/authentik_api.py:230-236 | an answer tells whether the application exists, and absence is never an error |
| AuthentikApi.ReadProviderOutcome | src/authentik_api.py:243-249 | the same for a provider |
| AuthentikApi.ReadFlowOutcome | src/authentik_api.py:190-203 | without faults the current flow is found, or a not-found error says there is none |
| Clients.AuthentikClient.DoRequest | src/authentik_api.py:93-111 | one attempt: served or lost as the fault decides |
| Clients.AuthentikClient.SendRequest | src/authentik_api.py:71-91 | the retry loop is the recursive specification: at most three attempts, repeated after transient errors only, one for a POST |
| Clients.AuthentikClient.FilterRows | src/authentik_api.py:254-258 | the loop keeps exactly the rows with the name, in order |
| Clients.AuthentikClient.GetPropertyMappings | src/authentik_api.py:205-228 | fetches the listing at most once, and either maps every scope in order or raises a validation error |
| Charm.PeerData.SetCache | src/integrations.py:236-241 | drops the write without a peer relation |
| Charm.OauthReconciler.GetOrGenerateCredentials | src/charm.py:521-553 | published credentials if their secret can be read; fresh ones, written nowhere, if there are none or the secret was deleted; an unreadable secret is a transient error |
| Charm.OauthReconciler.SyncAuthentikObjects | src/oauth.py:230-333 | refines the specified synchronization of objects |
| Charm.OauthReconciler.ObtainMappings | src/oauth.py:176-179 | the memo by joined scopes: looked up once, then handed out |
| Charm.OauthReconciler.ConvergeRelation | src/oauth.py:175-205 | refines the specified slow path, with the hash written last |
| Charm.OauthReconciler.Sync | src/oauth.py:116-205 | refines the specified synchronization of a relation, with every early return |
| Charm.OauthReconciler.CollectOne | src/oauth.py:347-362 | refines the specified three steps, each saved on its own |
| Charm.OauthReconciler.Collect | src/oauth.py:335-362 | the loop over the cache keys refines the recursive pass |
| Charm.OauthReconciler.SyncRelations | src/oauth.py:71-81 | the loop over relations with its handler refines the specified one |
| Charm.OauthReconciler.ReconcileRelations | src/oauth.py:51-83 | refines the specified reconciliation |
| Charm.OauthReconciler.RunHandler | src/charm.py:517-519 | one run of the handler, with a reconciler of its own, refines the specified reconciliation |
| Charm.OauthReconciler.HolisticHandler | src/charm.py:283-290 | one hook, with escaping and swallowed errors and with commit or loss, refines the specified hook |
| Identity.IdentitiesSeparated | src/oauth.py:85-92 | managed slugs, legacy slugs and provider names of different relations never coincide, in any mix, for any application names without spaces |
| Identity.CleanSlugOutcome | src/charm.py:481-489 | the slug has only `[a-z0-9_-]`, no doubled, leading or trailing hyphen, keeps every word character in order, and equals the name exactly when that is clean already |
| Identity.SlugWords | src/charm.py:481-489 | without its hyphens the slug is exactly the word characters of the name, in lower case |
| Identity.CleanSlugIdempotent | src/charm.py:481-489 | cleaning twice is cleaning once |
| Identity.KeyRoundTrip | src/oauth.py:338-343 | the cache key of a relation id is read back as that id |
| ConfigKey.KeyIffSameClient | src/oauth.py:155-164 | two configurations have the same key if and only if they have the same sets of URIs, scopes and grant types and the same flows, though URIs contain colons |
| ConfigKey.ScopesCanonical | src/oauth.py:126-131 | scopes come out ascending, none empty |
| ConfigKey.ScopesMeans | src/oauth.py:126-131 | the scopes are the words in lower case, or the default three if there is no word |
| ConfigKey.WordsOutcome | src/oauth.py:126-131 | a text without white space followed by white space is a word, followed by the words of the rest |
| ConfigKey.StripOutcome | src/oauth.py:155-156 | stripping takes away white space at both ends, all of it, and nothing else |
| ConfigKey.StrippedOutcome | src/oauth.py:155-156 | items are stripped one by one, in order, and dropped if nothing is left |
| ConfigKey.LessMeans | src/oauth.py:157-159 | the sort order is that of the first character that differs |
| ConfigKey.ScopeOrderIrrelevant | src/oauth.py:126-131 | requests with the same set of scopes, in any order, case or repetition, give the same scopes (section 3.3 of RFC 6749) |
| ConfigKey.SortedSetCanonical | src/oauth.py:157-159 | the sorted set is strictly ascending with exactly the elements of the input |
| Pagination.GetPaginated | src/authentik_api.py:130-162 | the loop over pages is the recursive listing, with at most 1000 requests, and exactly 1000 before the page limit is reported |
| Pagination.NextPageMeans | src/authentik_api.py:144-158 | a pagination object decides alone, by a positive number; a link counts only without one |
| Pagination.ChainListed | src/authentik_api.py:140-162 | a chain of at most 1000 pages yields the concatenation of its pages in order, a longer one an error, never a truncated listing |
| Pagination.EndlessWalk | src/authentik_api.py:140-162 | a walk that goes on past the limit, cyclic or not, is an error |
| Pagination.ListedChain | src/authentik_api.py:140-162 | conversely, a listing that succeeds is that of a complete chain within the limit |
| Pagination.FindExact | src/authentik_api.py:251-261 | over pages, whatever they contain: a failed page or a chain that is too long is the error; else absent, unique or conflict according to the complete chain |
| ScrapeTargets.Expand | lib/charms/prometheus_k8s/v0/prometheus_scrape.py:587-699 | as a multiset, the targets of the result with their unit, name, path, labels and relabelling are exactly the expected ones: none lost, none invented, over any nesting |
| ScrapeTargets.HostToUnitOutcome | lib/charms/prometheus_k8s/v0/prometheus_scrape.py:473-495 | a host is known exactly if it is some unit's address or FQDN, and is mapped to the last unit that owns it |
| ScrapeTargets.ExpectedExactly | lib/charms/prometheus_k8s/v0/prometheus_scrape.py:587-699 | over whole lists of jobs, a placement is expected if and only if some target of some config of some job calls for it, in a unit's job only if its host is that unit's, or with the star replaced by that unit's address |
| ScrapeTargets.ExpectedCount | lib/charms/prometheus_k8s/v0/prometheus_scrape.py:643-684 | as many targets come out as there are plain ones plus one per unit for each wildcard |
| ScrapeTargets.WildcardsExpected | lib/charms/prometheus_k8s/v0/prometheus_scrape.py:675-684 | unit by unit, then target by target, is the same as target by target, then unit by unit |
| ScrapeTargets.SelectExpected | lib/charms/prometheus_k8s/v0/prometheus_scrape.py:498-512 | splitting into wildcards and others loses and invents nothing |
| ScrapeTargets.ClassifyTargets | lib/charms/prometheus_k8s/v0/prometheus_scrape.py:498-512 | the loop selects the wildcards and the others, in order |
| ScrapeTargets.MatchNonWildcardTargets | lib/charms/prometheus_k8s/v0/prometheus_scrape.py:515-541 | every plain target ends up once, with its unit or unmatched |
| ScrapeTargets.BuildPerUnitJob | lib/charms/prometheus_k8s/v0/prometheus_scrape.py:544-584 | the job holds exactly the given targets for the given unit |
| ScrapeTargets.LabelsOutcome | lib/charms/prometheus_k8s/v0/prometheus_scrape.py:573-578 | labels of the job's author win over the unit's, which wins over the topology's; without a topology nothing is added |
| ScrapeTargets.UnitNumberOutcome | lib/charms/prometheus_k8s/v0/prometheus_scrape.py:567 | the number of a unit is what follows the last slash of its name |
| ScrapeTargets.UnitJobsApart | lib/charms/prometheus_k8s/v0/prometheus_scrape.py:567-571 | the jobs of two units of one application have different names |
| ScrapeTargets.UnitJobOutcome | lib/charms/prometheus_k8s/v0/prometheus_scrape.py:567-584 | a unit's job has the unit's number after its name or the default one, the unit's path before its own or the default one, and with a topology one more relabelling at the end |
| ScrapeTargets.UnmatchedJobOutcome | lib/charms/prometheus_k8s/v0/prometheus_scrape.py:686-697 | the job for unmatched targets keeps its name and its path or the default one, with one relabelling more |
| ScrapeTargets.StarReplaced | lib/charms/prometheus_k8s/v0/prometheus_scrape.py:677-679 | the address comes in for the first star and the text before it stays; so for every star |
| ScrapeTargets.WildcardMeans | lib/charms/prometheus_k8s/v0/prometheus_scrape.py:505-511 | a wildcard is a star and something, and with no other star becomes the address and that |
| ScrapeTargets.ReplaceStarsOutcome | lib/charms/prometheus_k8s/v0/prometheus_scrape.py:677-679 | no star is left, and a target without one is unchanged |
| ScrapeDedupe.DedupeJobNames | lib/charms/prometheus_k8s/v0/prometheus_scrape.py:1359-1399 | grouping, renaming and dropping repeated hashes is the specified function |
| ScrapeDedupe.RenameOutcome | lib/charms/prometheus_k8s/v0/prometheus_scrape.py:1379-1381 | renaming appends an underscore and the hash and changes nothing else |
| ScrapeDedupe.DedupeKeepsAll | lib/charms/prometheus_k8s/v0/prometheus_scrape.py:1359-1399 | the output consists of exactly the images of the input jobs, each renamed if and only if its name is shared |
| ScrapeDedupe.OnlyIdenticalMerge | lib/charms/prometheus_k8s/v0/prometheus_scrape.py:1387-1397 | only byte-identical jobs end up under one name, if and only if no renamed job takes a kept name |
| ScrapeDedupe.DedupeNamesDistinct | lib/charms/prometheus_k8s/v0/prometheus_scrape.py:1359-1399 | the names come out pairwise distinct if and only if the input is compatible |
| ScrapeDedupe.DedupeFixedPoints | lib/charms/prometheus_k8s/v0/prometheus_scrape.py:1359-1399 | the lists it leaves alone, order included, are exactly those with distinct names |
| ScrapeDedupe.DedupeIdempotent | lib/charms/prometheus_k8s/v0/prometheus_scrape.py:1359-1399 | applying it twice to one list is applying it once, if and only if the input is compatible |
| ScrapeDedupe.ScrapeJobs | lib/charms/prometheus_k8s/v0/prometheus_scrape.py:1045-1066 | the loop over relations: each list de-duplicated and validated, then all of them together de-duplicated |
| ScrapeDedupe.TwoPassesDistinct | lib/charms/prometheus_k8s/v0/prometheus_scrape.py:1045-1066 | after both passes the names are pairwise distinct if and only if, of the jobs as they arrive from the raw lists, none that shares a name is renamed to that of another that does not |
| ScrapeDedupe.IncompatibleInput | lib/charms/prometheus_k8s/v0/prometheus_scrape.py:1375-1381 | for every hash there is an input that is not compatible |
| Resources.AdjustResourceRequirements | lib/charms/observability_libs/v0/kubernetes_compute_resources_patch.py:158-242 | validation, sanitizing, copying and raising, in loops over the keys, give the specified result or the first error |
| Resources.IsValidSpec | lib/charms/observability_libs/v0/kubernetes_compute_resources_patch.py:245-277 | valid exactly if every key is cpu or memory with no value or a non-negative quantity |
| Resources.SanitizeResourceSpec | lib/charms/observability_libs/v0/kubernetes_compute_resources_patch.py:280-307 | drops empty values and rounds memory up, or fails |
| Resources.SanitizedOutcome | lib/charms/observability_libs/v0/kubernetes_compute_resources_patch.py:280-307 | exactly the named resources remain, cpu unchanged, memory whole and less than a byte above, unchanged if whole before |
| Resources.AdjustSucceeds | lib/charms/observability_libs/v0/kubernetes_compute_resources_patch.py:199-205 | it succeeds if and only if both specifications have only cpu and memory with quantities that are not negative and no memory amount is strictly between zero and one byte; limits are complained about first |
| Resources.HalfAByteFails | lib/charms/observability_libs/v0/kubernetes_compute_resources_patch.py:302-306 | half a byte of memory is an input on which it fails |
| Resources.AdjustedOutcome | lib/charms/observability_libs/v0/kubernetes_compute_resources_patch.py:204-242 | request keys are the union of both inputs' named keys, every limit is at or above its request and both stated amounts and exceeds the larger by less than 0.001, memory is whole |
| Resources.RaisedLimitOutcome | lib/charms/observability_libs/v0/kubernetes_compute_resources_patch.py:230-235 | the raised limit is the least multiple of 0.001 that is not below limit and request |
| Resources.AdjustIdempotent | lib/charms/observability_libs/v0/kubernetes_compute_resources_patch.py:158-242 | adjusting an adjusted result changes no text |

## Left out

- HTTP, sessions, backoff, JSON and URL parsing: replaced by typed requests and replies under a fault oracle; the host part of a scrape target is a parameter.
- Paged listings inside the reconciler: there a listing is one request; chains of pages are treated on their own in `Pagination`.
- The letter case and the type checks of scope mappings: the mapping table is keyed by lower-case scope already.
- The leader check, the readiness probe and the workload check (src/charm.py:493-503): if they fail, the hook does nothing.
- The other steps of the handler (src/charm.py:274-281): they do not touch the modelled state.
- SHA-256 is an injective constructor, tokens are an arbitrary supply, and the truncated hash of the model identifier is a parameter.
- Case folding and white space beyond ASCII, and the decimal texts that Python's `int` accepts besides the canonical ones.
- The cache dictionary shared by reference inside a synchronization: it is handed on and handed back; peer data that is not valid JSON, which reads as empty.
- A missing `provider` key in an application body, which the code treats as a conflict, unlike a null one.
- Discarded local writes after a deletion from outside, which can end in a conflict.
- OAuth validation of a client configuration: an input that says valid, invalid or not there yet.
- The order of the jobs that target expansion returns: the result is compared as a multiset of placements, and jobs without targets carry no placement.
- Options of a scrape job that expansion copies unchanged: one opaque field.
- The validation of a list of scrape jobs, whose verdict is a parameter, and the report of its errors.
- Parsing and printing of quantities: parameters that agree on multiples of 0.001; the precision limit of decimals.
- `adhere_to_requests=False`, which the charm does not use.
- Unit status, Pebble, TLS, ingress, SMTP and the other libraries: plumbing around the modelled core.
- Recovery.HookOutcome: speaks of a hook whose handler runs once, because each further run is covered by `Recovery.ReconcileOutcome` and Juju's choice concerns them all together.
- Start.AnyStart: leaves out a provider with a legacy name and no application, because the code makes a duplicate of it, as `Limits.StrayLegacyProvider` says.
