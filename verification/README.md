# A verified model of the registration service

The service keeps a register of wallet relying parties. An admin API creates clients, writes
their registrar identity, registration document and keys, and moves them through a seven-state
lifecycle: draft, evidence submitted, filed with registrar, registered, active, suspended,
offboarded. A session service later reads the register to decide which attributes a client may
ask a wallet for. This project models the parts that decide those answers and proves what they
guarantee over every input, every run and every interleaving. `dafny verify dfyconfig.toml`
checks all of it.

## How the model is laid out

- The store. `Registry.dfy` gives the in-memory registry as a value: its tables, every call as a
  function from state to state and outcome, and runs of calls. `Fake.dfy` is the object itself:
  a class whose methods update the maps, the audit log and the sequence number in place, each
  proved equal to its function. `IntendedUses.dfy`, `Ids.dfy` and `Slugs.dfy` hold the
  replace-all table, the id printer and the slug generator.
- Theorems over runs of store calls: `RegistryInvariants.dfy` (structure, isolation),
  `StoreEffects.dfy` (the verdict, the audit entry and the writes of each call), `SlugSpelling.dfy`
  (what a slug says of the name), `BirthOrder.dfy` and `UseHistories.dfy` (listing order), `AuditChain.dfy` (the log is the
  lifecycle), `EvidenceConservation.dfy`, `PolicyRuns.dfy`, `MintedIds.dfy`.
- The lifecycle service, `Lifecycle.dfy`: readiness checks before the flip, purge after it.
- The document builder: `WizardForms.dfy` says what can be wrong with a form and what a good one
  compiles to, `Wizard.dfy` holds the loops that do it, `WizardExactness.dfy` proves the reported
  error exact, `WizardScope.dfy` that both outputs authorise the same, and `DocumentContract.dfy`
  that what comes out, and what is ever stored, meets the ts5 rules.
- The admin API: `Api.dfy` (the handlers), `ServedRequests.dfy` (the exact answer to every request,
  what it records, and that activation can be reached), `ApiRuns.dfy`, `ApiSafety.dfy`,
  `RegisteredScope.dfy` and `RegistrationFields.dfy` (requests served one after the other).
- Concurrency: `Interleaving.dfy` runs any number of transition calls with one program counter
  each, every store call one atomic step that may fail, other handlers' writes in between.
  `InterleavedSafety.dfy`, `UnsafeTraces.dfy` and `OwedPurge.dfy` are about its runs.
- Keys: `BaseN.dfy` models unpadded base32 and base64 after sections 3.2, 4, 5 and 6 of RFC 4648;
  `ApiKeys.dfy` mints keys from a randomness source and proves that a parser inverts the printer.

## What the code turned out to guarantee, and what it does not

- Activation is safe when requests are served one after the other: a client that was ever active
  has a registrar identity and a use that is not revoked (`SequentialSafety`). With calls in
  flight it is not, because the readiness check is skipped when the status read is neither
  registered nor suspended (internal/lifecycle/lifecycle.go:133) while the flip is a later store
  call (internal/lifecycle/lifecycle.go:144). One activation by a call that ran the check is
  enough: the client is then ready in every later state, whatever other calls read
  (`CheckedActivationIsSafe`). Among conditions on all the statuses a client's activating calls
  read, `InterleavedSafetyIff` gives the exact one: activation is safe under precisely those sets
  that contain none of draft, evidence submitted and filed with registrar, and for each of these
  three `EarlyReadCanActivateUnready` is a concrete run that leaves an active client without an
  identity.
- The comment on slug generation says that two clients of the same name always get distinct slugs
  (internal/registrydb/fake.go:115-118). Only the last seven digits of the id enter the slug, so
  this holds exactly when the two sequence numbers differ modulo 10^7
  (`StoredSameNameSlugsCollideIff`, for any two stored clients of one name in any run).
  `StoredClientsCanShareASlug` is a run that stores two clients of one name under one slug.
- A credential form that registers all claims is documented as having no claims list
  (internal/wizard/wizard.go:107-109). The code accepts one and ignores it
  (`AllClaimsIgnoresTheList`).
- `AppendAudit` takes any action string, so it can write entries that look like the store's own.
  The theorems that read the log therefore range over runs in which it does not use
  `client.transition` (`Honest`), or `evidence.add` and `client.purge` (`HonestEvidence`). No route
  calls it, and `ApiRunsAreStoreRuns` shows that API runs always meet both conditions.
- Merging the request mode into a stored JSON `null` would panic. `ModeCallFailsOnlyOnArguments`
  shows that no run stores anything but an object.

## Conventions

- Status and action strings are datatypes; any other string is `OtherStatus` or `OtherAction`,
  whose text is meant to differ from the named ones.
- The store's mutex makes each method atomic, so a method is one step. In interleavings the
  handlers other than the transition are one step each: they write once, key creation reads first
  only that the client exists, which no call undoes, and the reads that fill response bodies
  change nothing.
- Taken as parameters: lower-casing and white space outside `[a-z0-9-]` (`TextRules`), absolute-https
  and web-origin checks, the external registration check, the ULID stream, and
  the argon2id function. That the stream never repeats (`FreshUlids`) is assumed only where stored
  document, listing and registered scope are compared; safety, purge and conformity do not need it.
- A purge that fails is a boolean parameter of the sequential call and a fault of the step in
  interleavings. A store call that fails for outside reasons has no effect.
- Policies, metadata and documents are JSON values or records; decoding and encoding of JSON text
  is outside. JSON `null` as a policy is kept apart because the decoder accepts it.
- The API's credential input has the same fields as the form's and is the same datatype; its
  privacy policies are their URIs.

## Model

| member | source | states |
|---|---|---|
| UnsafeTraces.InterleavedSafetyIff | internal/lifecycle/lifecycle.go:126-155 | over all interleavings, activation by calls that read a status in a given set leaves only ready clients if and only if the set contains none of draft, evidence submitted, filed with registrar |
| UnsafeTraces.EarlyReadCanActivateUnready | internal/lifecycle/lifecycle.go:133-146 | for each of those three statuses, a concrete run in which a call that read it activates a client that has no registrar identity |
| InterleavedSafety.ActivationIsSafe | internal/lifecycle/lifecycle.go:127-146 | a client that was ever active is ready in every interleaved state, whatever steps of other calls intervened, when no call that activated it had read an early status |
| InterleavedSafety.CheckedActivationIsSafe | internal/lifecycle/lifecycle.go:133-146 | once some call that read registered or suspended has activated the client, it is ready in every later state, whatever other calls read, activated or wrote |
| InterleavedSafety.NextKeepsReady | internal/lifecycle/lifecycle.go:126-155 | no step of any call, interleaved anyhow, makes a ready client unready |
| InterleavedSafety.ThreadKnowledgeIsStable | internal/lifecycle/lifecycle.go:127-146 | what a call in flight established (identity present, client ready, client offboarded, client past activation) survives every store call any other handler can issue |
| InterleavedSafety.FlipperIsReady | internal/lifecycle/lifecycle.go:133-146 | a call about to activate finds the client ready at the moment of the flip if it ran the check, and otherwise, having read a later status, if the client was safe |
| InterleavedSafety.EverySystemIsGood | internal/lifecycle/lifecycle.go:126-155 | the joint invariant of the store and of every program counter holds in every interleaved state |
| InterleavedSafety.AgreementSurvivesInterleaving | internal/registrydb/fake.go:476-497 | in every interleaved state a client's stored document and its listed uses still describe the same uses |
| OwedPurge.PurgeIsNeverForgotten | internal/lifecycle/lifecycle.go:139-152 | in every interleaving, with any purges failing, an offboarded client has a purge entry after its flip, or a call in flight that still owes it, or a purge failure that was returned to a caller |
| OwedPurge.PurgeClearsDebt | internal/registrydb/fake.go:762-779 | the purge step of a call that reaches it succeeds, leaves a purge entry after the flip, and changes neither a client row nor the recorded lifecycle |
| OwedPurge.RetryPaysWithoutSecondFlip | internal/lifecycle/lifecycle.go:139-141 | after any interleaving, a new offboarding call on an offboarded client, with any reference and reason, left alone, returns success with the purge recorded and no second flip |
| OwedPurge.SuccessfulOffboardingIsPurgedOnce | internal/lifecycle/lifecycle.go:139-152 | in every interleaving, an offboarding call that returned success, first or repeated, has a purge of its client after the flip in the log, which holds no other flip |
| OwedPurge.PurgeStepPays | internal/lifecycle/lifecycle.go:148-152 | in every interleaving, a call that owes the purge pays by taking its step: success, purge recorded, no client row and no recorded lifecycle changed |
| Interleaving.UninterruptedCallIsServiceTransition | internal/lifecycle/lifecycle.go:126-155 | a call whose steps nobody interrupts has the store effect and result of the sequential transition, so the step protocol refines it |
| Interleaving.FinishReachesRemaining | internal/lifecycle/lifecycle.go:126-155 | from any program counter, uninterrupted steps end in the store and result the rest of the sequential call would give |
| ApiSafety.SequentialSafety | internal/lifecycle/lifecycle.go:161-188 | in every state reached by requests served in turn, a client that was ever active has an identifier, an absolute-https registrar URL and a use not revoked |
| ServedRequests.AnyDraftCanBeActivated | internal/lifecycle/lifecycle.go:126-155 | so safety is not empty: from every state the API reaches, a draft is made active and ready by an identity, an acceptable registration and the four moves |
| ServedRequests.SomeRunActivates | internal/lifecycle/lifecycle.go:126-155 | a concrete run of requests from the empty store ends with a ready, active client |
| ApiRuns.ReadyIsStable | routes/api.go:475-496 | a ready client stays ready under every store call the handlers can issue |
| ApiRuns.PostActivationStep | internal/registrydb/fake.go:225-234 | a client is past its first activation for good, and gets there only by a legal move to active |
| ApiRuns.IssueKeepsSafe | internal/lifecycle/lifecycle.go:126-155 | no store call of the API makes a safe client unsafe unless it activates a client that is not ready |
| ApiRuns.FreshReplaceListing | internal/registrydb/fake.go:544-567 | a replace call whose keys are all new lists exactly its rows in submitted order |
| ApiRuns.SaveKeepsGood | routes/api_registration.go:247-280 | storing what the builder hands over re-establishes document agreement and key freshness together |
| ApiRuns.ReplaceListsUnrevoked | internal/registrydb/fake.go:528-568 | a replace call with any non-empty unrevoked rows, duplicates and old keys included, lists an unrevoked row |
| ApiSafety.RunsKeepAll | routes/api.go:114-496 | structure, a live use for every stored document, and safety hold after every sequence of requests, whatever the ULID stream |
| ApiSafety.RunsAgree | routes/api.go:114-496 | with ULIDs that never repeat, document agreement and key freshness hold after every sequence of requests |
| ApiSafety.DocumentAndListingAgree | internal/wizard/wizard.go:276-316 | in every reachable state the uses of a client's stored document and those listed for it agree in number, order, identifier, purpose and scope; without a document none is listed |
| ApiSafety.HandleIsServe | routes/api.go:218-236 | the store calls attributed to a request lead to exactly the state and ULID count its handler leaves |
| ApiSafety.ApiRunsAreStoreRuns | routes/api.go:114-496 | every state the API reaches is a run of store calls that forge no audit entry and choose no internal id, so all store-level theorems apply |
| ApiSafety.EverActiveInChain | internal/registrydb/fake.go:255-259 | the log holds an activation of a client exactly when its chain of edges has one |
| RegisteredScope.ListedScopeIsLastRegistered | routes/api_registration.go:247-280 | after any run, the listed uses authorise exactly what the client's last accepted registration request asked for, use by use and credential by credential; none if there was no such request |
| RegisteredScope.RegistrationEnforces | routes/api_registration.go:247-280 | an accepted registration replaces whatever was listed by the request's own uses and scope |
| RegisteredScope.OtherRequestKeepsListing | routes/api.go:114-496 | every other request, and every refused registration, leaves the client's listing unchanged |
| RegistrationFields.AcceptedRegistrationIsStored | routes/api_registration.go:148-280 | after an accepted registration every field of the stored document is given from the request: names, kind, country, identifiers with the EUID first, each contact list as the non-blank entries of its own list in order, supervisory authority, and per use purpose, policies, pending id, day and scope |
| RegistrationFields.StoredDocumentIsLastRegistered | routes/api_registration.go:247-280 | in every state the API reaches, a client's document is such a document of its last accepted registration, and there is none without one |
| RegistrationFields.BuiltDocumentSaysForm | internal/wizard/wizard.go:139-187 | every field of a built document comes from its own field of the form, phone and service description included |
| RegistrationFields.FormOfSaysRequest | routes/api_registration.go:148-185 | every field of the form comes from its own field of the request, each policy under the default type |
| RegistrationFields.NonEmptySelects | internal/wizard/wizard.go:452-463 | dropping blanks keeps exactly the non-blank entries in order |
| DocumentContract.StoredDocumentsConform | internal/wizard/wizard.go:120-135 | in every state the API reaches, each stored document meets the ts5 contract |
| DocumentContract.BuiltDocumentConforms | internal/wizard/wizard.go:120-135 | any built document has exactly one filled-in legal identity, an identifier, valid countries, a supervisory contact, no blank contacts, and uses whose purposes, policies, credentials, types and claim paths are all well formed |
| DocumentContract.AllClaimsIgnoresTheList | internal/wizard/wizard.go:378-398 | with all claims registered, the claims list affects neither acceptance nor either output |
| WizardExactness.BuildSucceedsIff | internal/wizard/wizard.go:139-187 | a build succeeds exactly on forms that meet the registration rules stated positively |
| WizardExactness.BuildRejectsWithFirstDefect | internal/wizard/wizard.go:139-187 | a build is rejected with an error exactly when that error is the form's first defect: legal identity, country, identifiers, supervisory authority, then uses and their credentials by least index |
| WizardExactness.ErrorIsFirstDefect | internal/wizard/wizard.go:265-319 | the check-by-check search reports a defect that precedes every other defect of the form, or none when there is none |
| WizardExactness.FirstDefectIsUnique | internal/wizard/wizard.go:139-187 | a form has at most one first defect, so class and indices of the error are determined |
| WizardExactness.ReportingOrder | internal/wizard/wizard.go:139-187 | the reporting order spelled out, check by check and index by index |
| WizardExactness.GoodCredentialIff | internal/wizard/wizard.go:366-407 | a credential entry meets the positive rules exactly when no single credential defect applies |
| WizardExactness.GoodUseIff | internal/wizard/wizard.go:265-319 | an intended use meets the positive rules exactly when no single use defect applies |
| WizardScope.BuildPreservesScope | internal/wizard/wizard.go:276-316 | on success, document and projections have the form's uses in order, under shared pending ids, and authorise the same (format, type, claim path) triples credential by credential |
| WizardScope.ProjectionMeansForm | internal/wizard/wizard.go:366-407 | a projected credential authorises exactly what its form entry asks for, blank types asking for nothing |
| WizardScope.CredentialScopePreserved | internal/wizard/wizard.go:366-407 | document credential and projection each authorise exactly what the entry asks for, absent claims meaning every path |
| WizardScope.MetaRoundTrip | internal/wizard/wizard.go:431-446 | the meta object decodes back to the type list, in the singular and in the plural form |
| Wizard.BuildForm | internal/wizard/wizard.go:139-187 | on an error neither output comes back; otherwise a fresh document and the projections of the specification, with as many ULIDs drawn as uses were completed |
| Wizard.FillHeader | internal/wizard/wizard.go:161-178 | reports the first failing check outside the intended uses, or leaves the completed header |
| Wizard.ApplyLegalIdentity | internal/wizard/wizard.go:194-212 | sets the one identity the kind asks for and not the other; on an error the document is untouched |
| Wizard.BuildIdentifiers | internal/wizard/wizard.go:219-234 | the EUID first, then the others in order, or the first incomplete one, or that there is none |
| Wizard.ValidateSupervisory | internal/wizard/wizard.go:252-260 | country before contact |
| Wizard.BuildIntendedUses | internal/wizard/wizard.go:265-319 | the least bad use with its error, or both outputs with one shared fresh id per use |
| Wizard.BuildUse | internal/wizard/wizard.go:277-315 | purpose, policy, then credentials; a ULID is drawn only when all pass |
| Wizard.BuildCredentials | internal/wizard/wizard.go:287-296 | the least bad credential with its error, or both conversions in order |
| Wizard.BuildCredential | internal/wizard/wizard.go:366-407 | format, type, cardinality, claims in that order, then both conversions of the same fields |
| Wizard.ToClaimPath | internal/wizard/wizard.go:412-424 | the path unchanged, or that it is empty, or its first empty segment |
| Wizard.CheckPurpose | internal/wizard/wizard.go:324-334 | holds exactly for a non-empty list without blank language or text |
| Wizard.CheckPrivacyPolicy | internal/wizard/wizard.go:338-348 | holds exactly for a non-empty list of absolute-https URIs |
| Wizard.DropBlank | internal/wizard/wizard.go:452-463 | the non-empty strings in order |
| Wizard.UlidSource.Make | internal/wizard/wizard.go:298-298 | each call takes the next ULID of the stream |
| BirthOrder.OrderIsBirthOrder | internal/registrydb/fake.go:528-568 | after any history of replace calls the order slice holds exactly the present keys, sorted by the (call, first position) at which each last entered |
| BirthOrder.BirthOrderIsUnique | internal/registrydb/fake.go:528-568 | that order is the only list with this property, so map and slice refine a birth-ordered table |
| UseHistories.ListingIsBirthOrder | internal/registrydb/fake.go:618-629 | after any run of store calls the listing is that table: present keys only and all of them, birth order, contents of the last duplicate |
| UseHistories.TableFollowsHistory | internal/registrydb/fake.go:528-568 | only a client's own accepted replace calls shape its table, in every run |
| UseHistories.InternalIdIsStable | internal/registrydb/fake.go:529-542 | a row keeps its internal id over any run that keeps mentioning it with an empty id |
| IntendedUses.ReplaceConsistent | internal/registrydb/fake.go:528-568 | after a replace call the order is a duplicate-free enumeration of exactly the map's keys, which are exactly the submitted ones |
| IntendedUses.StoredRowIsLastMention | internal/registrydb/fake.go:529-542 | a row holds the contents of the last submitted duplicate, and the submitted id, else the id it had, else a new one |
| IntendedUses.ReplaceTwice | internal/registrydb/fake.go:528-568 | submitting the same rows again changes neither rows, ids nor order, and mints nothing |
| IntendedUses.ListingFollowsOrder | internal/registrydb/fake.go:618-629 | a consistent table lists one row per key in key order, skipping none |
| AuditChain.ChainMatchesState | internal/registrydb/fake.go:240-260 | in every run a client's transition entries are a connected path of legal edges from draft to its current status |
| AuditChain.LogOnlyGrows | internal/registrydb/fake.go:150-155 | the log at any point of a run is a prefix of the log at every later point |
| AuditChain.WalksAreTheLanguage | internal/registrydb/fake.go:225-234 | walks in the matrix from draft are exactly the prefixes of draft, evidence submitted, filed, registered, active, suspended, active, ..., optionally ended by one offboarded after activation |
| AuditChain.RecordedLifecyclesAreWords | internal/registrydb/fake.go:225-260 | every lifecycle that a run of calls forging no transition entry records is such a word |
| AuditChain.EveryWordIsRecorded | internal/registrydb/fake.go:225-260 | and every such word is recorded by some run of calls that forge no transition entry |
| AuditChain.SuspensionsBalance | internal/registrydb/fake.go:225-234 | suspensions equal reactivations while active and exceed them by one while suspended |
| AuditChain.OffboardedIsFinal | internal/registrydb/fake.go:225-234 | offboarded is entered at most once and nothing follows it |
| AuditChain.OffboardedOnce | internal/registrydb/fake.go:225-260 | a log whose transition entries form a path holds at most one offboarding of a client |
| AuditChain.EverActiveIffPostActivation | internal/registrydb/fake.go:225-234 | a client was ever active exactly when it is now active, suspended or offboarded |
| EvidenceConservation.EvidenceIsConserved | internal/registrydb/fake.go:632-684 | in every run a row keeps its metadata and owner, and holds the bytes first added unless a purge of its client follows its addition in the log, then none |
| PolicyRuns.PolicyFollowsModeCalls | internal/registrydb/fake.go:417-444 | in every run the stored policy is an object holding nothing but the flag, and the mode read back is the last one set, or signed |
| PolicyRuns.ModeCallFailsOnlyOnArguments | internal/registrydb/fake.go:417-444 | the merge's own error branches are unreachable in every run |
| PolicyRuns.MergesTouchOnlyTheFlag | internal/registrydb/fake.go:417-444 | from any object, any sequence of mode calls keeps every other key and reads back as the last mode |
| PolicyRuns.MergeSucceedsIff | routes/api.go:376-389 | a merge succeeds exactly on a missing policy or an object, panics exactly on null, and is read back by the handler's own reading |
| MintedIds.MintedIdsAreDistinct | internal/registrydb/fake.go:102-105 | in every run no two places among clients, audit, evidence, deletion requests and intended-use rows hold the same minted id |
| MintedIds.StoredSlugShape | internal/registrydb/fake.go:107-141 | every stored slug is hyphen-separated runs of [a-z0-9] of length at most 48 |
| MintedIds.StoredSlugsCollideOnlyModulo | internal/registrydb/fake.go:107-141 | stored clients whose numbers differ modulo 10^7 have different slugs, whatever their names |
| MintedIds.StoredSameNameSlugsCollideIff | internal/registrydb/fake.go:115-118 | two stored clients of one name share a slug exactly when their numbers agree modulo 10^7, in every run |
| MintedIds.StoredClientsCanShareASlug | internal/registrydb/fake.go:115-118 | a run of creations, for any name, ends with two different stored clients that share name and slug |
| MintedIds.CreatesStoreClients | internal/registrydb/fake.go:299-315 | after k creations the number is 2k and the j-th client is stored under number 2j + 1 with its name |
| Ids.MintedIdInjective | internal/registrydb/fake.go:102-105 | zero-padded printing gives different numbers different ids |
| Ids.MintedIdReads | internal/registrydb/fake.go:102-105 | an id is the fixed prefix and its number in decimal, at least 12 digits, padded only up to 12 |
| Ids.LastDigitsAreModulus | internal/registrydb/fake.go:134-140 | the last k characters of an id denote its number modulo 10^k, for k up to 12 |
| Ids.SameSuffixIffSameModulus | internal/registrydb/fake.go:134-140 | two ids share their last k characters exactly when their numbers agree modulo 10^k |
| Slugs.SlugShape | internal/registrydb/fake.go:124-141 | a slug is hyphen-separated non-empty runs of [a-z0-9], at most 48 characters, for every name |
| Slugs.SlugBaseShape | internal/registrydb/fake.go:124-141 | a slug base is never empty, has that shape and at most 40 characters, for any lower-casing |
| Slugs.SlugBaseIdempotent | internal/registrydb/fake.go:124-141 | normalising a base again changes nothing |
| SlugSpelling.SlugBaseSpellsName | internal/registrydb/fake.go:124-141 | for every name, the base holds in order exactly the letters and digits of the lower-cased trimmed name, with a hyphen between two of them exactly when something was dropped between them, cut at 40 characters; it is "client" when there are none |
| Selections.SelectionIsUnique | internal/wizard/wizard.go:452-463 | only one list holds exactly the elements that pass, in order |
| Slugs.SlugsDifferAcrossNames | internal/registrydb/fake.go:124-141 | numbers that differ modulo 10^7 give different slugs whatever the two names |
| Slugs.SameNameSlugsCollideIff | internal/registrydb/fake.go:115-118 | two clients of one name share a slug exactly when their numbers agree modulo 10^7 |
| Slugs.SameNameSlugCollision | internal/registrydb/fake.go:115-118 | numbers 1 and 10000001 are such a pair |
| RegistryInvariants.ClientIsolation | internal/registrydb/fake.go:240-779 | a call naming one client leaves detail, uses, evidence, audit and deletion listings and keys of every other client unchanged |
| RegistryInvariants.UnnamedClientUnchanged | internal/registrydb/fake.go:240-779 | and so does any sequence of calls that never names it |
| RegistryInvariants.ApplyKeepsValid | internal/registrydb/fake.go:240-779 | every call keeps ids minted and matching their keys, evidence owned by stored clients, tables consistent |
| RegistryInvariants.RunIsValid | internal/registrydb/fake.go:88-98 | so every run does |
| RegistryInvariants.LogStep | internal/registrydb/fake.go:150-155 | a failed call changes nothing; a successful one adds at most one entry, under the named client, the call's actor and its own action |
| RegistryInvariants.RowStep | internal/registrydb/fake.go:240-497 | what each call does to the row of a stored client, its own or another's |
| RegistryInvariants.NewRowStep | internal/registrydb/fake.go:299-315 | a client row appears only through creation, under the id just minted |
| RegistryInvariants.NumberGrows | internal/registrydb/fake.go:102-105 | the sequence number never goes back |
| StoreEffects.CallVerdict | internal/registrydb/fake.go:240-779 | each error of every store call occurs exactly when its own condition is the first to hold: arguments, unknown client, inapplicable call, illegal edge, bad record, unusable policy |
| StoreEffects.CallSucceedsIff | internal/registrydb/fake.go:240-779 | a store call succeeds exactly when none of these holds |
| StoreEffects.CallReturnsId | internal/registrydb/fake.go:299-315 | creations, evidence and deletion requests return the id just minted, other calls none |
| StoreEffects.RecordedEntry | internal/registrydb/fake.go:150-155 | the one entry a successful call leaves: new id, actor, client, action and every part of the detail |
| StoreEffects.CallWrites | internal/registrydb/fake.go:325-497 | the row after a successful call on a stored client: the named fields have the given values, all others are as before |
| StoreEffects.CreatedClient | internal/registrydb/fake.go:299-315 | a created row has the given name and contact, is a draft with an empty-object policy, and a slug that spells its name |
| StoreEffects.DeletionIsLogged | internal/registrydb/fake.go:726-741 | a deletion request is appended as submitted, under a new id, without an audit entry |
| StoreEffects.KeyIsAppended | internal/registrydb/fake.go:453-461 | a key row is appended, without an audit entry |
| StoreEffects.NewestFirst | internal/registrydb/fake.go:700-717 | a limited listing has min(limit, all) rows, none for a negative limit, the last row first |
| StoreEffects.EntriesAreSelected | internal/registrydb/fake.go:700-717 | a client's entries are exactly the log's entries with its id, in log order |
| StoreEffects.WebhookPattern | internal/registrydb/fake.go:346-346 | the accepted webhooks, character by character |
| StoreEffects.OriginPattern | internal/registrydb/fake.go:375-375 | the accepted origins, character by character |
| StoreEffects.StoredSlugSpellsName | internal/registrydb/fake.go:124-141 | in every run every stored slug is its client's spelled name, a hyphen and the end of the id |
| Lifecycle.TransitionIsExact | internal/lifecycle/lifecycle.go:126-155 | a transition succeeds exactly on legal edges, with readiness when the target is active, and on the offboarded retry; the status is then the target; any failure leaves the whole state unchanged |
| Lifecycle.DoneReachesTarget | routes/api.go:178-186 | success means the client has the target status, so echoing the target needs no second read |
| Lifecycle.RefusalIsExact | internal/lifecycle/lifecycle.go:161-188 | each refusal occurs exactly when its condition is the first to fail: identity, intended use, external check, or an illegal transition, which is the only store error for a stored client |
| Lifecycle.UnknownClientIsNotFound | internal/lifecycle/lifecycle.go:127-131 | not found is reported exactly for unknown clients |
| Lifecycle.IllegalEdgesGetTheStoresVerdict | internal/lifecycle/lifecycle.go:144-146 | on an illegal edge other than the retry the state is unchanged and the error is the illegal transition, with or without a purge fault |
| Lifecycle.OffboardingPurges | internal/lifecycle/lifecycle.go:148-152 | a successful offboarding, first or repeated, ends with a purge entry and no content left for the client |
| Lifecycle.FaultedOffboardingCanBeRetried | internal/lifecycle/lifecycle.go:139-152 | after a failed purge the flip stands and is reported, and repeating the call purges with one new audit entry and no second flip |
| Lifecycle.Service.Transition | internal/lifecycle/lifecycle.go:126-155 | the method, with its early returns, leaves the store and result of the sequential specification |
| Lifecycle.Service.RunPurge | internal/lifecycle/lifecycle.go:148-152 | the purge's outcome is returned, never swallowed |
| Lifecycle.Service.CheckActivationPreconditions | internal/lifecycle/lifecycle.go:161-188 | the first unmet precondition, reading the store without changing it |
| Lifecycle.Service.FindNonRevoked | internal/lifecycle/lifecycle.go:212-219 | finds a use without revocation exactly when there is one |
| Lifecycle.Service.constructor | internal/lifecycle/lifecycle.go:91-96 | the default external check accepts every client |
| FakeStore.Fake.constructor | internal/registrydb/fake.go:88-98 | starts empty |
| FakeStore.Fake.NextId | internal/registrydb/fake.go:102-105 | prints the next sequence number |
| FakeStore.Fake.AppendEntry | internal/registrydb/fake.go:150-155 | one entry at the end of the log under a new id, an absent detail stored as an empty object |
| FakeStore.Fake.TransitionClient | internal/registrydb/fake.go:240-260 | status and log change together, only on a legal edge of a stored client |
| FakeStore.Fake.GetClientFull | internal/registrydb/fake.go:263-272 | the detail of the client's view |
| FakeStore.Fake.CreateDraftClient | internal/registrydb/fake.go:299-315 | a draft with an empty-object policy and its slug, under a new id, audited |
| FakeStore.Fake.SetClientRegistrarIdentity | internal/registrydb/fake.go:325-338 | writes the two identity fields of a stored client and nothing else, audited |
| FakeStore.Fake.SetClientWebhook | internal/registrydb/fake.go:353-369 | pattern before existence; writes one field, audited |
| FakeStore.Fake.SetClientAllowedOrigins | internal/registrydb/fake.go:383-408 | at most 20, each matching, before existence; writes one field, audited |
| FakeStore.Fake.SetClientDcapiMode | internal/registrydb/fake.go:417-444 | merges the flag, or refuses without a write |
| FakeStore.Fake.CreateApiKey | internal/registrydb/fake.go:453-461 | appends one key row, not audited |
| FakeStore.Fake.SaveWrpDocument | internal/registrydb/fake.go:476-497 | document and uses change together or not at all |
| FakeStore.Fake.SetIntendedUses | internal/registrydb/fake.go:576-593 | replaces the uses, or refuses without a write |
| FakeStore.Fake.AllKeysPresent | internal/registrydb/fake.go:483-487 | holds exactly when no submitted key is empty |
| FakeStore.Fake.ReplaceIntendedUses | internal/registrydb/fake.go:528-568 | rebuilds map and order slice of one client in place, to the table of the specification |
| FakeStore.Fake.ResolveAll | internal/registrydb/fake.go:529-542 | the rows by key, later duplicates winning, ids kept or minted in order |
| FakeStore.Fake.RebuildOrder | internal/registrydb/fake.go:544-567 | surviving keys, then new ones by first appearance |
| FakeStore.Fake.KeepSurvivors | internal/registrydb/fake.go:550-555 | the keys that still have a row, in their previous order |
| FakeStore.Fake.ListIntendedUses | internal/registrydb/fake.go:618-629 | the rows in slice order |
| FakeStore.Fake.AddEvidence | internal/registrydb/fake.go:632-649 | stores the bytes under a new id and audits it |
| FakeStore.Fake.ListEvidence | internal/registrydb/fake.go:652-671 | the metadata of exactly the client's rows |
| FakeStore.Fake.GetEvidenceContent | internal/registrydb/fake.go:676-684 | bytes and type of the client's own row; another client's id reads like an unknown one |
| FakeStore.Fake.AppendAudit | internal/registrydb/fake.go:687-695 | refuses an empty actor or action, otherwise appends |
| FakeStore.Fake.ListAuditEntries | internal/registrydb/fake.go:700-717 | the first limit elements of the reversed, client-filtered log |
| FakeStore.Fake.NewestRows | internal/registrydb/fake.go:745-754 | the last rows first, at most limit of them |
| FakeStore.Fake.LogDeletionRequest | internal/registrydb/fake.go:726-741 | refuses an empty client or session, otherwise appends under a new id |
| FakeStore.Fake.ListDeletionRequests | internal/registrydb/fake.go:745-754 | the client's newest requests first |
| FakeStore.Fake.PurgeOffboarded | internal/registrydb/fake.go:762-779 | empties the content of an offboarded client's rows, keeps their metadata, audits it |
| FakeStore.Fake.DropContent | internal/registrydb/fake.go:772-776 | only that client's rows lose their content |
| Api.Router.ApiCreateClient | routes/api.go:114-137 | no store call without a name; reports id, slug and state of the row just written |
| Api.Router.ApiSetRegistration | routes/api_registration.go:247-280 | a rejected form stores nothing; an accepted one stores what the builder made of it and reports state and number of uses |
| Api.Router.ApiSetRegistrarIdentity | routes/api.go:475-496 | only a non-empty identifier and an absolute-https URL reach the store |
| Api.Router.ApiSetWebhook | routes/api.go:246-269 | no store call without a URL; reports the stored state and webhook |
| Api.Router.ApiSetAllowedOrigins | routes/api.go:321-353 | every origin is checked before the store sees any; reports the stored state and origins |
| Api.Router.ApiSetDcapiRequestMode | routes/api.go:406-436 | only the two modes reach the store; reports the stored state and the mode read from the stored policy |
| Api.Router.ApiCreateKey | routes/api_keys.go:29-48 | an unknown client is refused before randomness is drawn; otherwise the minted prefix and hash are stored and the key returned |
| Api.Router.ApiTransition | routes/api.go:218-236 | an empty target is refused, everything else is the service's call; a success reports the target |
| Api.Router.ToFormState | routes/api_registration.go:148-185 | every field of the request lands in its own field of the form |
| Api.Router.ToPurpose | routes/api_registration.go:189-198 | element by element, in order |
| Api.Router.ToPolicies | routes/api_registration.go:202-211 | each URI under the default policy type |
| ServedRequests.StoredHashVerifiesReturnedKey | routes/api_keys.go:29-48 | one key row is appended, its prefix is that of the returned key, and its hash verifies that key |
| Api.SuccessEchoesRequest | routes/api.go:114-496 | after every success the stored row holds what the request asked for, and what is reported is that, with the status the client had before, or the target of a transition |
| ServedRequests.CreateClientAnswer | routes/api.go:114-137 | success exactly for a name, otherwise an invalid body |
| ServedRequests.SetRegistrationAnswer | routes/api_registration.go:247-280 | success exactly for a request that meets the registration rules, stated on the request, and a stored client; otherwise its first defect, or not found |
| ServedRequests.SetIdentityAnswer | routes/api.go:475-496 | success exactly for both fields, an absolute-https URL and a stored client; each refusal otherwise |
| ServedRequests.SetWebhookAnswer | routes/api.go:246-269 | success exactly for a matching URL and a stored client; each refusal otherwise |
| ServedRequests.SetOriginsAnswer | routes/api.go:321-353 | success exactly for a list of at most 20 origins that pass both checks and a stored client; each refusal otherwise |
| ServedRequests.SetModeAnswer | routes/api.go:406-436 | success exactly for one of the two modes, a stored client and a policy that is absent or an object; each refusal otherwise |
| ServedRequests.ServedModeIsAccepted | routes/api.go:406-436 | in every state the API reaches, the policy is never in the way |
| ServedRequests.MintKeyAnswer | routes/api_keys.go:29-48 | success exactly for a stored client |
| ServedRequests.TransitAnswer | routes/api.go:199-236 | for every target and client: invalid body, not found, illegal transition, the three readiness refusals, a purge fault or success, each exactly on its condition |
| ServedRequests.RefusalChangesNothing | routes/api.go:114-496 | no answer but success or a purge fault changes the store |
| ServedRequests.SuccessIsRecorded | routes/api.go:114-496 | a success leaves one audit entry, by "api", under the client, with what was asked for |
| ServedRequests.TransitIsRecorded | routes/api.go:218-236 | a flip is recorded with both statuses, the reference and the reason in their places, and its purge after it |
| ServedRequests.ServedCreation | routes/api.go:114-137 | a created client has the name, contact and spelled slug of its request |
| Api.WrittenClientIsStored | routes/api.go:131-136 | the read after a successful write always finds the client |
| ApiKeys.DisplayKeyRecoversBytes | internal/apikeys/apikeys.go:55-80 | splitting a display key at its first two underscores and decoding recovers prefix and secret bytes, of every length, even when the secret contains underscores |
| ApiKeys.DisplayKeyInjective | internal/apikeys/apikeys.go:79-79 | so different bytes never print the same key |
| ApiKeys.EverySecretTextIsPrinted | internal/apikeys/apikeys.go:62-66 | every text of 32 base64url digits is the secret of some key and is parsed back, 32 underscores included |
| ApiKeys.ParsePhcString | internal/apikeys/apikeys.go:74-77 | splitting a PHC string at every dollar sign and decoding recovers salt and tag |
| ApiKeys.PhcStartsWithPinnedText | internal/apikeys/apikeys.go:32-44 | the printed parameters read $argon2id$v=19$m=19456,t=2,p=1$ |
| ApiKeys.MintedKeyVerifies | internal/apikeys/apikeys.go:72-80 | a minted key verifies against the hash minted with it |
| ApiKeys.MintedBytes | internal/apikeys/apikeys.go:55-80 | read back through the parsers: bytes 0-4 are the prefix, 5-28 the secret, 29-44 the salt, and the tag is derived from the secret's text and that salt with time 2, memory 19456, one thread and length 32 |
| ApiKeys.MintIsInjective | internal/apikeys/apikeys.go:55-80 | mints that return the same key drew the same 29 bytes |
| ApiKeys.MintedLengths | internal/apikeys/apikeys.go:38-41 | prefix 8, secret 32, key 44 characters |
| ApiKeys.MintFailsIff | internal/apikeys/apikeys.go:55-71 | a mint fails exactly when fewer than 45 bytes are left, at the read that runs out |
| ApiKeys.Mint | internal/apikeys/apikeys.go:55-80 | the method reads three buffers in order, returns empty strings and the stage on a short read, and otherwise the three strings of the specification |
| ApiKeys.Reader.ReadFull | internal/apikeys/apikeys.go:57-57 | fills the whole buffer from the front of the source, or fails having drained it |
| BaseN.DecodeEncode | internal/apikeys/apikeys.go:60-66 | decoding undoes unpadded encoding for byte strings of every length, in each of the three alphabets |
| BaseN.EncodeDecode | internal/apikeys/apikeys.go:60-66 | encoding undoes decoding for digit texts that fill whole bytes |
| BaseN.GroupsRoundTrip | internal/apikeys/apikeys.go:49-49 | regrouping bits into groups of up to eight and back loses nothing |
| BaseN.GroupsLength | internal/apikeys/apikeys.go:38-41 | as many digits as hold the bits, and no more |
| BaseN.GroupsAreThatNumber | internal/apikeys/apikeys.go:49-66 | the digits are the bytes read as one number, first byte first, shifted by the zero filler, which with the length fixes every digit |
| BaseN.CrockfordIsValid | internal/apikeys/apikeys.go:46-49 | the prefix alphabet reads back every digit and has no underscore |
| BaseN.CrockfordAlphabet | internal/apikeys/apikeys.go:49-49 | the digits are the configured 32 characters in order |
| BaseN.Base64Alphabets | internal/apikeys/apikeys.go:66-77 | both base64 alphabets are those of RFC 4648, in order |
| BaseN.RawUrlIsValid | internal/apikeys/apikeys.go:66-66 | the base64url alphabet reads back every digit |
| BaseN.RawStdIsValid | internal/apikeys/apikeys.go:74-77 | the standard alphabet reads back every digit and has no dollar sign |

## Left out

- FakeStore.Fake.ListEvidence: returns a set, because the service sorts by wall-clock time, which the model does not have
- InterleavedSafety.AgreementSurvivesInterleaving: building a document and saving it are one step, because the build shares nothing with other calls but the ULID stream
- Api.SuccessEchoesRequest: a handler's write and the read that fills its response are one step; another call in between could change what is reported
- Interleaving.UninterruptedCallIsServiceTransition: the only fault it injects is the purge's; faults of the other steps end the call without effect in the step protocol
- ApiKeys.Reader.ReadFull: a source that fails with bytes still to come is not modelled, only one that runs out
- Wall-clock values: `updated_at`, entry times and sort orders by time; the document's `createdAt` is a parameter
- The PostgreSQL store and its procedures, which are not in the repository
- `TestSetClientStatus` and the other test seams, which bypass the matrix on purpose
- `ListClientsByState`, the read handlers, HTTP, problem rendering, configuration, redaction, health and the command line
- JSON text: decoding of request bodies (a malformed one never reaches a handler's logic here), case-insensitive matching of policy keys, encoding of documents
- `url.Parse`, the regular expression engine, Unicode, argon2id and ULID generation, which are parameters; whether the handlers' origin check agrees with the store's pattern turns on the first of these
- Wrap-around of the sequence number, a Go `int`
- Aliasing of slices between callers and the store (the shallow copy in `GetClientFull`)
- `Phone` and `SrvDescription` of the form are modelled in the builder but never set by the API
