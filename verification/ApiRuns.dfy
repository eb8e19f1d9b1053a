/**
  Runs of API requests served one after the other, and what every reachable state keeps:
  an active client is ready, and its stored document and listed uses describe one scope.
 */
module ApiRuns {
  import opened Api
  import opened AuditChain
  import opened EvidenceConservation
  import opened Ids
  import opened IntendedUses
  import opened Lifecycle
  import opened MintedIds
  import opened Registry
  import opened RegistryInvariants
  import opened Slugs
  import opened UseHistories
  import opened WizardForms
  import opened WizardScope
  import Ts5

  /** The store, the ULIDs drawn so far, and every store call issued so far. */
  datatype World = World(store: State, drawn: nat, history: seq<Call>)

  const START := World(EMPTY, 0, [])

  /** The ULID stream never repeats. */
  ghost predicate FreshUlids(env: Env) {
    forall i, j :: env.ulids(i) == env.ulids(j) ==> i == j
  }

  // ---- Agreement of a stored document with the listed uses ----

  ghost predicate Agrees(document: StoredDocument, listed: seq<Row>) {
    match document
    case NoDocument => listed == []
    case WrpDocument(doc) =>
      && |doc.intendedUses| == |listed|
      && forall i :: 0 <= i < |listed| ==> SameUse(doc.intendedUses[i], listed[i])
    case OtherDocument(_) => false
  }

  /** Every key in the client's table was drawn from the ULID stream. */
  ghost predicate KeysDrawn(env: Env, s: State, client: string, drawn: nat) {
    forall k :: k in TableOf(s, client).order ==> exists n :: 0 <= n < drawn && k == PENDING + env.ulids(n)
  }

  ghost predicate ClientGood(env: Env, s: State, client: string, drawn: nat) {
    && KeysDrawn(env, s, client, drawn)
    && (client in s.clients ==> Agrees(s.clients[client].document, UsesOf(s, client)))
    && (client !in s.clients ==> UsesOf(s, client) == [])
  }

  /** A client with a registration document has a use that is not revoked. */
  ghost predicate UsesLive(s: State, client: string) {
    client in s.clients && s.clients[client].document.WrpDocument? ==> AnyNonRevoked(UsesOf(s, client))
  }

  ghost predicate AllNewKeys(order: seq<string>, uses: seq<Row>) {
    && (forall i :: 0 <= i < |uses| ==> uses[i].intendedUseId !in order)
    && (forall i, j :: 0 <= i < j < |uses| ==> uses[i].intendedUseId != uses[j].intendedUseId)
  }

  lemma AllNewFront(order: seq<string>, uses: seq<Row>)
    requires uses != [] && AllNewKeys(order, uses)
    ensures var front, key := uses[..|uses| - 1], uses[|uses| - 1].intendedUseId;
            AllNewKeys(order, front) && key !in order && !Mentions(front, key)
  {
  }

  /** A replace call whose keys are all new lists exactly its rows, in order. */
  lemma {:induction false} AppendAllNew(order: seq<string>, uses: seq<Row>)
    requires AllNewKeys(order, uses)
    ensures |AppendNew(order, uses)| == |order| + |uses|
    ensures AppendNew(order, uses)[..|order|] == order
    ensures forall i :: 0 <= i < |uses| ==> AppendNew(order, uses)[|order| + i] == uses[i].intendedUseId
  {
    if uses == [] {
    } else {
      hide AppendNew, AllNewKeys, Mentions;
      var front, last := uses[..|uses| - 1], uses[|uses| - 1];
      AllNewFront(order, uses);
      AppendAllNew(order, front);
      AppendOneNew(order, uses);
      assert AppendNew(order, uses) == AppendNew(order, front) + [last.intendedUseId];
    }
  }

  lemma AppendOneNew(order: seq<string>, uses: seq<Row>)
    requires uses != [] && uses[|uses| - 1].intendedUseId !in AppendNew(order, uses[..|uses| - 1])
    ensures AppendNew(order, uses) == AppendNew(order, uses[..|uses| - 1]) + [uses[|uses| - 1].intendedUseId]
  {
  }

  lemma {:induction false} KeptNone(order: seq<string>, keys: set<string>)
    requires forall k :: k in order ==> k !in keys
    ensures Kept(order, keys) == []
  {
    if order == [] {
    } else {
      KeptNone(order[..|order| - 1], keys);
    }
  }

  lemma {:induction false} LastMentionOfDistinct(uses: seq<Row>, i: nat)
    requires i < |uses| && Mentions(uses, uses[i].intendedUseId)
    requires forall i, j :: 0 <= i < j < |uses| ==> uses[i].intendedUseId != uses[j].intendedUseId
    ensures LastMention(uses, uses[i].intendedUseId) == uses[i]
  {
    if i == |uses| - 1 {
    } else {
      var front := uses[..|uses| - 1];
      assert front[i] == uses[i];
      assert Mentions(front, front[i].intendedUseId);
      LastMentionOfDistinct(front, i);
    }
  }

  lemma MentionedKeysAreNew(t: Table, uses: seq<Row>)
    requires AllNewKeys(t.order, uses)
    ensures forall k :: k in t.order ==> !Mentions(uses, k)
  {
  }

  lemma FreshReplaceDropsOld(t: Table, uses: seq<Row>, number: nat)
    requires forall k :: k in t.order ==> !Mentions(uses, k)
    ensures Replace(t, uses, number).0.order == AppendNew([], uses)
  {
    hide AppendNew, Kept, ResolveRows, Mentions;
    var rows := ResolveRows(t.rows, uses, number).0;
    ResolvedKeys(t.rows, uses, number);
    KeptNone(t.order, rows.Keys);
  }

  lemma FreshReplaceOrder(t: Table, uses: seq<Row>, number: nat)
    requires AllNewKeys(t.order, uses)
    ensures var order := Replace(t, uses, number).0.order;
            |order| == |uses| && forall i :: 0 <= i < |uses| ==> order[i] == uses[i].intendedUseId
  {
    hide Replace, AppendNew, Mentions;
    MentionedKeysAreNew(t, uses);
    FreshReplaceDropsOld(t, uses, number);
    AppendAllNew([], uses);
  }

  lemma FreshReplaceListing(t: Table, uses: seq<Row>, number: nat)
    requires Consistent(t) && AllNewKeys(t.order, uses)
    ensures var listed := Listing(Replace(t, uses, number).0);
            |listed| == |uses| && forall i :: 0 <= i < |uses| ==> listed[i].(id := "") == uses[i].(id := "")
  {
    hide AppendNew, Kept, ResolveRows, Listing;
    var t' := Replace(t, uses, number).0;
    ReplaceConsistent(t, uses, number);
    FreshReplaceOrder(t, uses, number);
    ListingFollowsOrder(t');
    forall i | 0 <= i < |uses|
      ensures t'.rows[t'.order[i]].(id := "") == uses[i].(id := "")
    {
      assert Mentions(uses, uses[i].intendedUseId);
      StoredRowIsLastMention(t.rows, uses, number, uses[i].intendedUseId);
      LastMentionOfDistinct(uses, i);
    }
  }

  // ---- One request ----

  lemma ProjectionKeysAreNew(env: Env, s: State, client: string, drawn: nat, uses: seq<Row>)
    requires FreshUlids(env) && KeysDrawn(env, s, client, drawn)
    requires forall i :: 0 <= i < |uses| ==> uses[i].intendedUseId == PendingId(env.ulids, drawn, i)
    ensures AllNewKeys(TableOf(s, client).order, uses)
  {
    forall i | 0 <= i < |uses|
      ensures uses[i].intendedUseId !in TableOf(s, client).order
    {
      if uses[i].intendedUseId in TableOf(s, client).order {
        var n :| 0 <= n < drawn && uses[i].intendedUseId == PENDING + env.ulids(n);
        SamePendingSameDraw(env, drawn + i, n);
      }
    }
    forall i, j | 0 <= i < j < |uses|
      ensures uses[i].intendedUseId != uses[j].intendedUseId
    {
      if uses[i].intendedUseId == uses[j].intendedUseId {
        SamePendingSameDraw(env, drawn + i, drawn + j);
      }
    }
  }

  lemma SamePendingSameDraw(env: Env, m: nat, n: nat)
    requires FreshUlids(env) && PENDING + env.ulids(m) == PENDING + env.ulids(n)
    ensures m == n
  {
    assert (PENDING + env.ulids(m))[|PENDING|..] == env.ulids(m);
    assert (PENDING + env.ulids(n))[|PENDING|..] == env.ulids(n);
  }

  /** What the document builder hands to the store. */
  ghost predicate FromBuilder(env: Env, call: Call, drawn: nat, count: nat) {
    && call.SaveWrpDocument?
    && call.document.WrpDocument?
    && |call.document.doc.intendedUses| == |call.uses| == count > 0
    && forall i :: 0 <= i < |call.uses| ==>
         && SameUse(call.document.doc.intendedUses[i], call.uses[i])
         && call.uses[i].id == "" && call.uses[i].revokedAt == ""
         && call.uses[i].intendedUseId == PendingId(env.ulids, drawn, i)
  }

  lemma RegistrationComesFromBuilder(env: Env, drawn: nat, req: Request)
    requires req.SetRegistration? && Prepare(env, drawn, req).Issue?
    ensures FromBuilder(env, Prepare(env, drawn, req).call, drawn, DrawnAfter(env, drawn, req) - drawn)
  {
    hide FirstError, SameUse, FormOf, DocumentOf, UseProjections;
    BuildPreservesScope(env.checks.isHttps, FormOf(req.body), env.ulids, drawn, req.today);
  }

  lemma SameUseIgnoresRowId(d: Ts5.IntendedUse, a: Row, b: Row)
    requires SameUse(d, a) && a.(id := "") == b.(id := "")
    ensures SameUse(d, b)
  {
    hide SameCredentialScope;
    assert a.(id := "").intendedUseId == b.(id := "").intendedUseId;
    assert a.(id := "").purpose == b.(id := "").purpose;
    assert a.(id := "").credentials == b.(id := "").credentials;
  }

  lemma SaveKeepsGood(env: Env, s: State, call: Call, drawn: nat, count: nat)
    requires FreshUlids(env) && Valid(s) && FromBuilder(env, call, drawn, count)
    requires ClientGood(env, s, call.client, drawn)
    ensures ClientGood(env, Apply(env.text, s, call).0, call.client, drawn + count)
  {
    hide Apply, MintedId, Replace, Listing, SameUse, Valid;
    var (s', outcome) := Apply(env.text, s, call);
    var client := call.client;
    ReplacingCall(env.text, s, call);
    if outcome.Err? {
      LogStep(env.text, s, call);
      DrawMore(env, s, client, drawn, drawn + count);
    } else {
      ProjectionKeysAreNew(env, s, client, drawn, call.uses);
      TableIsConsistent(s, client);
      FreshReplaceListing(TableOf(s, client), call.uses, s.number);
      FreshReplaceOrder(TableOf(s, client), call.uses, s.number);
      SavedDocument(env.text, s, call);
      var listed := UsesOf(s', client);
      forall i | 0 <= i < |listed|
        ensures SameUse(call.document.doc.intendedUses[i], listed[i])
      {
        SameUseIgnoresRowId(call.document.doc.intendedUses[i], call.uses[i], listed[i]);
      }
      forall k | k in TableOf(s', client).order
        ensures exists n :: 0 <= n < drawn + count && k == PENDING + env.ulids(n)
      {
        var i :| 0 <= i < |call.uses| && TableOf(s', client).order[i] == k;
        assert k == PENDING + env.ulids(drawn + i);
      }
    }
  }

  lemma TableIsConsistent(s: State, client: string)
    requires Valid(s)
    ensures Consistent(TableOf(s, client))
  {
    hide MintedId, Consistent;
  }

  lemma SavedDocument(t: TextRules, s: State, call: Call)
    requires Valid(s) && call.SaveWrpDocument? && Apply(t, s, call).1.Ok?
    ensures call.client in s.clients
    ensures var s' := Apply(t, s, call).0;
            call.client in s'.clients && s'.clients[call.client].document == call.document
  {
    hide Apply, MintedId, Valid;
    SaveNeedsClient(t, s, call);
    RowStep(t, s, call, call.client);
  }

  lemma SaveNeedsClient(t: TextRules, s: State, call: Call)
    requires call.SaveWrpDocument? && Apply(t, s, call).1.Ok?
    ensures call.client in s.clients
  {
    hide MintedId, Replace;
  }

  lemma DrawMore(env: Env, s: State, client: string, drawn: nat, more: nat)
    requires ClientGood(env, s, client, drawn) && drawn <= more
    ensures ClientGood(env, s, client, more)
  {
    hide Listing, Agrees;
    forall k | k in TableOf(s, client).order
      ensures exists n :: 0 <= n < more && k == PENDING + env.ulids(n)
    {
      var n :| 0 <= n < drawn && k == PENDING + env.ulids(n);
      assert 0 <= n < more;
    }
  }

  /** A call that leaves a client's table and document alone leaves the client good. */
  lemma OtherCallsKeepGood(env: Env, s: State, call: Call, client: string, drawn: nat)
    requires Valid(s) && ClientGood(env, s, client, drawn)
    requires !Replaces(call, client)
    ensures ClientGood(env, Apply(env.text, s, call).0, client, drawn)
  {
    hide Apply, MintedId, Valid, Listing, Agrees, SetterWrite;
    OtherCallsKeepTable(env.text, s, call, client);
    var s' := Apply(env.text, s, call).0;
    assert UsesOf(s', client) == UsesOf(s, client);
    if client in s.clients {
      RowStep(env.text, s, call, client);
      DocumentKept(s, call, client);
    } else if client in s'.clients {
      NewRowStep(env.text, s, call, client);
      NewClientHasNoDocument(env.text, client, call.name, call.email);
    }
  }

  lemma DocumentKept(s: State, call: Call, client: string)
    requires client in s.clients && !Replaces(call, client)
    ensures RowAfter(s, call, client).document == s.clients[client].document
  {
  }

  lemma NewClientHasNoDocument(t: TextRules, id: string, name: string, email: string)
    ensures NewClient(t, id, name, email).document == NoDocument
    ensures Agrees(NoDocument, [])
  {
    hide Slugify;
  }

  // ---- Readiness is stable ----

  /** The store calls the API issues, with what its handlers have checked first. */
  ghost predicate ApiCall(env: Env, call: Call) {
    match call
    case SetIntendedUses(_, _, _) => false
    case AddEvidenceRow(_, _, _, _) => false
    case AppendAuditEntry(_, _, _, _) => false
    case LogDeletionRequest(_, _, _) => false
    case SetClientRegistrarIdentity(_, uri, identifier, _) => identifier != "" && env.checks.isHttps(uri)
    case SaveWrpDocument(_, _, _, _) => exists drawn, count :: FromBuilder(env, call, drawn, count)
    case _ => true
  }

  lemma PreparedIsApiCall(env: Env, drawn: nat, req: Request)
    requires !req.Transit? && Prepare(env, drawn, req).Issue?
    ensures ApiCall(env, Prepare(env, drawn, req).call)
  {
    hide Build, FromBuilder, FormOf;
    if req.SetRegistration? {
      RegistrationComesFromBuilder(env, drawn, req);
    }
  }

  lemma {:induction false} LastMentionIsSubmitted(uses: seq<Row>, key: string)
    requires Mentions(uses, key)
    ensures LastMention(uses, key) in uses
  {
    if uses[|uses| - 1].intendedUseId == key {
      assert uses[|uses| - 1] in uses;
    } else {
      MentionsFrontOrLast(uses);
      LastMentionIsSubmitted(uses[..|uses| - 1], key);
    }
  }

  /** A replace call with any unrevoked rows, duplicates and old keys included, lists an unrevoked row. */
  lemma ReplaceListsUnrevoked(t: Table, uses: seq<Row>, number: nat)
    requires Consistent(t) && uses != []
    requires forall i :: 0 <= i < |uses| ==> uses[i].revokedAt == ""
    ensures AnyNonRevoked(Listing(Replace(t, uses, number).0))
  {
    hide AppendNew, Kept, ResolveRows, Listing;
    var t', key := Replace(t, uses, number).0, uses[0].intendedUseId;
    ReplaceConsistent(t, uses, number);
    ListingFollowsOrder(t');
    assert Mentions(uses, key);
    var i :| 0 <= i < |t'.order| && t'.order[i] == key;
    StoredRowIsLastMention(t.rows, uses, number, key);
    LastMentionIsSubmitted(uses, key);
    assert t'.rows[key].(id := "").revokedAt == LastMention(uses, key).(id := "").revokedAt;
    assert Listing(t')[i].revokedAt == "";
  }

  lemma SaveKeepsLive(env: Env, s: State, call: Call)
    requires Valid(s) && call.SaveWrpDocument? && ApiCall(env, call) && UsesLive(s, call.client)
    ensures UsesLive(Apply(env.text, s, call).0, call.client)
  {
    hide Apply, MintedId, Replace, Listing, SameUse, Valid, AnyNonRevoked, Consistent;
    ReplacingCall(env.text, s, call);
    if Apply(env.text, s, call).1.Err? {
      LogStep(env.text, s, call);
    } else {
      TableIsConsistent(s, call.client);
      ReplaceListsUnrevoked(TableOf(s, call.client), call.uses, s.number);
    }
  }

  lemma OtherCallsKeepLive(env: Env, s: State, call: Call, client: string)
    requires Valid(s) && UsesLive(s, client) && !Replaces(call, client)
    ensures UsesLive(Apply(env.text, s, call).0, client)
  {
    hide Apply, MintedId, Valid, Listing, AnyNonRevoked, SetterWrite;
    OtherCallsKeepTable(env.text, s, call, client);
    var s' := Apply(env.text, s, call).0;
    assert UsesOf(s', client) == UsesOf(s, client);
    if client in s.clients {
      RowStep(env.text, s, call, client);
      DocumentKept(s, call, client);
    } else if client in s'.clients {
      NewRowStep(env.text, s, call, client);
      NewClientHasNoDocument(env.text, client, call.name, call.email);
    }
  }

  /** Ready, once the document builder has been the only source of uses. */
  lemma ReadyIsStable(env: Env, s: State, call: Call, client: string)
    requires Valid(s) && ApiCall(env, call)
    requires UsesLive(s, client)
    requires Ready(env.checks, s, client)
    ensures Ready(env.checks, Apply(env.text, s, call).0, client)
  {
    hide Apply, MintedId, Valid, Listing, AnyNonRevoked, FromBuilder;
    var (s', outcome) := Apply(env.text, s, call);
    RowStep(env.text, s, call, client);
    IdentityKept(env, s, call, client);
    if Replaces(call, client) {
      if outcome.Ok? {
        SavedDocumentIsTs5(env, s, call);
        SaveKeepsLive(env, s, call);
      } else {
        LogStep(env.text, s, call);
      }
    } else {
      OtherCallsKeepTable(env.text, s, call, client);
      assert UsesOf(s', client) == UsesOf(s, client);
    }
  }

  lemma IdentityKept(env: Env, s: State, call: Call, client: string)
    requires ApiCall(env, call) && client in s.clients && HasIdentity(env.checks, s.clients[client])
    ensures HasIdentity(env.checks, RowAfter(s, call, client))
  {
    hide FromBuilder, MergeMode;
  }

  lemma SavedDocumentIsTs5(env: Env, s: State, call: Call)
    requires Valid(s) && ApiCall(env, call) && call.SaveWrpDocument? && Apply(env.text, s, call).1.Ok?
    ensures var s' := Apply(env.text, s, call).0;
            call.client in s'.clients && s'.clients[call.client].document.WrpDocument?
  {
    hide Apply, MintedId, Valid;
    SavedDocument(env.text, s, call);
  }

  /** The calls the API issues never pose as the store's own audit entries, nor choose internal ids. */
  predicate Clean(call: Call) {
    Honest(call) && HonestEvidence(call) && LeavesIds(call)
  }

  lemma ApiCallIsClean(env: Env, call: Call)
    requires ApiCall(env, call)
    ensures Clean(call)
  {
    hide SameUse;
  }

  // ---- Issuing one store call ----

  function Issued(env: Env, w: World, call: Call, drawn: nat): World {
    World(Apply(env.text, w.store, call).0, drawn, w.history + [call])
  }

  /** What every world reached through the API keeps, whatever the ULID stream. */
  ghost predicate Good(env: Env, w: World) {
    && Valid(w.store)
    && w.store == Run(env.text, w.history)
    && (forall i :: 0 <= i < |w.history| ==> Clean(w.history[i]))
    && (forall c :: UsesLive(w.store, c))
  }

  /** What it keeps besides when ULIDs never repeat. */
  ghost predicate Agreeing(env: Env, w: World) {
    forall c :: ClientGood(env, w.store, c, w.drawn)
  }

  /** A client past its first activation is ready. */
  ghost predicate Safe(env: Env, s: State, client: string) {
    client in s.clients && PostActivation(s.clients[client].status) ==> Ready(env.checks, s, client)
  }

  /** The call, if it saves a document, is what the builder made of the ULIDs in between. */
  ghost predicate Paid(env: Env, w: World, call: Call, drawn: nat) {
    && w.drawn <= drawn
    && (call.SaveWrpDocument? ==> FromBuilder(env, call, w.drawn, drawn - w.drawn))
  }

  lemma IssueKeepsClientGood(env: Env, w: World, call: Call, drawn: nat, client: string)
    requires FreshUlids(env) && Valid(w.store) && ClientGood(env, w.store, client, w.drawn)
    requires ApiCall(env, call) && Paid(env, w, call, drawn)
    ensures ClientGood(env, Issued(env, w, call, drawn).store, client, drawn)
  {
    hide Apply, MintedId, Valid, ClientGood, FromBuilder, FreshUlids;
    if Replaces(call, client) {
      SaveKeepsGood(env, w.store, call, w.drawn, drawn - w.drawn);
    } else {
      OtherCallsKeepGood(env, w.store, call, client, w.drawn);
      DrawMore(env, Apply(env.text, w.store, call).0, client, w.drawn, drawn);
    }
  }

  lemma IssueKeepsAgreeing(env: Env, w: World, call: Call, drawn: nat)
    requires FreshUlids(env) && Good(env, w) && Agreeing(env, w)
    requires ApiCall(env, call) && Paid(env, w, call, drawn)
    ensures Agreeing(env, Issued(env, w, call, drawn))
  {
    hide Apply, Valid, ClientGood, UsesLive, Run, Clean, FreshUlids, ApiCall, Paid;
    forall c
      ensures ClientGood(env, Issued(env, w, call, drawn).store, c, drawn)
    {
      IssueKeepsClientGood(env, w, call, drawn, c);
    }
  }

  lemma IssueKeepsLive(env: Env, w: World, call: Call, drawn: nat, client: string)
    requires Valid(w.store) && UsesLive(w.store, client) && ApiCall(env, call)
    ensures UsesLive(Issued(env, w, call, drawn).store, client)
  {
    hide Apply, Valid, UsesLive, FromBuilder;
    if Replaces(call, client) {
      SaveKeepsLive(env, w.store, call);
    } else {
      OtherCallsKeepLive(env, w.store, call, client);
    }
  }

  lemma IssueKeepsGood(env: Env, w: World, call: Call, drawn: nat)
    requires Good(env, w) && ApiCall(env, call)
    ensures Good(env, Issued(env, w, call, drawn))
  {
    hide Apply, Valid, UsesLive, Run, Clean, ApiCall;
    forall c
      ensures UsesLive(Issued(env, w, call, drawn).store, c)
    {
      IssueKeepsLive(env, w, call, drawn, c);
    }
    ApplyKeepsValid(env.text, w.store, call);
    RunStep(env.text, w.history, call);
    ApiCallIsClean(env, call);
  }

  lemma IssueKeepsReady(env: Env, w: World, call: Call, drawn: nat, client: string)
    requires Good(env, w) && ApiCall(env, call)
    requires Ready(env.checks, w.store, client)
    ensures Ready(env.checks, Issued(env, w, call, drawn).store, client)
  {
    hide Apply, Valid, UsesLive, Run, Clean, ApiCall, Ready;
    ReadyIsStable(env, w.store, call, client);
  }

  lemma GoodIsValid(env: Env, w: World)
    requires Good(env, w)
    ensures Valid(w.store)
  {
  }

  lemma IssueKeepsValid(env: Env, w: World, call: Call, drawn: nat)
    requires Valid(w.store)
    ensures Valid(Issued(env, w, call, drawn).store)
  {
    hide Apply, Valid;
    ApplyKeepsValid(env.text, w.store, call);
  }

  /** Does this call move this client to active? */
  predicate Activates(s: State, call: Call, client: string) {
    && call.TransitionClient? && call.client == client && call.to == Active
    && client in s.clients && Legal(s.clients[client].status, Active)
  }

  /** Only an activation can make a client unsafe, and not if it was ready. */
  lemma IssueKeepsSafe(env: Env, w: World, call: Call, drawn: nat, client: string)
    requires Good(env, w) && ApiCall(env, call)
    requires Safe(env, w.store, client)
    requires Activates(w.store, call, client) ==> Ready(env.checks, w.store, client)
    ensures Safe(env, Issued(env, w, call, drawn).store, client)
  {
    hide Apply, MintedId, Valid, UsesLive, Run, Clean, ApiCall, Ready;
    if Ready(env.checks, w.store, client) {
      IssueKeepsReady(env, w, call, drawn, client);
    } else if client in w.store.clients {
      PostActivationStep(env.text, w.store, call, client);
    } else if client in Apply(env.text, w.store, call).0.clients {
      CreatedStartsAtDraft(env.text, w.store, call, client);
    }
  }

  /** A client gets past its first activation only by a transition to active. */
  lemma PostActivationStep(t: TextRules, s: State, call: Call, client: string)
    requires Valid(s) && client in s.clients
    ensures var s' := Apply(t, s, call).0;
            && client in s'.clients
            && (PostActivation(s.clients[client].status) ==> PostActivation(s'.clients[client].status))
    ensures var s' := Apply(t, s, call).0;
            PostActivation(s'.clients[client].status) ==>
              PostActivation(s.clients[client].status) || Activates(s, call, client)
  {
    hide Apply, MintedId, Valid, SetterWrite;
    RowStep(t, s, call, client);
    if call.TransitionClient? && call.client == client {
      TransitionIsLegal(t, s, call);
      TransitionRow(s, call);
    } else {
      StatusStep(t, s, call, client);
    }
  }

  lemma TransitionIsLegal(t: TextRules, s: State, call: Call)
    requires call.TransitionClient? && call.client in s.clients
    ensures Apply(t, s, call).1.Ok? <==> Legal(s.clients[call.client].status, call.to)
  {
    hide MintedId;
  }

  lemma TransitionRow(s: State, call: Call)
    requires call.TransitionClient? && call.client in s.clients
    ensures RowAfter(s, call, call.client).status == call.to
  {
  }
}
