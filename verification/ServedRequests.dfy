/** The exact answer to every request, what it leaves behind, and that activation can be reached. */
module ServedRequests {
  import opened Api
  import opened ApiKeys
  import opened ApiRuns
  import opened ApiSafety
  import opened AuditChain
  import opened Ids
  import opened IntendedUses
  import opened Lifecycle
  import opened PolicyRuns
  import opened Registry
  import opened RegistryInvariants
  import opened Slugs
  import opened StoreEffects
  import opened Values
  import opened WizardExactness
  import opened WizardForms
  import Ts5

  // ---- What a good registration request is, stated on the request ----

  predicate GoodUseRequest(isHttps: string -> bool, u: ApiIntendedUse) {
    && u.purpose != [] && (forall i :: 0 <= i < |u.purpose| ==> u.purpose[i].lang != "" && u.purpose[i].text != "")
    && u.privacyPolicyUris != [] && (forall i :: 0 <= i < |u.privacyPolicyUris| ==> isHttps(u.privacyPolicyUris[i]))
    && u.credentials != [] && (forall j :: 0 <= j < |u.credentials| ==> GoodCredential(u.credentials[j]))
  }

  predicate GoodIdentityRequest(r: RegistrationRequest) {
    || (r.legalKind == "legalPerson" && exists i :: 0 <= i < |r.legalName| && r.legalName[i] != "")
    || (r.legalKind == "naturalPerson" && r.givenName != "" && r.familyName != "")
  }

  predicate IsTwoCapitals(code: string) {
    |code| == 2 && forall i :: 0 <= i < 2 ==> 'A' <= code[i] <= 'Z'
  }

  lemma CountryIsTwoCapitals(code: string)
    ensures IsCountry(code) <==> IsTwoCapitals(code)
  {
  }

  predicate GoodRequest(isHttps: string -> bool, r: RegistrationRequest) {
    && GoodIdentityRequest(r)
    && IsTwoCapitals(r.country)
    && (r.euid != "" || r.otherIds != [])
    && (forall i :: 0 <= i < |r.otherIds| ==> r.otherIds[i].kind != "" && r.otherIds[i].identifier != "")
    && IsTwoCapitals(r.supervisory.country)
    && (r.supervisory.email != [] || r.supervisory.phone != [] || r.supervisory.formUri != [])
    && r.intendedUses != []
    && (forall i :: 0 <= i < |r.intendedUses| ==> GoodUseRequest(isHttps, r.intendedUses[i]))
  }

  lemma GoodUseFormIff(isHttps: string -> bool, u: ApiIntendedUse)
    ensures GoodUse(isHttps, UseFormOf(u)) <==> GoodUseRequest(isHttps, u)
  {
    hide GoodCredential;
    var f := UseFormOf(u);
    if GoodUse(isHttps, f) {
      forall i | 0 <= i < |u.purpose|
        ensures u.purpose[i].lang != "" && u.purpose[i].text != ""
      {
        assert f.purpose[i].lang == u.purpose[i].lang && f.purpose[i].content == u.purpose[i].text;
      }
      forall i | 0 <= i < |u.privacyPolicyUris|
        ensures isHttps(u.privacyPolicyUris[i])
      {
        assert f.privacyPolicy[i].policyUri == u.privacyPolicyUris[i];
      }
    }
  }

  lemma GoodFormIff(isHttps: string -> bool, r: RegistrationRequest)
    ensures GoodForm(isHttps, FormOf(r)) <==> GoodRequest(isHttps, r)
  {
    hide GoodUse, GoodUseRequest, IsCountry, IsTwoCapitals;
    CountryIsTwoCapitals(r.country);
    CountryIsTwoCapitals(r.supervisory.country);
    forall i | 0 <= i < |r.intendedUses|
      ensures GoodUse(isHttps, FormOf(r).intendedUses[i]) <==> GoodUseRequest(isHttps, r.intendedUses[i])
    {
      GoodUseFormIff(isHttps, r.intendedUses[i]);
    }
    if GoodForm(isHttps, FormOf(r)) {
      forall i | 0 <= i < |r.intendedUses|
        ensures GoodUseRequest(isHttps, r.intendedUses[i])
      {
        assert GoodUse(isHttps, FormOf(r).intendedUses[i]);
      }
    }
  }

  // ---- The exact answer, request by request ----

  lemma CreateClientAnswer(env: Env, s: State, drawn: nat, name: string, email: string)
    ensures Serve(env, s, drawn, CreateClient(name, email)).1 == if name == "" then InvalidBody else Success
  {
    var req, call := CreateClient(name, email), CreateDraftClient(name, email, ACTOR);
    if name != "" {
      hide Serve, Apply;
      ServedCall(env, s, drawn, req, call);
      CallSucceedsIff(env.text, s, call);
    }
  }

  lemma SetIdentityAnswer(env: Env, s: State, drawn: nat, client: string, uri: string, identifier: string)
    ensures Serve(env, s, drawn, SetIdentity(client, uri, identifier)).1
         == if uri == "" || identifier == "" || !env.checks.isHttps(uri) then InvalidBody
            else if client !in s.clients then Refused(StoreError(NotFound))
            else Success
  {
    var req, call := SetIdentity(client, uri, identifier), SetClientRegistrarIdentity(client, uri, identifier, ACTOR);
    if uri != "" && identifier != "" && env.checks.isHttps(uri) {
      hide Serve, Apply;
      ServedCall(env, s, drawn, req, call);
      CallVerdict(env.text, s, call);
      CallSucceedsIff(env.text, s, call);
    }
  }

  lemma SetWebhookAnswer(env: Env, s: State, drawn: nat, client: string, url: string)
    ensures Serve(env, s, drawn, SetWebhookUrl(client, url)).1
         == if url == "" then InvalidBody
            else if !MatchesWebhook(url) then Refused(StoreError(Invalid))
            else if client !in s.clients then Refused(StoreError(NotFound))
            else Success
  {
    hide MatchesWebhook;
    var req, call := SetWebhookUrl(client, url), SetClientWebhook(client, url, ACTOR);
    if url != "" {
      hide Serve, Apply;
      ServedCall(env, s, drawn, req, call);
      CallVerdict(env.text, s, call);
      CallSucceedsIff(env.text, s, call);
    }
  }

  lemma SetOriginsAnswer(env: Env, s: State, drawn: nat, client: string, origins: Option<seq<string>>)
    ensures Serve(env, s, drawn, SetOrigins(client, origins)).1
         == if origins.None? || exists i :: 0 <= i < |origins.value| && !env.isWebOrigin(origins.value[i]) then
              InvalidBody
            else if |origins.value| > 20
                    || exists i :: 0 <= i < |origins.value| && !MatchesWebOrigin(origins.value[i]) then
              Refused(StoreError(Invalid))
            else if client !in s.clients then Refused(StoreError(NotFound))
            else Success
  {
    hide MatchesWebOrigin;
    if origins.Some? && forall i :: 0 <= i < |origins.value| ==> env.isWebOrigin(origins.value[i]) {
      hide Serve, Apply;
      var req, call := SetOrigins(client, origins), SetClientAllowedOrigins(client, origins.value, ACTOR);
      ServedCall(env, s, drawn, req, call);
      CallVerdict(env.text, s, call);
      CallSucceedsIff(env.text, s, call);
    }
  }

  predicate IsModeRequest(mode: Option<string>) {
    mode == Some("signed") || mode == Some("unsigned")
  }

  /** The policy is neither absent nor an object. */
  predicate NoPolicyObject(policy: RawJson) {
    !policy.NoText? && !(policy.Parsed? && policy.value.Object?)
  }

  lemma SetModeAnswer(env: Env, s: State, drawn: nat, client: string, mode: Option<string>)
    ensures Serve(env, s, drawn, SetMode(client, mode)).1
         == if !IsModeRequest(mode) then InvalidBody
            else if client !in s.clients then Refused(StoreError(NotFound))
            else if NoPolicyObject(s.clients[client].policy) then
              Refused(StoreError(if s.clients[client].policy == Parsed(Null) then Panic else Internal))
            else Success
  {
    hide Serve, Prepare, Apply, NoPolicyObject, IsModeRequest;
    PreparedMode(env, drawn, client, mode);
    var req := SetMode(client, mode);
    if IsModeRequest(mode) {
      ServedCall(env, s, drawn, req, SetClientDcapiMode(client, mode.value, ACTOR));
      ModeVerdict(env.text, s, client, mode.value);
    } else {
      ServedBounce(env, s, drawn, req, InvalidBody);
    }
  }

  lemma PreparedMode(env: Env, drawn: nat, client: string, mode: Option<string>)
    ensures IsModeRequest(mode) ==>
              && mode.Some?
              && Prepare(env, drawn, SetMode(client, mode)) == Issue(SetClientDcapiMode(client, mode.value, ACTOR))
    ensures !IsModeRequest(mode) ==> Prepare(env, drawn, SetMode(client, mode)) == Bounce(InvalidBody)
  {
    hide Build, FormOf;
  }

  lemma ModeVerdict(t: TextRules, s: State, client: string, mode: string)
    requires IsModeRequest(Some(mode))
    ensures Apply(t, s, SetClientDcapiMode(client, mode, ACTOR)).1
         == if client !in s.clients then Err(NotFound)
            else if NoPolicyObject(s.clients[client].policy) then
              Err(if s.clients[client].policy == Parsed(Null) then Panic else Internal)
            else DONE
  {
    hide MintedId, Audit;
  }

  lemma MintKeyAnswer(env: Env, s: State, drawn: nat, client: string, prefix: string, hash: string)
    ensures Serve(env, s, drawn, MintKey(client, prefix, hash)).1
         == if client in s.clients then Success else Refused(StoreError(NotFound))
  {
    hide Serve, Apply;
    var call := CreateKey(client, prefix, hash);
    ServedCall(env, s, drawn, MintKey(client, prefix, hash), call);
    CallVerdict(env.text, s, call);
    CallSucceedsIff(env.text, s, call);
  }

  /**
    Storing a minted key: one row is appended, found by the prefix of the key handed out,
    and its hash verifies that key.
   */
  lemma StoredHashVerifiesReturnedKey(env: Env, s: State, drawn: nat, client: string, random: seq<byte>)
    requires client in s.clients && |random| >= SALT_END
    ensures var m := MintFrom(env.argon, random);
            var (s', response) := Serve(env, s, drawn, MintKey(client, m.prefix, m.phcHash));
            && response == Success
            && |KeysOf(s', client)| == |KeysOf(s, client)| + 1 && KeysOf(s, client) <= KeysOf(s', client)
            && var row := KeysOf(s', client)[|KeysOf(s, client)|];
               && Verifies(env.argon, m.displayKey, row.secretHash)
               && ParseKey(m.displayKey).Some? && ParseKey(m.displayKey).value.prefix == row.prefix
  {
    hide MintFrom, Verifies, ParseKey, Serve, Apply, KeysOf;
    MintFailsIff(env.argon, random);
    var m := MintFrom(env.argon, random);
    MintKeyAnswer(env, s, drawn, client, m.prefix, m.phcHash);
    ServedCall(env, s, drawn, MintKey(client, m.prefix, m.phcHash), CreateKey(client, m.prefix, m.phcHash));
    KeyIsAppended(env.text, s, client, m.prefix, m.phcHash);
    MintedKeyVerifies(env.argon, random);
    MintedLengths(env.argon, random);
  }

  lemma SetRegistrationAnswer(env: Env, s: State, drawn: nat, client: string, body: RegistrationRequest, today: string)
    ensures var answer := Serve(env, s, drawn, SetRegistration(client, body, today)).1;
            if !GoodRequest(env.checks.isHttps, body) then
              && answer.RegistrationInvalid?
              && IsFirstDefect(env.checks.isHttps, FormOf(body), answer.error)
            else answer == if client in s.clients then Success else Refused(StoreError(NotFound))
  {
    hide GoodRequest, GoodForm, FormOf, IsFirstDefect, MintedId, Audit, Replace, FirstError, DocumentOf, UseProjections,
         ServiceTransition;
    var isHttps, f := env.checks.isHttps, FormOf(body);
    GoodFormIff(isHttps, body);
    BuildSucceedsIff(isHttps, f, env.ulids, drawn, today);
    match Build(isHttps, f, env.ulids, drawn, today)
    case Rejected(e) => BuildRejectsWithFirstDefect(isHttps, f, env.ulids, drawn, today, e);
    case Built(_, projections) => PendingKeysArePresent(f, env.ulids, drawn);
  }

  lemma PendingKeysArePresent(f: FormState, ulids: nat -> string, drawn: nat)
    ensures KeysPresent(UseProjections(f.intendedUses, ulids, drawn))
  {
  }

  lemma TransitAnswer(env: Env, s: State, drawn: nat, req: Request)
    requires req.Transit?
    ensures Serve(env, s, drawn, req).1
         == if req.target == OtherStatus("") then InvalidBody
            else if req.client !in s.clients then Refused(StoreError(NotFound))
            else TransitionAnswer(env, s, req.client, req.target, req.purgeFails)
  {
    hide ServiceTransition, TransitionAnswer, Build, FormOf;
    if req.client in s.clients {
      TransitionIsAnswered(env, s, req);
    } else {
      UnknownClientIsNotFound(env.checks, s, req.client, req.target, ACTOR, req.evidenceRef, req.reason,
                              req.purgeFails);
    }
  }

  lemma TransitionIsAnswered(env: Env, s: State, req: Request)
    requires req.Transit? && req.client in s.clients
    ensures var result := ServiceTransition(env.checks, s, req.client, req.target, ACTOR, req.evidenceRef, req.reason,
                                            req.purgeFails).1;
            TransitionAnswer(env, s, req.client, req.target, req.purgeFails)
              == if result.Done? then Success else Refused(result.failure)
  {
    hide MintedId, Listing, AnyNonRevoked, Purged, UsesOf;
    NoneUnrevoked(UsesOf(s, req.client));
  }

  lemma NoneUnrevoked(rows: seq<Row>)
    ensures !AnyNonRevoked(rows) <==> forall i :: 0 <= i < |rows| ==> rows[i].revokedAt != ""
  {
  }

  /** The answer to a named target for a stored client. */
  function TransitionAnswer(env: Env, s: State, client: string, target: Status, purgeFails: bool): Response
    requires client in s.clients
  {
    var row := s.clients[client];
    if row.status == Offboarded && target == Offboarded then if purgeFails then Refused(PurgeFault) else Success
    else if !Legal(row.status, target) then Refused(StoreError(IllegalTransition))
    else if target == Offboarded then if purgeFails then Refused(PurgeFault) else Success
    else if target != Active then Success
    else if row.clientIdentifier == "" || !env.checks.isHttps(row.registryUri) then Refused(RegistrarIdentityRequired)
    else if forall i :: 0 <= i < |UsesOf(s, client)| ==> UsesOf(s, client)[i].revokedAt != "" then
      Refused(IntendedUseRequired)
    else if !env.checks.ts5Ok(client) then Refused(Ts5CheckFailed)
    else Success
  }

  /** A request that is not answered with success changes nothing, unless it is a purge that failed. */
  lemma RefusalChangesNothing(env: Env, s: State, drawn: nat, req: Request)
    requires Serve(env, s, drawn, req).1 != Success && Serve(env, s, drawn, req).1 != Refused(PurgeFault)
    ensures Serve(env, s, drawn, req).0 == s
  {
    hide Prepare, Apply, ServiceTransition;
    if !req.Transit? {
      match Prepare(env, drawn, req)
      case Bounce(_) =>
      case Issue(call) =>
        LogStep(env.text, s, call);
        var outcome := Apply(env.text, s, call).1;
        assert Serve(env, s, drawn, req) == (Apply(env.text, s, call).0, AsResponse(outcome));
        assert outcome.Err?;
    } else {
      TransitFailureChangesNothing(env, s, req);
    }
  }

  lemma TransitFailureChangesNothing(env: Env, s: State, req: Request)
    requires req.Transit?
    ensures var (s', result) := ServiceTransition(env.checks, s, req.client, req.target, "api", req.evidenceRef,
                                                  req.reason, req.purgeFails);
            result != Done && result != Failed(PurgeFault) ==> s' == s
  {
    hide MintedId, Listing, AnyNonRevoked, HasIdentity, Purged;
  }

  /** In every state the API reaches, a valid mode for a stored client is accepted. */
  lemma ServedModeIsAccepted(env: Env, reqs: seq<Request>, drawn: nat, client: string, mode: string)
    requires client in HandleAll(env, reqs).store.clients && (mode == "signed" || mode == "unsigned")
    ensures Serve(env, HandleAll(env, reqs).store, drawn, SetMode(client, Some(mode))).1 == Success
  {
    hide HandleAll, Run, Serve, LastMode, AllSafe, Clean;
    ApiRunsAreStoreRuns(env, reqs);
    var w := HandleAll(env, reqs);
    PolicyFollowsModeCalls(env.text, w.history, client);
    SetModeAnswer(env, w.store, drawn, client, Some(mode));
  }

  // ---- What a success records ----

  function RecordOf(req: Request): (Action, Detail) {
    match req
    case CreateClient(name, _) => (ClientCreate, NameDetail(name))
    case SetRegistration(_, body, _) => (ClientSaveWrpDocument, CountDetail(|body.intendedUses|))
    case SetIdentity(_, uri, identifier) => (ClientSetRegistrarIdentity, IdentityDetail(uri, identifier))
    case SetWebhookUrl(_, url) => (ClientSetWebhook, WebhookDetail(url))
    case SetOrigins(_, Some(origins)) => (ClientSetAllowedOrigins, OriginsDetail(origins))
    case SetMode(_, Some(mode)) => (ClientSetDcapiMode, ModeDetail(mode))
    case _ => (OtherAction(""), EmptyObject)
  }

  lemma IssuedCallRecords(env: Env, drawn: nat, s: State, req: Request)
    requires !req.Transit? && !req.MintKey? && Prepare(env, drawn, req).Issue?
    ensures var call := Prepare(env, drawn, req).call;
            && AuditedAs(call) == Some(RecordOf(req).0) && DetailOf(s, call) == RecordOf(req).1
            && !call.CreateKey? && call.actor == "api" && NamedClient(s, call) == ClientOf(req, s.number)
  {
    hide FirstError, DocumentOf, MintedId;
  }

  /** A success leaves one entry, under the client, by "api", with what was asked for. */
  lemma SuccessIsRecorded(env: Env, s: State, drawn: nat, req: Request)
    requires !req.Transit? && !req.MintKey? && Serve(env, s, drawn, req).1 == Success
    ensures var s' := Serve(env, s, drawn, req).0;
            s'.auditLog == s.auditLog
              + [AuditEntry(MintedId(s'.number), "api", ClientOf(req, s.number), RecordOf(req).0, RecordOf(req).1)]
  {
    hide Apply, MintedId, Build, FormOf, RecordOf, ClientOf, DetailOf, AuditedAs, NamedClient;
    IssuedCallRecords(env, drawn, s, req);
    RecordedEntry(env.text, s, Prepare(env, drawn, req).call);
  }

  /** A flip is recorded with both statuses and the caller's reference and reason, each in its place. */
  lemma TransitIsRecorded(env: Env, s: State, drawn: nat, req: Request)
    requires req.Transit? && req.client in s.clients && Legal(s.clients[req.client].status, req.target)
    requires Serve(env, s, drawn, req).1 == Success
    ensures var s' := Serve(env, s, drawn, req).0;
            s'.auditLog == s.auditLog
              + [AuditEntry(MintedId(s.number + 1), "api", req.client, ClientTransition,
                            TransitionDetail(s.clients[req.client].status, req.target, req.evidenceRef, req.reason))]
              + (if req.target == Offboarded
                 then [AuditEntry(MintedId(s.number + 2), "api", req.client, ClientPurge, EmptyObject)] else [])
  {
    hide MintedId, Listing, AnyNonRevoked, HasIdentity, Purged;
  }

  /** A created client has the name and contact of its request. */
  lemma ServedCreation(env: Env, s: State, drawn: nat, name: string, email: string)
    requires name != ""
    ensures var s' := Serve(env, s, drawn, CreateClient(name, email)).0;
            var id := MintedId(s.number + 1);
            && id in s'.clients && s'.clients[id].name == name && s'.clients[id].status == Draft
            && s'.clients[id].contactEmails == (if email == "" then [] else [email])
            && SlugSays(env.text, name, id, s'.clients[id].slug)
  {
    hide MintedId, Apply, SlugSays;
    CreatedClient(env.text, s, name, email, "api");
  }

  // ---- Activation can be reached ----

  /** What a draft needs: an identity, a registration document, and the four moves to active. */
  function Onboarding(client: string, uri: string, identifier: string, body: RegistrationRequest, today: string)
    : seq<Request>
  {
    [SetIdentity(client, uri, identifier), SetRegistration(client, body, today),
     Move(client, EvidenceSubmitted), Move(client, FiledWithRegistrar), Move(client, Registered), Move(client, Active)]
  }

  function Move(client: string, target: Status): Request {
    Transit(client, target, "", "", false)
  }

  lemma HandleOneMore(env: Env, reqs: seq<Request>, req: Request)
    ensures HandleAll(env, reqs + [req]) == Handle(env, HandleAll(env, reqs), req)
  {
    hide Handle;
    assert (reqs + [req])[..|reqs + [req]| - 1] == reqs;
  }

  ghost predicate StoredWith(env: Env, w: World, client: string, status: Status) {
    Good(env, w) && client in w.store.clients && w.store.clients[client].status == status
  }

  lemma IdentityStep(env: Env, w: World, client: string, uri: string, identifier: string)
    requires StoredWith(env, w, client, Draft)
    requires uri != "" && identifier != "" && env.checks.isHttps(uri)
    ensures var w' := Handle(env, w, SetIdentity(client, uri, identifier));
            StoredWith(env, w', client, Draft) && HasIdentity(env.checks, w'.store.clients[client])
  {
    hide Good, Serve, Apply, MintedId;
    var req := SetIdentity(client, uri, identifier);
    SetIdentityAnswer(env, w.store, w.drawn, client, uri, identifier);
    HandleIsServe(env, w, req);
    SuccessEchoesRequest(env, w.store, w.drawn, req);
    PreparedIsApiCall(env, w.drawn, req);
    IssueKeepsGood(env, w, Prepare(env, w.drawn, req).call, w.drawn);
  }

  lemma RegistrationStep(env: Env, w: World, client: string, body: RegistrationRequest, today: string)
    requires StoredWith(env, w, client, Draft) && HasIdentity(env.checks, w.store.clients[client])
    requires GoodRequest(env.checks.isHttps, body)
    ensures var w' := Handle(env, w, SetRegistration(client, body, today));
            StoredWith(env, w', client, Draft) && Ready(env.checks, w'.store, client)
  {
    hide Good, Serve, Apply, MintedId, Build, FormOf, GoodRequest, HasIdentity, AnyNonRevoked, ApiCall, Listing,
         DrawnBy;
    var req := SetRegistration(client, body, today);
    SetRegistrationAnswer(env, w.store, w.drawn, client, body, today);
    HandleIsServe(env, w, req);
    SuccessEchoesRequest(env, w.store, w.drawn, req);
    AcceptedIsIssued(env, w.store, w.drawn, req);
    PreparedIsApiCall(env, w.drawn, req);
    var call := Prepare(env, w.drawn, req).call;
    IssueKeepsGood(env, w, call, DrawnAfter(env, w.drawn, req));
    GoodIsValid(env, w);
    SavedDocumentIsTs5(env, w.store, call);
    CallWrites(env.text, w.store, call);
    IdentityIgnoresDocument(env.checks, w.store.clients[client], call.document);
    LiveClient(env, Handle(env, w, req), client);
  }

  lemma AcceptedIsIssued(env: Env, s: State, drawn: nat, req: Request)
    requires req.SetRegistration? && Serve(env, s, drawn, req).1 == Success
    ensures Prepare(env, drawn, req).Issue?
    ensures var call := Prepare(env, drawn, req).call;
            call.SaveWrpDocument? && call.client == req.client && Apply(env.text, s, call).1.Ok?
  {
    hide Apply, Build, FormOf;
  }

  lemma IdentityIgnoresDocument(checks: Checks, row: Client, document: StoredDocument)
    ensures HasIdentity(checks, row.(document := document)) == HasIdentity(checks, row)
  {
  }

  lemma LiveClient(env: Env, w: World, client: string)
    requires Good(env, w) && client in w.store.clients && w.store.clients[client].document.WrpDocument?
    ensures AnyNonRevoked(UsesOf(w.store, client))
  {
    hide Valid, Run, Clean, AnyNonRevoked, Listing;
    assert UsesLive(w.store, client);
  }

  lemma MoveStep(env: Env, w: World, client: string, from: Status, target: Status)
    requires StoredWith(env, w, client, from) && Ready(env.checks, w.store, client) && Legal(from, target)
    requires target != Offboarded && env.checks.ts5Ok(client)
    ensures var w' := Handle(env, w, Move(client, target));
            StoredWith(env, w', client, target) && Ready(env.checks, w'.store, client)
  {
    hide Good, Apply, MintedId, Ready, Issued, IssueAll;
    var flip := TransitionClient(client, target, ACTOR, "", "");
    TwoCalls(env, w, flip, flip);
    assert Handle(env, w, Move(client, target)) == Issued(env, w, flip, w.drawn);
    FlipIsAllowed(env, flip);
    IssueKeepsGood(env, w, flip, w.drawn);
    IssueKeepsReady(env, w, flip, w.drawn, client);
    FlippedStatus(env, w, flip);
  }

  lemma FlipIsAllowed(env: Env, flip: Call)
    requires flip.TransitionClient?
    ensures ApiCall(env, flip)
  {
  }

  lemma FlippedStatus(env: Env, w: World, flip: Call)
    requires flip.TransitionClient? && flip.client in w.store.clients
    requires Legal(w.store.clients[flip.client].status, flip.to)
    ensures var s' := Issued(env, w, flip, w.drawn).store;
            flip.client in s'.clients && s'.clients[flip.client].status == flip.to
  {
    hide Apply;
    TransitionIsLegal(env.text, w.store, flip);
    CallWrites(env.text, w.store, flip);
  }

  /**
    From every state the API reaches, a draft is activated by an identity, an acceptable
    registration and the four moves, if the external check lets it: so safety is not empty.
   */
  lemma AnyDraftCanBeActivated(env: Env, reqs: seq<Request>, client: string, uri: string, identifier: string,
                               body: RegistrationRequest, today: string)
    requires client in HandleAll(env, reqs).store.clients
    requires HandleAll(env, reqs).store.clients[client].status == Draft
    requires uri != "" && identifier != "" && env.checks.isHttps(uri)
    requires GoodRequest(env.checks.isHttps, body) && env.checks.ts5Ok(client)
    ensures var s := HandleAll(env, reqs + Onboarding(client, uri, identifier, body, today)).store;
            && client in s.clients && s.clients[client].status == Active
            && Ready(env.checks, s, client) && EverActive(s.auditLog, client)
  {
    hide HandleAll, Handle, Good, GoodRequest, HasIdentity, Ready, AllSafe, EverActive;
    RunsKeepAll(env, reqs);
    var r1 := reqs + [SetIdentity(client, uri, identifier)];
    var r2 := r1 + [SetRegistration(client, body, today)];
    var r3 := r2 + [Move(client, EvidenceSubmitted)];
    var r4 := r3 + [Move(client, FiledWithRegistrar)];
    var r5 := r4 + [Move(client, Registered)];
    var r6 := r5 + [Move(client, Active)];
    assert reqs + Onboarding(client, uri, identifier, body, today) == r6;
    HandleOneMore(env, reqs, SetIdentity(client, uri, identifier));
    IdentityStep(env, HandleAll(env, reqs), client, uri, identifier);
    HandleOneMore(env, r1, SetRegistration(client, body, today));
    RegistrationStep(env, HandleAll(env, r1), client, body, today);
    HandleOneMore(env, r2, Move(client, EvidenceSubmitted));
    MoveStep(env, HandleAll(env, r2), client, Draft, EvidenceSubmitted);
    HandleOneMore(env, r3, Move(client, FiledWithRegistrar));
    MoveStep(env, HandleAll(env, r3), client, EvidenceSubmitted, FiledWithRegistrar);
    HandleOneMore(env, r4, Move(client, Registered));
    MoveStep(env, HandleAll(env, r4), client, FiledWithRegistrar, Registered);
    HandleOneMore(env, r5, Move(client, Active));
    MoveStep(env, HandleAll(env, r5), client, Registered, Active);
    ActiveWasActivated(env, HandleAll(env, r6), client);
  }

  lemma ActiveWasActivated(env: Env, w: World, client: string)
    requires StoredWith(env, w, client, Active)
    ensures EverActive(w.store.auditLog, client)
  {
    hide Valid, Run, Chain, UsesLive, IsPath, EverActive, ReachesActive;
    forall i | 0 <= i < |w.history|
      ensures Honest(w.history[i])
    {
      assert Clean(w.history[i]);
    }
    ChainMatchesState(env.text, w.history, client);
    EverActiveInChain(w.store.auditLog, client);
    EverActiveIffPostActivation(Chain(w.store.auditLog, client));
  }

  /** A small acceptable request, whatever the policy URI. */
  function SampleRequest(uri: string): RegistrationRequest {
    RegistrationRequest(
      "legalPerson", ["Example"], "", "", "LV000", [], "LV", [], [], [], "Example",
      [ApiIntendedUse([ApiText("en", "age check")], [uri],
                      [CredentialForm("mso_mdoc", ["org.example.age"], true, [])])],
      Ts5.SupervisoryAuthority("Authority", "LV", ["authority@example.org"], [], []), false)
  }

  lemma SampleIsGood(isHttps: string -> bool, uri: string)
    requires isHttps(uri)
    ensures GoodRequest(isHttps, SampleRequest(uri))
  {
    var r := SampleRequest(uri);
    assert r.legalName[0] != "";
    assert r.intendedUses[0].credentials[0].doctypesOrVcts[0] != "";
  }

  /** Starting from nothing, a run of requests ends with a ready, active client. */
  lemma SomeRunActivates(env: Env, uri: string)
    requires uri != "" && env.checks.isHttps(uri) && env.checks.ts5Ok(MintedId(1))
    ensures var reqs := [CreateClient("Example", "")] + Onboarding(MintedId(1), uri, "id", SampleRequest(uri), "today");
            var s := HandleAll(env, reqs).store;
            && MintedId(1) in s.clients && s.clients[MintedId(1)].status == Active
            && Ready(env.checks, s, MintedId(1)) && EverActive(s.auditLog, MintedId(1))
  {
    hide HandleAll, MintedId, Ready, EverActive, GoodRequest, SampleRequest, Onboarding;
    FirstClientIsDraft(env);
    SampleIsGood(env.checks.isHttps, uri);
    AnyDraftCanBeActivated(env, [CreateClient("Example", "")], MintedId(1), uri, "id", SampleRequest(uri), "today");
  }

  lemma FirstClientIsDraft(env: Env)
    ensures var s := HandleAll(env, [CreateClient("Example", "")]).store;
            MintedId(1) in s.clients && s.clients[MintedId(1)].status == Draft
  {
    hide HandleAll, Handle, MintedId, Serve, SlugSays;
    var create := CreateClient("Example", "");
    assert [] + [create] == [create];
    HandleOneMore(env, [], create);
    EmptyStart(env);
    HandleIsServe(env, START, create);
    ServedCreation(env, EMPTY, 0, "Example", "");
  }

  lemma EmptyStart(env: Env)
    ensures HandleAll(env, []) == START
  {
  }
}
