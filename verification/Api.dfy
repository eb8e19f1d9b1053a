/** The admin API's state-changing handlers, as functions and as the methods that run them. */
module Api {
  import opened ApiKeys
  import opened FakeStore
  import opened Ids
  import opened IntendedUses
  import opened Lifecycle
  import opened Registry
  import opened RegistryInvariants
  import opened Slugs
  import opened Values
  import opened Wizard
  import opened WizardForms
  import Ts5

  const DEFAULT_POLICY_TYPE := "http://data.europa.eu/eudi/policy/privacy-policy"
  const ACTOR := "api"

  /** What the service takes from outside: text rules, URL checks, the ULID stream and the key derivation. */
  datatype Env = Env(text: TextRules, checks: Checks, isWebOrigin: string -> bool, ulids: nat -> string, argon: Argon)

  // ---- Request bodies ----

  datatype ApiText = ApiText(lang: string, text: string)

  datatype ApiIntendedUse = ApiIntendedUse(
    purpose: seq<ApiText>, privacyPolicyUris: seq<string>, credentials: seq<CredentialForm>)

  datatype RegistrationRequest = RegistrationRequest(
    legalKind: string,
    legalName: seq<string>,
    givenName: string,
    familyName: string,
    euid: string,
    otherIds: seq<Ts5.Identifier>,
    country: string,
    email: seq<string>,
    infoUri: seq<string>,
    supportUri: seq<string>,
    tradeName: string,
    intendedUses: seq<ApiIntendedUse>,
    supervisory: Ts5.SupervisoryAuthority,
    isPsb: bool)

  function PurposeOf(texts: seq<ApiText>): seq<Ts5.MultiLangString> {
    seq(|texts|, i requires 0 <= i < |texts| => Ts5.MultiLangString(texts[i].lang, texts[i].text))
  }

  function PoliciesOf(uris: seq<string>): seq<Ts5.Policy> {
    seq(|uris|, i requires 0 <= i < |uris| => Ts5.Policy(DEFAULT_POLICY_TYPE, uris[i]))
  }

  function UseFormOf(u: ApiIntendedUse): IntendedUseForm {
    IntendedUseForm(PurposeOf(u.purpose), PoliciesOf(u.privacyPolicyUris), u.credentials)
  }

  function UseFormsOf(us: seq<ApiIntendedUse>): seq<IntendedUseForm> {
    seq(|us|, i requires 0 <= i < |us| => UseFormOf(us[i]))
  }

  /** The form a request describes; this surface collects no phone and no service description. */
  function FormOf(r: RegistrationRequest): FormState {
    FormState(r.legalKind, r.legalName, r.givenName, r.familyName, r.euid, r.otherIds, r.country, r.email, [],
              r.infoUri, r.supportUri, r.tradeName, [], UseFormsOf(r.intendedUses), r.supervisory, r.isPsb)
  }

  /** Every state-changing request. Minting a key is given the row it stores. */
  datatype Request =
    | CreateClient(name: string, email: string)
    | SetRegistration(client: string, body: RegistrationRequest, today: string)
    | SetIdentity(client: string, uri: string, identifier: string)
    | SetWebhookUrl(client: string, url: string)
    | SetOrigins(client: string, origins: Option<seq<string>>)
    | SetMode(client: string, mode: Option<string>)
    | MintKey(client: string, prefix: string, secretHash: string)
    | Transit(client: string, target: Status, evidenceRef: string, reason: string, purgeFails: bool)

  datatype Response =
    | Success
    | InvalidBody
    | RegistrationInvalid(error: FormError)
    | Refused(failure: Failure)
    | MintFailed(stage: Stage)

  /** What a successful response carries. */
  datatype Body =
    | NoBody
    | ClientCreated(id: string, slug: string, state: Status)
    | RegistrationResult(id: string, state: Status, intendedUses: nat)
    | WebhookState(id: string, state: Status, webhookUrl: string)
    | OriginsState(id: string, state: Status, allowedOrigins: seq<string>)
    | ModeState(id: string, state: Status, dcapiRequestMode: string)
    | KeyCreated(id: string, prefix: string, apiKey: string)
    | ClientState(id: string, state: Status)

  /** What a handler reports after its write, read back from the row it wrote. */
  function ReadBack(req: Request, row: Client): Body {
    match req
    case CreateClient(_, _) => ClientCreated(row.id, row.slug, row.status)
    case SetRegistration(client, body, _) => RegistrationResult(client, row.status, |body.intendedUses|)
    case SetWebhookUrl(client, _) => WebhookState(client, row.status, row.webhook)
    case SetOrigins(client, _) => OriginsState(client, row.status, row.allowedOrigins)
    case SetMode(client, _) => ModeState(client, row.status, StoredMode(row.policy))
    case _ => NoBody
  }

  /** The client a successful request leaves behind, given the sequence number before it. */
  function ClientOf(req: Request, number: nat): string {
    if req.CreateClient? then MintedId(number + 1) else req.client
  }

  /** The body a handler sends: nothing with a refusal, otherwise what it read back. */
  ghost predicate Reports(req: Request, response: Response, body: Body, before: State, after: State) {
    if response.Success? then
      && ClientOf(req, before.number) in after.clients
      && body == ReadBack(req, after.clients[ClientOf(req, before.number)])
    else body.NoBody?
  }

  /** What a handler does before it touches the store: bounce the request, or issue one call. */
  datatype Prepared = Bounce(response: Response) | Issue(call: Call)

  function Prepare(env: Env, drawn: nat, req: Request): Prepared
    requires !req.Transit?
  {
    match req
    case CreateClient(name, email) =>
      if name == "" then Bounce(InvalidBody) else Issue(CreateDraftClient(name, email, ACTOR))
    case SetRegistration(client, body, today) =>
      (match Build(env.checks.isHttps, FormOf(body), env.ulids, drawn, today)
       case Rejected(e) => Bounce(RegistrationInvalid(e))
       case Built(document, projections) => Issue(SaveWrpDocument(client, WrpDocument(document), projections, ACTOR)))
    case SetIdentity(client, uri, identifier) =>
      if uri == "" || identifier == "" || !env.checks.isHttps(uri) then Bounce(InvalidBody)
      else Issue(SetClientRegistrarIdentity(client, uri, identifier, ACTOR))
    case SetWebhookUrl(client, url) =>
      if url == "" then Bounce(InvalidBody) else Issue(SetClientWebhook(client, url, ACTOR))
    case SetOrigins(client, origins) =>
      if origins.None? || exists i :: 0 <= i < |origins.value| && !env.isWebOrigin(origins.value[i]) then
        Bounce(InvalidBody)
      else Issue(SetClientAllowedOrigins(client, origins.value, ACTOR))
    case SetMode(client, mode) =>
      if mode.None? || (mode.value != SIGNED && mode.value != UNSIGNED) then Bounce(InvalidBody)
      else Issue(SetClientDcapiMode(client, mode.value, ACTOR))
    case MintKey(client, prefix, secretHash) => Issue(CreateKey(client, prefix, secretHash))
  }

  function DrawnAfter(env: Env, drawn: nat, req: Request): nat {
    if req.SetRegistration? then drawn + DrawnBy(env.checks.isHttps, FormOf(req.body)) else drawn
  }

  function AsResponse(outcome: Outcome): Response {
    if outcome.Ok? then Success else Refused(StoreError(outcome.error))
  }

  /** One request served start to end. */
  function Serve(env: Env, s: State, drawn: nat, req: Request): (State, Response) {
    if req.Transit? then
      if req.target == OtherStatus("") then (s, InvalidBody)
      else
        var (s', result) := ServiceTransition(env.checks, s, req.client, req.target, ACTOR, req.evidenceRef, req.reason,
                                              req.purgeFails);
        (s', if result.Done? then Success else Refused(result.failure))
    else
      match Prepare(env, drawn, req)
      case Bounce(response) => (s, response)
      case Issue(call) => var (s', outcome) := Apply(env.text, s, call); (s', AsResponse(outcome))
  }

  /** Nothing deletes clients, so a read right after a successful write finds the client. */
  lemma WrittenClientIsStored(env: Env, s: State, call: Call)
    requires call.CreateDraftClient? ||
             ((call.SaveWrpDocument? || IsSetter(call)) && Apply(env.text, s, call).1.Ok?)
    ensures NamedClient(s, call) in Apply(env.text, s, call).0.clients
    ensures call.CreateDraftClient? ==> Apply(env.text, s, call).1 == Ok(NamedClient(s, call))
  {
    hide MintedId, Slugify, Replace;
  }

  lemma ProjectionPerUse(request: RegistrationRequest, ulids: nat -> string, drawn: nat)
    ensures |UseProjections(FormOf(request).intendedUses, ulids, drawn)| == |request.intendedUses|
  {
  }

  class Router {
    const env: Env
    const store: Fake
    const service: Service
    const ulids: UlidSource

    ghost predicate Wired() {
      store.text == env.text && service.store == store && service.checks == env.checks && ulids.stream == env.ulids
    }

    constructor (env: Env, store: Fake, ulids: UlidSource)
      requires store.text == env.text && ulids.stream == env.ulids
      ensures Wired() && this.env == env && this.store == store && this.ulids == ulids
    {
      this.env := env;
      this.store := store;
      this.ulids := ulids;
      service := new Service.WithChecks(store, env.checks);
    }

    method ToPurpose(texts: seq<ApiText>) returns (out: seq<Ts5.MultiLangString>)
      ensures out == PurposeOf(texts)
    {
      out := [];
      for i := 0 to |texts|
        invariant out == PurposeOf(texts)[..i]
      {
        out := out + [Ts5.MultiLangString(texts[i].lang, texts[i].text)];
      }
    }

    method ToPolicies(uris: seq<string>) returns (out: seq<Ts5.Policy>)
      ensures out == PoliciesOf(uris)
    {
      out := [];
      for i := 0 to |uris|
        invariant out == PoliciesOf(uris)[..i]
      {
        out := out + [Ts5.Policy(DEFAULT_POLICY_TYPE, uris[i])];
      }
    }

    method ToFormState(r: RegistrationRequest) returns (f: FormState)
      ensures f == FormOf(r)
    {
      var uses := [];
      for i := 0 to |r.intendedUses|
        invariant uses == UseFormsOf(r.intendedUses)[..i]
      {
        var u := r.intendedUses[i];
        var purpose := ToPurpose(u.purpose);
        var policies := ToPolicies(u.privacyPolicyUris);
        uses := uses + [IntendedUseForm(purpose, policies, u.credentials)];
      }
      return FormState(r.legalKind, r.legalName, r.givenName, r.familyName, r.euid, r.otherIds, r.country, r.email, [],
                       r.infoUri, r.supportUri, r.tradeName, [], uses, r.supervisory, r.isPsb);
    }

    method ApiCreateClient(name: string, email: string) returns (response: Response, body: Body)
      requires Wired()
      modifies store
      ensures (store.Value(), response) == Serve(env, old(store.Value()), ulids.drawn, CreateClient(name, email))
      ensures Reports(CreateClient(name, email), response, body, old(store.Value()), store.Value())
    {
      hide CreateDraft, MintedId, NewClient, Listing, EntriesOf;
      if name == "" {
        return InvalidBody, NoBody;
      }
      var outcome := store.CreateDraftClient(name, email, ACTOR);
      WrittenClientIsStored(env, old(store.Value()), CreateDraftClient(name, email, ACTOR));
      var full := store.GetClientFull(outcome.id);
      return Success, ClientCreated(full.value.id, full.value.slug, full.value.status);
    }

    method ApiSetRegistration(client: string, request: RegistrationRequest, today: string)
      returns (response: Response, body: Body)
      requires Wired()
      modifies store, ulids
      ensures (store.Value(), response)
           == Serve(env, old(store.Value()), old(ulids.drawn), SetRegistration(client, request, today))
      ensures ulids.drawn == DrawnAfter(env, old(ulids.drawn), SetRegistration(client, request, today))
      ensures Reports(SetRegistration(client, request, today), response, body, old(store.Value()), store.Value())
    {
      hide SaveDocument, FirstError, DocumentOf, UseProjections, DrawnBy, FormOf, MintedId, Listing, EntriesOf;
      var form := ToFormState(request);
      var document, projections, error := BuildForm(env.checks.isHttps, form, ulids, today);
      if error.Some? {
        return RegistrationInvalid(error.value), NoBody;
      }
      var outcome := store.SaveWrpDocument(client, WrpDocument(document.Document()), projections, ACTOR);
      if outcome.Err? {
        return AsResponse(outcome), NoBody;
      }
      WrittenClientIsStored(env, old(store.Value()),
                            SaveWrpDocument(client, WrpDocument(document.Document()), projections, ACTOR));
      var full := store.GetClientFull(client);
      ProjectionPerUse(request, env.ulids, old(ulids.drawn));
      return Success, RegistrationResult(client, full.value.status, |projections|);
    }

    method ApiSetRegistrarIdentity(client: string, uri: string, identifier: string) returns (response: Response)
      requires Wired()
      modifies store
      ensures (store.Value(), response)
           == Serve(env, old(store.Value()), ulids.drawn, SetIdentity(client, uri, identifier))
    {
      hide SetRegistrarIdentity;
      if uri == "" || identifier == "" {
        return InvalidBody;
      }
      if !env.checks.isHttps(uri) {
        return InvalidBody;
      }
      var outcome := store.SetClientRegistrarIdentity(client, uri, identifier, ACTOR);
      return AsResponse(outcome);
    }

    method ApiSetWebhook(client: string, url: string) returns (response: Response, body: Body)
      requires Wired()
      modifies store
      ensures (store.Value(), response) == Serve(env, old(store.Value()), ulids.drawn, SetWebhookUrl(client, url))
      ensures Reports(SetWebhookUrl(client, url), response, body, old(store.Value()), store.Value())
    {
      hide SetWebhook, MintedId, Listing, EntriesOf;
      if url == "" {
        return InvalidBody, NoBody;
      }
      var outcome := store.SetClientWebhook(client, url, ACTOR);
      if outcome.Err? {
        return AsResponse(outcome), NoBody;
      }
      WrittenClientIsStored(env, old(store.Value()), SetClientWebhook(client, url, ACTOR));
      var full := store.GetClientFull(client);
      return Success, WebhookState(client, full.value.status, full.value.webhook);
    }

    method ApiSetAllowedOrigins(client: string, origins: Option<seq<string>>) returns (response: Response, body: Body)
      requires Wired()
      modifies store
      ensures (store.Value(), response) == Serve(env, old(store.Value()), ulids.drawn, SetOrigins(client, origins))
      ensures Reports(SetOrigins(client, origins), response, body, old(store.Value()), store.Value())
    {
      hide SetAllowedOrigins, MintedId, Listing, EntriesOf;
      if origins.None? {
        return InvalidBody, NoBody;
      }
      for i := 0 to |origins.value|
        invariant forall j :: 0 <= j < i ==> env.isWebOrigin(origins.value[j])
      {
        if !env.isWebOrigin(origins.value[i]) {
          return InvalidBody, NoBody;
        }
      }
      var outcome := store.SetClientAllowedOrigins(client, origins.value, ACTOR);
      if outcome.Err? {
        return AsResponse(outcome), NoBody;
      }
      WrittenClientIsStored(env, old(store.Value()), SetClientAllowedOrigins(client, origins.value, ACTOR));
      var full := store.GetClientFull(client);
      return Success, OriginsState(client, full.value.status, full.value.allowedOrigins);
    }

    method ApiSetDcapiRequestMode(client: string, mode: Option<string>) returns (response: Response, body: Body)
      requires Wired()
      modifies store
      ensures (store.Value(), response) == Serve(env, old(store.Value()), ulids.drawn, SetMode(client, mode))
      ensures Reports(SetMode(client, mode), response, body, old(store.Value()), store.Value())
    {
      hide SetDcapiMode, MintedId, Listing, EntriesOf;
      if mode.None? {
        return InvalidBody, NoBody;
      }
      if mode.value != SIGNED && mode.value != UNSIGNED {
        return InvalidBody, NoBody;
      }
      var outcome := store.SetClientDcapiMode(client, mode.value, ACTOR);
      if outcome.Err? {
        return AsResponse(outcome), NoBody;
      }
      WrittenClientIsStored(env, old(store.Value()), SetClientDcapiMode(client, mode.value, ACTOR));
      var full := store.GetClientFull(client);
      return Success, ModeState(client, full.value.status, StoredMode(full.value.policy));
    }

    /**
      Mints a key and stores its prefix and hash. An unknown client is refused before any
      randomness is drawn; the display key is returned only when its row was stored.
     */
    method ApiCreateKey(client: string, random: Reader) returns (response: Response, body: Body)
      requires Wired()
      modifies store, random
      ensures client !in old(store.clients) ==>
        && response == Refused(StoreError(NotFound)) && body == NoBody
        && store.Value() == old(store.Value()) && random.remaining == old(random.remaining)
      ensures client in old(store.clients) ==>
        match MintFrom(env.argon, old(random.remaining))
        case Exhausted(stage) =>
          response == MintFailed(stage) && body == NoBody && store.Value() == old(store.Value())
        case Minted(key, prefix, phcHash) =>
          && (store.Value(), response)
               == Serve(env, old(store.Value()), ulids.drawn, MintKey(client, prefix, phcHash))
          && response == Success && body == KeyCreated(client, prefix, key)
    {
      hide Listing, EntriesOf, MintFrom;
      var full := store.GetClientFull(client);
      if full.None? {
        return Refused(StoreError(NotFound)), NoBody;
      }
      var key, prefix, phcHash, failure := Mint(env.argon, random);
      if failure.Some? {
        return MintFailed(failure.value), NoBody;
      }
      var outcome := store.CreateApiKey(client, prefix, phcHash);
      if outcome.Err? {
        return AsResponse(outcome), NoBody;
      }
      return Success, KeyCreated(client, prefix, key);
    }

    method ApiTransition(client: string, target: Status, evidenceRef: string, reason: string, purgeFails: bool)
      returns (response: Response, body: Body)
      requires Wired()
      modifies store
      ensures (store.Value(), response)
           == Serve(env, old(store.Value()), ulids.drawn, Transit(client, target, evidenceRef, reason, purgeFails))
      ensures body == if response.Success? then ClientState(client, target) else NoBody
    {
      hide ServiceTransition;
      if target == OtherStatus("") {
        return InvalidBody, NoBody;
      }
      var result := service.Transition(client, target, ACTOR, evidenceRef, reason, purgeFails);
      if result.Failed? {
        return Refused(result.failure), NoBody;
      }
      return Success, ClientState(client, target);
    }
  }

  predicate HadStatus(s: State, client: string, status: Status) {
    client in s.clients && s.clients[client].status == status
  }

  /** What a success reports, in terms of the request and of the client as it was before. */
  predicate EchoesRequest(env: Env, before: State, req: Request, row: Client) {
    match req
    case CreateClient(name, _) =>
      var id := MintedId(before.number + 1);
      ReadBack(req, row) == ClientCreated(id, Slugify(env.text, name, id), Draft)
    case SetRegistration(client, body, _) =>
      && HadStatus(before, client, row.status)
      && ReadBack(req, row) == RegistrationResult(client, row.status, |body.intendedUses|)
    case SetIdentity(client, uri, identifier) =>
      HadStatus(before, client, row.status) && row.registryUri == uri && row.clientIdentifier == identifier
    case SetWebhookUrl(client, url) =>
      HadStatus(before, client, row.status) && ReadBack(req, row) == WebhookState(client, row.status, url)
    case SetOrigins(client, origins) =>
      && HadStatus(before, client, row.status)
      && origins.Some? && ReadBack(req, row) == OriginsState(client, row.status, origins.value)
    case SetMode(client, mode) =>
      && HadStatus(before, client, row.status)
      && mode.Some? && ReadBack(req, row) == ModeState(client, row.status, mode.value)
    case MintKey(client, _, _) => HadStatus(before, client, row.status)
    case Transit(_, target, _, _, _) => row.status == target
  }

  lemma SetterEchoes(env: Env, s: State, drawn: nat, req: Request)
    requires req.SetIdentity? || req.SetWebhookUrl? || req.SetOrigins? || req.SetMode?
    requires Serve(env, s, drawn, req).1 == Success
    ensures var s' := Serve(env, s, drawn, req).0;
            req.client in s'.clients && EchoesRequest(env, s, req, s'.clients[req.client])
  {
    hide Apply, MintedId, Slugify;
    SetterShape(env.text, s, Prepare(env, drawn, req).call);
    if req.SetMode? {
      ModeIsReadBack(env, s, req.client, req.mode.value);
    }
  }

  lemma ModeIsReadBack(env: Env, s: State, client: string, mode: string)
    requires client in s.clients && (mode == SIGNED || mode == UNSIGNED)
    requires Apply(env.text, s, SetClientDcapiMode(client, mode, ACTOR)).1.Ok?
    ensures StoredMode(MergeMode(s.clients[client].policy, mode).0) == mode
  {
    hide MintedId;
  }

  lemma RegistrationEchoes(env: Env, s: State, drawn: nat, req: Request)
    requires req.SetRegistration? && Serve(env, s, drawn, req).1 == Success
    ensures var s' := Serve(env, s, drawn, req).0;
            req.client in s'.clients && EchoesRequest(env, s, req, s'.clients[req.client])
  {
    hide Build, FormOf, MintedId, Replace, KeysPresent;
  }

  lemma CreationEchoes(env: Env, s: State, drawn: nat, req: Request)
    requires req.CreateClient? && Serve(env, s, drawn, req).1 == Success
    ensures var s', id := Serve(env, s, drawn, req).0, MintedId(s.number + 1);
            id in s'.clients && EchoesRequest(env, s, req, s'.clients[id])
  {
    hide MintedId, Slugify;
  }

  lemma TransitEchoes(env: Env, s: State, drawn: nat, req: Request)
    requires req.Transit? && Serve(env, s, drawn, req).1 == Success
    ensures var s' := Serve(env, s, drawn, req).0;
            req.client in s'.clients && EchoesRequest(env, s, req, s'.clients[req.client])
  {
    hide ServiceTransition, Slugify, MintedId;
    DoneReachesTarget(env.checks, s, req.client, req.target, ACTOR, req.evidenceRef, req.reason, req.purgeFails);
  }

  /**
    Every success tells the truth: the stored row has what the request asked for, and what
    is reported is that, with the status the client had before, or the target of a transition.
   */
  lemma SuccessEchoesRequest(env: Env, s: State, drawn: nat, req: Request)
    requires Serve(env, s, drawn, req).1 == Success
    ensures var s' := Serve(env, s, drawn, req).0;
            ClientOf(req, s.number) in s'.clients && EchoesRequest(env, s, req, s'.clients[ClientOf(req, s.number)])
  {
    hide MintedId, EchoesRequest, Serve;
    match req
    case CreateClient(_, _) => CreationEchoes(env, s, drawn, req);
    case SetRegistration(_, _, _) => RegistrationEchoes(env, s, drawn, req);
    case Transit(_, _, _, _, _) => TransitEchoes(env, s, drawn, req);
    case MintKey(_, _, _) => KeyEchoes(env, s, drawn, req);
    case _ => SetterEchoes(env, s, drawn, req);
  }

  lemma KeyEchoes(env: Env, s: State, drawn: nat, req: Request)
    requires req.MintKey? && Serve(env, s, drawn, req).1 == Success
    ensures var s' := Serve(env, s, drawn, req).0;
            req.client in s'.clients && EchoesRequest(env, s, req, s'.clients[req.client])
  {
  }

  /** A request that issues a store call is answered by that call alone. */
  lemma ServedCall(env: Env, s: State, drawn: nat, req: Request, call: Call)
    requires !req.Transit? && Prepare(env, drawn, req) == Issue(call)
    ensures Serve(env, s, drawn, req) == (Apply(env.text, s, call).0, AsResponse(Apply(env.text, s, call).1))
  {
    hide Apply, Prepare, ServiceTransition, AsResponse;
  }

  lemma ServedBounce(env: Env, s: State, drawn: nat, req: Request, response: Response)
    requires !req.Transit? && Prepare(env, drawn, req) == Bounce(response)
    ensures Serve(env, s, drawn, req) == (s, response)
  {
    hide Apply, Prepare, ServiceTransition, AsResponse;
  }
}
