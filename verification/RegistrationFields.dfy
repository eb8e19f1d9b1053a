/** Where each field of a registration request ends up in the stored document. */
module RegistrationFields {
  import opened Api
  import opened ApiRuns
  import opened ApiSafety
  import opened Ids
  import opened IntendedUses
  import opened Lifecycle
  import opened RegisteredScope
  import opened Registry
  import opened RegistryInvariants
  import opened Selections
  import opened UseHistories
  import opened Values
  import opened WizardExactness
  import opened WizardForms
  import opened WizardScope
  import Ts5

  predicate IsFilled(s: string) {
    s != ""
  }

  // ---- What a document says of the form it was built from ----

  ghost predicate IdentityFields(f: FormState, doc: Ts5.WrpDocument) {
    if f.legalKind == "legalPerson" then
      && doc.naturalPerson == None
      && doc.legalPerson.Some? && Selects(f.legalName, IsFilled, doc.legalPerson.value.legalName)
    else
      && doc.legalPerson == None
      && doc.naturalPerson == Some(Ts5.NaturalPerson(f.givenName, f.familyName))
  }

  /** Each contact list holds the non-blank entries of its own list, in order. */
  ghost predicate ContactFields(f: FormState, doc: Ts5.WrpDocument) {
    && Selects(f.supportUri, IsFilled, doc.supportUri)
    && Selects(f.email, IsFilled, doc.email)
    && Selects(f.phone, IsFilled, doc.phone)
    && Selects(f.infoUri, IsFilled, doc.infoUri)
  }

  ghost predicate HeaderFields(f: FormState, doc: Ts5.WrpDocument) {
    && doc.tradeName == f.tradeName && doc.isPsb == f.isPsb && doc.country == f.country
    && doc.srvDescription == (if f.srvDescription == [] then [] else [f.srvDescription])
    && doc.identifiers
         == (if f.euid == "" then [] else [Ts5.Identifier("http://data.europa.eu/eudi/id/EUID", f.euid)]) + f.otherIds
    && doc.supervisoryAuthority == f.supervisory
  }

  ghost predicate UseFields(u: IntendedUseForm, d: Ts5.IntendedUse, id: string, createdAt: string) {
    && d.purpose == u.purpose && d.privacyPolicy == u.privacyPolicy
    && d.identifier == id && d.createdAt == createdAt
    && |d.credentials| == |u.credentials|
    && forall j, format, kind, path :: 0 <= j < |u.credentials| ==>
         (DocumentAuthorises(d.credentials[j], format, kind, path)
          <==> FormAuthorises(u.credentials[j], format, kind, path))
  }

  lemma {:induction false} NonEmptySelects(ss: seq<string>)
    ensures Selects(ss, IsFilled, NonEmpty(ss))
  {
    hide Selects;
    if ss == [] {
      SelectsNothing<string>(IsFilled);
    } else {
      var front, last := ss[..|ss| - 1], ss[|ss| - 1];
      NonEmptySelects(front);
      SelectsNext(front, IsFilled, NonEmpty(front), last);
      assert front + [last] == ss;
    }
  }

  lemma HeaderIsFilledIn(f: FormState, ulids: nat -> string, drawn: nat, createdAt: string)
    requires HasLegalIdentity(f) && GoodUses(f.intendedUses)
    ensures var doc := DocumentOf(f, ulids, drawn, createdAt);
            IdentityFields(f, doc) && ContactFields(f, doc) && HeaderFields(f, doc)
  {
    hide Selects, NonEmpty, GoodUses, UseDocuments;
    NonEmptySelects(f.legalName);
    NonEmptySelects(f.supportUri);
    NonEmptySelects(f.email);
    NonEmptySelects(f.phone);
    NonEmptySelects(f.infoUri);
  }

  lemma UseIsFilledIn(u: IntendedUseForm, id: string, createdAt: string)
    requires GoodCredentials(u.credentials)
    ensures UseFields(u, UseDocument(u, id, createdAt), id, createdAt)
  {
    hide DocumentAuthorises, FormAuthorises, CredentialDocument, FirstCredentialError;
    var d := UseDocument(u, id, createdAt);
    forall j, format, kind, path | 0 <= j < |u.credentials|
      ensures DocumentAuthorises(d.credentials[j], format, kind, path)
         <==> FormAuthorises(u.credentials[j], format, kind, path)
    {
      CredentialScopePreserved(u.credentials[j], format, kind, path);
    }
  }

  ghost predicate DocumentSaysForm(f: FormState, doc: Ts5.WrpDocument, ulids: nat -> string, drawn: nat,
                                   createdAt: string)
  {
    && IdentityFields(f, doc) && ContactFields(f, doc) && HeaderFields(f, doc)
    && |doc.intendedUses| == |f.intendedUses|
    && forall i :: 0 <= i < |f.intendedUses| ==>
         UseFields(f.intendedUses[i], doc.intendedUses[i], "pending-" + ulids(drawn + i), createdAt)
  }

  /** Every field of a built document comes from its own field of the form. */
  lemma BuiltDocumentSaysForm(isHttps: string -> bool, f: FormState, ulids: nat -> string, drawn: nat,
                              createdAt: string)
    requires Build(isHttps, f, ulids, drawn, createdAt).Built?
    ensures DocumentSaysForm(f, Build(isHttps, f, ulids, drawn, createdAt).document, ulids, drawn, createdAt)
  {
    BuildSucceedsIff(isHttps, f, ulids, drawn, createdAt);
    hide IdentityFields, ContactFields, HeaderFields, UseFields, HasLegalIdentity, GoodUse, FirstBadUse, HeaderError,
         UseDocument, HeaderDocument;
    NoErrorMeansGoodUses(isHttps, f.intendedUses, 0);
    HeaderIsFilledIn(f, ulids, drawn, createdAt);
    forall i | 0 <= i < |f.intendedUses|
      ensures UseFields(f.intendedUses[i], UseDocument(f.intendedUses[i], PendingId(ulids, drawn, i), createdAt),
                        "pending-" + ulids(drawn + i), createdAt)
    {
      UseIsFilledIn(f.intendedUses[i], PendingId(ulids, drawn, i), createdAt);
    }
  }

  // ---- From the request to the store ----

  /** Each field of the form, given from the request alone. */
  predicate FormSaysRequest(r: RegistrationRequest, f: FormState) {
    && f.legalKind == r.legalKind && f.legalName == r.legalName
    && f.givenName == r.givenName && f.familyName == r.familyName
    && f.euid == r.euid && f.otherIds == r.otherIds && f.country == r.country
    && f.email == r.email && f.phone == [] && f.infoUri == r.infoUri && f.supportUri == r.supportUri
    && f.tradeName == r.tradeName && f.srvDescription == []
    && f.supervisory == r.supervisory && f.isPsb == r.isPsb
    && |f.intendedUses| == |r.intendedUses|
    && forall i :: 0 <= i < |r.intendedUses| ==> UseSaysRequest(r.intendedUses[i], f.intendedUses[i])
  }

  predicate UseSaysRequest(u: ApiIntendedUse, f: IntendedUseForm) {
    && |f.purpose| == |u.purpose|
    && (forall k :: 0 <= k < |u.purpose| ==>
          f.purpose[k].lang == u.purpose[k].lang && f.purpose[k].content == u.purpose[k].text)
    && |f.privacyPolicy| == |u.privacyPolicyUris|
    && (forall k :: 0 <= k < |u.privacyPolicyUris| ==>
          && f.privacyPolicy[k].kind == "http://data.europa.eu/eudi/policy/privacy-policy"
          && f.privacyPolicy[k].policyUri == u.privacyPolicyUris[k])
    && f.credentials == u.credentials
  }

  /** A document that a request describes, with the day and the first ULID of its registration. */
  ghost predicate DocumentSaysRequest(env: Env, r: RegistrationRequest, doc: Ts5.WrpDocument, drawn: nat,
                                      today: string)
  {
    exists f :: FormSaysRequest(r, f) && DocumentSaysForm(f, doc, env.ulids, drawn, today)
  }

  lemma FormOfSaysRequest(r: RegistrationRequest)
    ensures FormSaysRequest(r, FormOf(r))
  {
  }

  /** Main result: an accepted registration stores a document whose every field is the request's. */
  lemma AcceptedRegistrationIsStored(env: Env, s: State, drawn: nat, client: string, body: RegistrationRequest,
                                     today: string)
    requires Serve(env, s, drawn, SetRegistration(client, body, today)).1 == Success
    ensures var s' := Serve(env, s, drawn, SetRegistration(client, body, today)).0;
            && client in s'.clients && s'.clients[client].document.WrpDocument?
            && DocumentSaysRequest(env, body, s'.clients[client].document.doc, drawn, today)
  {
    hide FormSaysRequest, DocumentSaysForm, FormOf, Build, MintedId, Replace, KeysPresent;
    FormOfSaysRequest(body);
    BuiltDocumentSaysForm(env.checks.isHttps, FormOf(body), env.ulids, drawn, today);
  }

  // ---- Over whole runs ----

  function StoredDocumentOf(s: State, client: string): StoredDocument {
    if client in s.clients then s.clients[client].document else NoDocument
  }

  /** No document without an accepted registration, and otherwise the one the last of them describes. */
  ghost predicate DocumentSaysLast(env: Env, document: StoredDocument, body: Option<RegistrationRequest>) {
    match body
    case None => document == NoDocument
    case Some(r) =>
      && document.WrpDocument?
      && exists drawn: nat, today :: DocumentSaysRequest(env, r, document.doc, drawn, today)
  }

  lemma IssueKeepsDocument(env: Env, w: World, call: Call, drawn: nat, client: string)
    requires Valid(w.store) && (Replaces(call, client) ==> Apply(env.text, w.store, call).1.Err?)
    ensures StoredDocumentOf(Issued(env, w, call, drawn).store, client) == StoredDocumentOf(w.store, client)
  {
    hide Apply, MintedId, Valid, SetterWrite;
    var s' := Apply(env.text, w.store, call).0;
    if Replaces(call, client) {
      LogStep(env.text, w.store, call);
    } else if client in w.store.clients {
      RowStep(env.text, w.store, call, client);
      DocumentKept(w.store, call, client);
    } else if client in s'.clients {
      NewRowStep(env.text, w.store, call, client);
      NewClientHasNoDocument(env.text, client, call.name, call.email);
    }
  }

  lemma TransitKeepsDocument(env: Env, w: World, req: Request, client: string)
    requires Valid(w.store) && req.Transit?
    ensures StoredDocumentOf(IssueAll(env, w, TransitCalls(env.checks, w.store, req)).store, client)
         == StoredDocumentOf(w.store, client)
  {
    hide StoredDocumentOf, Issued, IssueAll, Ready, Valid;
    var flip := TransitionClient(req.client, req.target, ACTOR, req.evidenceRef, req.reason);
    var purge := PurgeOffboarded(req.client, ACTOR);
    TwoCalls(env, w, flip, purge);
    TwoCalls(env, w, purge, flip);
    IssueKeepsDocument(env, w, flip, w.drawn, client);
    IssueKeepsDocument(env, w, purge, w.drawn, client);
    IssueKeepsValid(env, w, flip, w.drawn);
    IssueKeepsDocument(env, Issued(env, w, flip, w.drawn), purge, w.drawn, client);
    DrawnUnchanged(env, w, flip);
  }

  lemma OtherRequestKeepsDocument(env: Env, w: World, req: Request, client: string)
    requires Valid(w.store) && !Registers(env, w, req, client)
    ensures StoredDocumentOf(Handle(env, w, req).store, client) == StoredDocumentOf(w.store, client)
  {
    hide Apply, StoredDocumentOf, Issued, Build, FormOf, DrawnBy, Valid;
    if req.Transit? {
      TransitKeepsDocument(env, w, req, client);
    } else if Prepare(env, w.drawn, req).Issue? {
      IssueKeepsDocument(env, w, Prepare(env, w.drawn, req).call, DrawnAfter(env, w.drawn, req), client);
    }
  }

  lemma RegisteringKeepsItsWord(env: Env, w: World, req: Request, client: string)
    requires Registers(env, w, req, client)
    ensures req.SetRegistration?
    ensures DocumentSaysLast(env, StoredDocumentOf(Handle(env, w, req).store, client), Some(req.body))
  {
    hide Serve, Handle, DocumentSaysRequest;
    AcceptedRegistrationIsStored(env, w.store, w.drawn, client, req.body, req.today);
    HandleIsServe(env, w, req);
  }

  /** In every state the API reaches, a client's document says what it last registered, field by field. */
  lemma {:induction false} StoredDocumentIsLastRegistered(env: Env, reqs: seq<Request>, client: string)
    ensures DocumentSaysLast(env, StoredDocumentOf(HandleAll(env, reqs).store, client),
                             LastRegistered(env, reqs, client))
  {
    hide Handle, StoredDocumentOf, DocumentSaysLast, Good, AllSafe, Registers;
    if reqs == [] {
      NothingRegistered(env, client);
    } else {
      var front, last := reqs[..|reqs| - 1], reqs[|reqs| - 1];
      var w := HandleAll(env, front);
      StoredDocumentIsLastRegistered(env, front, client);
      if Registers(env, w, last, client) {
        RegisteringKeepsItsWord(env, w, last, client);
      } else {
        RunsKeepAll(env, front);
        GoodIsValid(env, w);
        OtherRequestKeepsDocument(env, w, last, client);
      }
    }
  }

  lemma NothingRegistered(env: Env, client: string)
    ensures DocumentSaysLast(env, StoredDocumentOf(START.store, client), None)
  {
  }
}
