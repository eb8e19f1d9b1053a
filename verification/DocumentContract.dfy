/**
  The ts5 contract, stated on the document alone: what a form builds satisfies it, and so
  does every document the API ever stores.
 */
module DocumentContract {
  import opened Api
  import opened ApiRuns
  import opened ApiSafety
  import opened Ids
  import opened Lifecycle
  import opened Registry
  import opened RegistryInvariants
  import opened UseHistories
  import opened WizardExactness
  import opened WizardForms
  import opened WizardScope
  import Ts5

  predicate NoBlank(ss: seq<string>) {
    forall i :: 0 <= i < |ss| ==> ss[i] != ""
  }

  /** A known format, a meta object of that format's shape, claims absent or listed. */
  predicate CredentialConforms(c: Ts5.Credential) {
    && (c.format == MDOC || c.format == SDJWT)
    && (match DecodeMeta(c.format, c.meta)
        case None => false
        case Some(types) => types != [] && NoBlank(types) && (c.format == MDOC ==> |types| == 1))
    && (c.claims.Some? ==>
          c.claims.value != [] && forall k :: 0 <= k < |c.claims.value| ==> GoodPath(c.claims.value[k]))
  }

  predicate UseConforms(isHttps: string -> bool, u: Ts5.IntendedUse) {
    && u.purpose != [] && (forall i :: 0 <= i < |u.purpose| ==> u.purpose[i].lang != "" && u.purpose[i].content != "")
    && u.privacyPolicy != [] && (forall i :: 0 <= i < |u.privacyPolicy| ==> isHttps(u.privacyPolicy[i].policyUri))
    && u.credentials != [] && (forall j :: 0 <= j < |u.credentials| ==> CredentialConforms(u.credentials[j]))
  }

  /** Exactly one legal identity, filled in. */
  predicate IdentityConforms(doc: Ts5.WrpDocument) {
    && (doc.legalPerson.Some? <==> doc.naturalPerson.None?)
    && (doc.legalPerson.Some? ==> doc.legalPerson.value.legalName != [] && NoBlank(doc.legalPerson.value.legalName))
    && (doc.naturalPerson.Some? ==>
          doc.naturalPerson.value.givenName != "" && doc.naturalPerson.value.familyName != "")
  }

  predicate ContactsConform(doc: Ts5.WrpDocument) {
    && NoBlank(doc.supportUri) && NoBlank(doc.email) && NoBlank(doc.phone) && NoBlank(doc.infoUri)
    && IsCountry(doc.country)
    && doc.identifiers != []
    && (forall i :: 0 <= i < |doc.identifiers| ==> doc.identifiers[i].kind != "" && doc.identifiers[i].identifier != "")
    && var sa := doc.supervisoryAuthority;
       IsCountry(sa.country) && (sa.email != [] || sa.phone != [] || sa.formUri != [])
  }

  predicate Conforms(isHttps: string -> bool, doc: Ts5.WrpDocument) {
    && IdentityConforms(doc)
    && ContactsConform(doc)
    && doc.intendedUses != []
    && (forall i :: 0 <= i < |doc.intendedUses| ==> UseConforms(isHttps, doc.intendedUses[i]))
  }

  lemma CredentialBuilt(c: CredentialForm)
    requires GoodCredential(c) && FirstCredentialError(c).None?
    ensures CredentialConforms(CredentialDocument(c))
  {
    hide DecodeMeta, MetaOf, FirstClaimError;
    NonEmptyCount(c.doctypesOrVcts);
    MetaRoundTrip(c.format, NonEmpty(c.doctypesOrVcts));
    NonEmptyHasNoBlank(c.doctypesOrVcts);
  }

  lemma NonEmptyHasNoBlank(ss: seq<string>)
    ensures NoBlank(NonEmpty(ss))
  {
    var kept := NonEmpty(ss);
    forall i | 0 <= i < |kept|
      ensures kept[i] != ""
    {
      assert kept[i] in kept;
    }
  }

  lemma UseBuilt(isHttps: string -> bool, u: IntendedUseForm, id: string, createdAt: string)
    requires GoodUse(isHttps, u) && GoodCredentials(u.credentials)
    ensures UseConforms(isHttps, UseDocument(u, id, createdAt))
  {
    hide CredentialConforms, CredentialDocument, GoodCredential, FirstCredentialError;
    forall j | 0 <= j < |u.credentials|
      ensures CredentialConforms(CredentialDocument(u.credentials[j]))
    {
      CredentialBuilt(u.credentials[j]);
    }
  }

  lemma HeaderBuilt(f: FormState)
    requires HasLegalIdentity(f) && IsCountry(f.country) && IsCountry(f.supervisory.country)
    requires f.euid != "" || f.otherIds != []
    requires forall i :: 0 <= i < |f.otherIds| ==> f.otherIds[i].kind != "" && f.otherIds[i].identifier != ""
    requires f.supervisory.email != [] || f.supervisory.phone != [] || f.supervisory.formUri != []
    ensures IdentityConforms(HeaderDocument(f)) && ContactsConform(HeaderDocument(f))
  {
    hide NonEmpty, IsCountry;
    NonEmptyHasNoBlank(f.legalName);
    NonEmptyHasNoBlank(f.supportUri);
    NonEmptyHasNoBlank(f.email);
    NonEmptyHasNoBlank(f.phone);
    NonEmptyHasNoBlank(f.infoUri);
    NonEmptyCount(f.legalName);
  }

  /** Whatever the form, a document that comes out of a build meets the contract. */
  lemma BuiltDocumentConforms(isHttps: string -> bool, f: FormState, ulids: nat -> string, drawn: nat,
                              createdAt: string)
    requires Build(isHttps, f, ulids, drawn, createdAt).Built?
    ensures Conforms(isHttps, Build(isHttps, f, ulids, drawn, createdAt).document)
  {
    BuildSucceedsIff(isHttps, f, ulids, drawn, createdAt);
    hide FirstBadUse, HeaderDocument, UseConforms, GoodUse, UseDocument, HeaderError, IsCountry, HasLegalIdentity,
         GoodCredentials;
    NoErrorMeansGoodUses(isHttps, f.intendedUses, 0);
    HeaderBuilt(f);
    forall i | 0 <= i < |f.intendedUses|
      ensures UseConforms(isHttps, UseDocument(f.intendedUses[i], PendingId(ulids, drawn, i), createdAt))
    {
      UseBuilt(isHttps, f.intendedUses[i], PendingId(ulids, drawn, i), createdAt);
    }
    UsesDoNotChangeHeader(f, ulids, drawn, createdAt);
  }

  lemma UsesDoNotChangeHeader(f: FormState, ulids: nat -> string, drawn: nat, createdAt: string)
    requires GoodUses(f.intendedUses)
    requires IdentityConforms(HeaderDocument(f)) && ContactsConform(HeaderDocument(f))
    ensures var doc := DocumentOf(f, ulids, drawn, createdAt);
            IdentityConforms(doc) && ContactsConform(doc)
  {
    hide HeaderDocument, NoBlank, IsCountry;
  }

  /**
    The claims list of an entry that registers all claims is never looked at: the entry is
    accepted whatever it holds, although its description calls for an empty one.
   */
  lemma AllClaimsIgnoresTheList(c: CredentialForm, other: seq<seq<string>>)
    requires c.allClaims
    ensures FirstCredentialError(c.(claims := other)) == FirstCredentialError(c)
    ensures FirstCredentialError(c).None? ==> CredentialDocument(c.(claims := other)) == CredentialDocument(c)
    ensures CredentialProjection(c.(claims := other)) == CredentialProjection(c)
  {
    hide NonEmpty;
  }

  // ---- Stored documents ----

  ghost predicate StoredConforms(env: Env, s: State, client: string) {
    client in s.clients && !s.clients[client].document.NoDocument? ==>
      && s.clients[client].document.WrpDocument?
      && Conforms(env.checks.isHttps, s.clients[client].document.doc)
  }

  /** A save the API issues carries a conforming document. */
  ghost predicate SavesConforming(env: Env, call: Call) {
    call.SaveWrpDocument? ==> call.document.WrpDocument? && Conforms(env.checks.isHttps, call.document.doc)
  }

  lemma PreparedConforms(env: Env, drawn: nat, req: Request)
    requires !req.Transit? && Prepare(env, drawn, req).Issue?
    ensures SavesConforming(env, Prepare(env, drawn, req).call)
  {
    hide Build, FormOf, Conforms;
    if req.SetRegistration? {
      BuiltDocumentConforms(env.checks.isHttps, FormOf(req.body), env.ulids, drawn, req.today);
    }
  }

  lemma IssueKeepsConforming(env: Env, w: World, call: Call, drawn: nat, client: string)
    requires Valid(w.store) && StoredConforms(env, w.store, client) && SavesConforming(env, call)
    requires !call.SetIntendedUses?
    ensures StoredConforms(env, Issued(env, w, call, drawn).store, client)
  {
    hide Apply, MintedId, Valid, SetterWrite, Conforms;
    var s' := Apply(env.text, w.store, call).0;
    if client in w.store.clients {
      RowStep(env.text, w.store, call, client);
      if !Replaces(call, client) {
        DocumentKept(w.store, call, client);
      }
    } else if client in s'.clients {
      NewRowStep(env.text, w.store, call, client);
      NewClientHasNoDocument(env.text, client, call.name, call.email);
    }
  }

  lemma TransitKeepsConforming(env: Env, w: World, req: Request, client: string)
    requires Good(env, w) && req.Transit?
    requires StoredConforms(env, w.store, client)
    ensures StoredConforms(env, IssueAll(env, w, TransitCalls(env.checks, w.store, req)).store, client)
  {
    hide Valid, Run, Clean, UsesLive, Issued, IssueAll, Ready, StoredConforms;
    var flip := TransitionClient(req.client, req.target, ACTOR, req.evidenceRef, req.reason);
    var purge := PurgeOffboarded(req.client, ACTOR);
    TwoCalls(env, w, flip, purge);
    TwoCalls(env, w, purge, flip);
    IssueKeepsConforming(env, w, flip, w.drawn, client);
    IssueKeepsConforming(env, w, purge, w.drawn, client);
    DrawnUnchanged(env, w, flip);
    IssueKeepsValid(env, w, flip, w.drawn);
    IssueKeepsConforming(env, Issued(env, w, flip, w.drawn), purge, w.drawn, client);
  }

  lemma HandleKeepsConforming(env: Env, w: World, req: Request, client: string)
    requires Good(env, w) && StoredConforms(env, w.store, client)
    ensures StoredConforms(env, Handle(env, w, req).store, client)
  {
    hide Valid, Run, Clean, UsesLive, Issued, IssueAll, TransitCalls, StoredConforms, SavesConforming, DrawnBy,
         Prepare;
    if req.Transit? {
      TransitKeepsConforming(env, w, req, client);
    } else if Prepare(env, w.drawn, req).Issue? {
      PreparedConforms(env, w.drawn, req);
      PreparedIsNotSetUses(env, w.drawn, req);
      IssueKeepsConforming(env, w, Prepare(env, w.drawn, req).call, DrawnAfter(env, w.drawn, req), client);
    }
  }

  lemma PreparedIsNotSetUses(env: Env, drawn: nat, req: Request)
    requires !req.Transit? && Prepare(env, drawn, req).Issue?
    ensures !Prepare(env, drawn, req).call.SetIntendedUses?
  {
    hide Build, FormOf;
  }

  /** Main result: in every state the API reaches, every stored document meets the contract. */
  lemma {:induction false} StoredDocumentsConform(env: Env, reqs: seq<Request>, client: string)
    ensures StoredConforms(env, HandleAll(env, reqs).store, client)
  {
    hide Handle, StoredConforms, Good, AllSafe;
    if reqs == [] {
      NothingStoredYet(env, client);
    } else {
      var front := reqs[..|reqs| - 1];
      StoredDocumentsConform(env, front, client);
      RunsKeepAll(env, front);
      HandleKeepsConforming(env, HandleAll(env, front), reqs[|reqs| - 1], client);
    }
  }

  lemma NothingStoredYet(env: Env, client: string)
    ensures StoredConforms(env, START.store, client)
  {
  }
}
