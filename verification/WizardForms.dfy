/**
  The registration form, what is wrong with one, and what a good one compiles to: the ts5
  document and, from the same input, the scope projection read at session time.
 */
module WizardForms {
  import opened IntendedUses
  import opened Values
  import Ts5

  const MDOC := "mso_mdoc"
  const SDJWT := "dc+sd-jwt"
  const EUID_TYPE := "http://data.europa.eu/eudi/id/EUID"
  const PENDING := "pending-"
  const LEGAL_PERSON := "legalPerson"
  const NATURAL_PERSON := "naturalPerson"

  datatype CredentialForm = CredentialForm(
    format: string, doctypesOrVcts: seq<string>, allClaims: bool, claims: seq<seq<string>>)

  datatype IntendedUseForm = IntendedUseForm(
    purpose: seq<Ts5.MultiLangString>, privacyPolicy: seq<Ts5.Policy>, credentials: seq<CredentialForm>)

  datatype FormState = FormState(
    legalKind: string,
    legalName: seq<string>,
    givenName: string,
    familyName: string,
    euid: string,
    otherIds: seq<Ts5.Identifier>,
    country: string,
    email: seq<string>,
    phone: seq<string>,
    infoUri: seq<string>,
    supportUri: seq<string>,
    tradeName: string,
    srvDescription: seq<Ts5.MultiLangString>,
    intendedUses: seq<IntendedUseForm>,
    supervisory: Ts5.SupervisoryAuthority,
    isPsb: bool)

  // ---- Errors, with the positions the messages carry ----

  datatype PathError = EmptyPath | EmptySegment(at: nat)

  datatype CredentialError =
    | UnknownFormat
    | NoType
    | ManyDoctypes
    | NoClaims
    | BadClaim(claim: nat, path: PathError)

  datatype UseError =
    | NoPurpose
    | NoPrivacyPolicy
    | NoCredentials
    | BadCredential(credential: nat, error: CredentialError)

  datatype FormError =
    | LegalIdentity
    | Country
    | BadIdentifier(at: nat)
    | NoIdentifier
    | SupervisoryCountry
    | SupervisoryContact
    | NoIntendedUse
    | BadUse(use: nat, error: UseError)

  // ---- Defects: each condition on its own, whatever else is wrong ----

  predicate PathDefect(segments: seq<string>, e: PathError) {
    match e
    case EmptyPath => segments == []
    case EmptySegment(i) => i < |segments| && segments[i] == ""
  }

  predicate CredentialDefect(c: CredentialForm, e: CredentialError) {
    match e
    case UnknownFormat => c.format != MDOC && c.format != SDJWT
    case NoType => forall i :: 0 <= i < |c.doctypesOrVcts| ==> c.doctypesOrVcts[i] == ""
    case ManyDoctypes =>
      && c.format == MDOC
      && exists i, j :: 0 <= i < j < |c.doctypesOrVcts| && c.doctypesOrVcts[i] != "" && c.doctypesOrVcts[j] != ""
    case NoClaims => !c.allClaims && c.claims == []
    case BadClaim(k, p) => !c.allClaims && k < |c.claims| && PathDefect(c.claims[k], p)
  }

  predicate UseDefect(isHttps: string -> bool, u: IntendedUseForm, e: UseError) {
    match e
    case NoPurpose =>
      u.purpose == [] || exists i :: 0 <= i < |u.purpose| && (u.purpose[i].lang == "" || u.purpose[i].content == "")
    case NoPrivacyPolicy =>
      u.privacyPolicy == [] || exists i :: 0 <= i < |u.privacyPolicy| && !isHttps(u.privacyPolicy[i].policyUri)
    case NoCredentials => u.credentials == []
    case BadCredential(j, c) => j < |u.credentials| && CredentialDefect(u.credentials[j], c)
  }

  predicate IsCountry(c: string) {
    |c| == 2 && 'A' <= c[0] <= 'Z' && 'A' <= c[1] <= 'Z'
  }

  predicate HasLegalIdentity(f: FormState) {
    || (f.legalKind == LEGAL_PERSON && exists i :: 0 <= i < |f.legalName| && f.legalName[i] != "")
    || (f.legalKind == NATURAL_PERSON && f.givenName != "" && f.familyName != "")
  }

  predicate FormDefect(isHttps: string -> bool, f: FormState, e: FormError) {
    match e
    case LegalIdentity => !HasLegalIdentity(f)
    case Country => !IsCountry(f.country)
    case BadIdentifier(i) => i < |f.otherIds| && (f.otherIds[i].kind == "" || f.otherIds[i].identifier == "")
    case NoIdentifier => f.euid == "" && f.otherIds == []
    case SupervisoryCountry => !IsCountry(f.supervisory.country)
    case SupervisoryContact => f.supervisory.email == [] && f.supervisory.phone == [] && f.supervisory.formUri == []
    case NoIntendedUse => f.intendedUses == []
    case BadUse(i, u) => i < |f.intendedUses| && UseDefect(isHttps, f.intendedUses[i], u)
  }

  // ---- The order in which defects are reported ----

  predicate PathBefore(a: PathError, b: PathError) {
    match (a, b)
    case (EmptyPath, EmptySegment(_)) => true
    case (EmptySegment(i), EmptySegment(j)) => i < j
    case _ => false
  }

  function CredentialStage(e: CredentialError): nat {
    match e case UnknownFormat => 0 case NoType => 1 case ManyDoctypes => 2 case NoClaims => 3 case BadClaim(_, _) => 4
  }

  predicate CredentialBefore(a: CredentialError, b: CredentialError) {
    if a.BadClaim? && b.BadClaim? then a.claim < b.claim || (a.claim == b.claim && PathBefore(a.path, b.path))
    else CredentialStage(a) < CredentialStage(b)
  }

  function UseStage(e: UseError): nat {
    match e case NoPurpose => 0 case NoPrivacyPolicy => 1 case NoCredentials => 2 case BadCredential(_, _) => 3
  }

  predicate UseBefore(a: UseError, b: UseError) {
    if a.BadCredential? && b.BadCredential? then
      a.credential < b.credential || (a.credential == b.credential && CredentialBefore(a.error, b.error))
    else UseStage(a) < UseStage(b)
  }

  function FormStage(e: FormError): nat {
    match e
    case LegalIdentity => 0
    case Country => 1
    case BadIdentifier(_) => 2
    case NoIdentifier => 3
    case SupervisoryCountry => 4
    case SupervisoryContact => 5
    case NoIntendedUse => 6
    case BadUse(_, _) => 7
  }

  predicate FormBefore(a: FormError, b: FormError) {
    if a.BadUse? && b.BadUse? then a.use < b.use || (a.use == b.use && UseBefore(a.error, b.error))
    else if a.BadIdentifier? && b.BadIdentifier? then a.at < b.at
    else FormStage(a) < FormStage(b)
  }

  /** e is the first thing wrong with the form. */
  ghost predicate IsFirstDefect(isHttps: string -> bool, f: FormState, e: FormError) {
    FormDefect(isHttps, f, e) && forall d :: FormDefect(isHttps, f, d) ==> d == e || FormBefore(e, d)
  }

  // ---- Finding the first defect, check by check ----

  function NonEmpty(ss: seq<string>): (r: seq<string>)
    ensures forall s :: s in r <==> s in ss && s != ""
  {
    if ss == [] then []
    else
      var before, last := NonEmpty(ss[..|ss| - 1]), ss[|ss| - 1];
      assert ss == ss[..|ss| - 1] + [last];
      if last != "" then before + [last] else before
  }

  function FirstSegmentError(segments: seq<string>, from: nat): Option<PathError>
    requires from <= |segments|
    decreases |segments| - from
  {
    if from == |segments| then None
    else if segments[from] == "" then Some(EmptySegment(from))
    else FirstSegmentError(segments, from + 1)
  }

  function FirstPathError(segments: seq<string>): Option<PathError> {
    if segments == [] then Some(EmptyPath) else FirstSegmentError(segments, 0)
  }

  function FirstClaimError(claims: seq<seq<string>>, from: nat): Option<CredentialError>
    requires from <= |claims|
    decreases |claims| - from
  {
    if from == |claims| then None
    else match FirstPathError(claims[from])
      case Some(e) => Some(BadClaim(from, e))
      case None => FirstClaimError(claims, from + 1)
  }

  function FirstCredentialError(c: CredentialForm): Option<CredentialError> {
    if c.format != MDOC && c.format != SDJWT then Some(UnknownFormat)
    else if NonEmpty(c.doctypesOrVcts) == [] then Some(NoType)
    else if c.format == MDOC && |NonEmpty(c.doctypesOrVcts)| != 1 then Some(ManyDoctypes)
    else if c.allClaims then None
    else if c.claims == [] then Some(NoClaims)
    else FirstClaimError(c.claims, 0)
  }

  function FirstBadCredential(cs: seq<CredentialForm>, from: nat): Option<UseError>
    requires from <= |cs|
    decreases |cs| - from
  {
    if from == |cs| then None
    else match FirstCredentialError(cs[from])
      case Some(e) => Some(BadCredential(from, e))
      case None => FirstBadCredential(cs, from + 1)
  }

  function FirstUseError(isHttps: string -> bool, u: IntendedUseForm): Option<UseError> {
    if UseDefect(isHttps, u, NoPurpose) then Some(NoPurpose)
    else if UseDefect(isHttps, u, NoPrivacyPolicy) then Some(NoPrivacyPolicy)
    else if u.credentials == [] then Some(NoCredentials)
    else FirstBadCredential(u.credentials, 0)
  }

  function FirstBadUse(isHttps: string -> bool, us: seq<IntendedUseForm>, from: nat): Option<FormError>
    requires from <= |us|
    decreases |us| - from
  {
    if from == |us| then None
    else match FirstUseError(isHttps, us[from])
      case Some(e) => Some(BadUse(from, e))
      case None => FirstBadUse(isHttps, us, from + 1)
  }

  function FirstBadIdentifier(ids: seq<Ts5.Identifier>, from: nat): (e: Option<FormError>)
    requires from <= |ids|
    ensures e.Some? ==> e.value.BadIdentifier?
    decreases |ids| - from
  {
    if from == |ids| then None
    else if ids[from].kind == "" || ids[from].identifier == "" then Some(BadIdentifier(from))
    else FirstBadIdentifier(ids, from + 1)
  }

  function IdentifierError(f: FormState): Option<FormError> {
    match FirstBadIdentifier(f.otherIds, 0)
    case Some(e) => Some(e)
    case None => if f.euid == "" && f.otherIds == [] then Some(NoIdentifier) else None
  }

  function SupervisoryError(sa: Ts5.SupervisoryAuthority): Option<FormError> {
    if !IsCountry(sa.country) then Some(SupervisoryCountry)
    else if sa.email == [] && sa.phone == [] && sa.formUri == [] then Some(SupervisoryContact)
    else None
  }

  /** The checks on everything but the intended uses. */
  function HeaderError(f: FormState): (e: Option<FormError>)
    ensures e.Some? ==> !e.value.BadUse?
  {
    if !HasLegalIdentity(f) then Some(LegalIdentity)
    else if !IsCountry(f.country) then Some(Country)
    else if IdentifierError(f).Some? then IdentifierError(f)
    else SupervisoryError(f.supervisory)
  }

  function FirstError(isHttps: string -> bool, f: FormState): Option<FormError> {
    if HeaderError(f).Some? then HeaderError(f)
    else if f.intendedUses == [] then Some(NoIntendedUse)
    else FirstBadUse(isHttps, f.intendedUses, 0)
  }

  // ---- What a good form compiles to ----

  function JsonStrings(types: seq<string>): (items: seq<Json>)
    ensures |items| == |types| && forall i :: 0 <= i < |types| ==> items[i] == String(types[i])
  {
    seq(|types|, i requires 0 <= i < |types| => String(types[i]))
  }

  function MetaOf(format: string, types: seq<string>): Json
    requires format == MDOC ==> |types| == 1
  {
    if format == MDOC then Object(map["doctype_value" := String(types[0])])
    else Object(map["vct_values" := Array(JsonStrings(types))])
  }

  function CredentialDocument(c: CredentialForm): Ts5.Credential
    requires FirstCredentialError(c).None?
  {
    Ts5.Credential(c.format, MetaOf(c.format, NonEmpty(c.doctypesOrVcts)), if c.allClaims then None else Some(c.claims))
  }

  function CredentialProjection(c: CredentialForm): RegisteredCredential {
    RegisteredCredential(c.format, NonEmpty(c.doctypesOrVcts), c.allClaims, if c.allClaims then [] else c.claims)
  }

  predicate GoodCredentials(cs: seq<CredentialForm>) {
    forall j :: 0 <= j < |cs| ==> FirstCredentialError(cs[j]).None?
  }

  function UseDocument(u: IntendedUseForm, id: string, createdAt: string): Ts5.IntendedUse
    requires GoodCredentials(u.credentials)
  {
    Ts5.IntendedUse(u.purpose, u.privacyPolicy, id, createdAt,
      seq(|u.credentials|, j requires 0 <= j < |u.credentials| => CredentialDocument(u.credentials[j])))
  }

  function UseProjection(u: IntendedUseForm, id: string): Row {
    Row("", id, u.purpose,
        seq(|u.credentials|, j requires 0 <= j < |u.credentials| => CredentialProjection(u.credentials[j])), "")
  }

  /** The placeholder of the i-th use, drawn from the ULID stream. */
  function PendingId(ulids: nat -> string, drawn: nat, i: nat): string {
    PENDING + ulids(drawn + i)
  }

  predicate GoodUses(us: seq<IntendedUseForm>) {
    forall i :: 0 <= i < |us| ==> GoodCredentials(us[i].credentials)
  }

  function UseDocuments(us: seq<IntendedUseForm>, ulids: nat -> string, drawn: nat, createdAt: string)
    : seq<Ts5.IntendedUse>
    requires GoodUses(us)
  {
    seq(|us|, i requires 0 <= i < |us| => UseDocument(us[i], PendingId(ulids, drawn, i), createdAt))
  }

  function UseProjections(us: seq<IntendedUseForm>, ulids: nat -> string, drawn: nat): seq<Row> {
    seq(|us|, i requires 0 <= i < |us| => UseProjection(us[i], PendingId(ulids, drawn, i)))
  }

  function Identifiers(f: FormState): seq<Ts5.Identifier> {
    (if f.euid == "" then [] else [Ts5.Identifier(EUID_TYPE, f.euid)]) + f.otherIds
  }

  /** The document before any check has run. */
  function BlankDocument(f: FormState): Ts5.WrpDocument {
    Ts5.WrpDocument(
      f.tradeName, NonEmpty(f.supportUri), f.isPsb, f.country, NonEmpty(f.email), NonEmpty(f.phone),
      NonEmpty(f.infoUri),
      if f.srvDescription == [] then [] else [f.srvDescription],
      None, None, [], Ts5.SupervisoryAuthority("", "", [], [], []), [])
  }

  /** The document once the checks on everything but the intended uses have passed. */
  function HeaderDocument(f: FormState): Ts5.WrpDocument {
    BlankDocument(f).(
      legalPerson := if f.legalKind == LEGAL_PERSON then Some(Ts5.LegalPerson(NonEmpty(f.legalName))) else None,
      naturalPerson :=
        if f.legalKind == NATURAL_PERSON then Some(Ts5.NaturalPerson(f.givenName, f.familyName)) else None,
      identifiers := Identifiers(f),
      supervisoryAuthority := f.supervisory)
  }

  function DocumentOf(f: FormState, ulids: nat -> string, drawn: nat, createdAt: string): Ts5.WrpDocument
    requires GoodUses(f.intendedUses)
  {
    HeaderDocument(f).(intendedUses := UseDocuments(f.intendedUses, ulids, drawn, createdAt))
  }

  datatype Built = Built(document: Ts5.WrpDocument, projections: seq<Row>) | Rejected(error: FormError)

  function Build(isHttps: string -> bool, f: FormState, ulids: nat -> string, drawn: nat, createdAt: string): Built {
    match FirstError(isHttps, f)
    case Some(e) => Rejected(e)
    case None =>
      NoErrorMeansGoodUses(isHttps, f.intendedUses, 0);
      Built.Built(DocumentOf(f, ulids, drawn, createdAt), UseProjections(f.intendedUses, ulids, drawn))
  }

  /** How many ULIDs a build consumes: one per use before the first bad one. */
  function DrawnBy(isHttps: string -> bool, f: FormState): nat {
    match FirstError(isHttps, f)
    case Some(BadUse(i, _)) => i
    case Some(_) => 0
    case None => |f.intendedUses|
  }

  lemma {:induction false} NoErrorMeansGoodCredentials(cs: seq<CredentialForm>, from: nat)
    requires from <= |cs| && FirstBadCredential(cs, from).None?
    ensures forall j :: from <= j < |cs| ==> FirstCredentialError(cs[j]).None?
    decreases |cs| - from
  {
    if from == |cs| {
    } else {
      NoErrorMeansGoodCredentials(cs, from + 1);
    }
  }

  lemma {:induction false} NoErrorMeansGoodUses(isHttps: string -> bool, us: seq<IntendedUseForm>, from: nat)
    requires from <= |us| && FirstBadUse(isHttps, us, from).None?
    ensures forall i :: from <= i < |us| ==> GoodCredentials(us[i].credentials)
    decreases |us| - from
  {
    if from == |us| {
    } else {
      NoErrorMeansGoodUses(isHttps, us, from + 1);
      NoErrorMeansGoodCredentials(us[from].credentials, 0);
    }
  }
}
