/**
  The wizard's build as the service runs it: loops that append, early returns, and a
  document object filled in field by field.
 */
module Wizard {
  import opened IntendedUses
  import opened Values
  import opened WizardForms
  import Ts5

  /** The source of ULIDs: each call yields the next element of the stream. */
  class UlidSource {
    const stream: nat -> string
    var drawn: nat

    constructor (stream: nat -> string)
      ensures this.stream == stream && drawn == 0
    {
      this.stream := stream;
      drawn := 0;
    }

    method Make() returns (ulid: string)
      modifies this
      ensures drawn == old(drawn) + 1 && ulid == stream(old(drawn))
    {
      ulid := stream(drawn);
      drawn := drawn + 1;
    }
  }

  /** The document under construction. */
  class WalletRelyingParty {
    var tradeName: string
    var supportUri: seq<string>
    var isPsb: bool
    var country: string
    var email: seq<string>
    var phone: seq<string>
    var infoUri: seq<string>
    var srvDescription: seq<seq<Ts5.MultiLangString>>
    var legalPerson: Option<Ts5.LegalPerson>
    var naturalPerson: Option<Ts5.NaturalPerson>
    var identifiers: seq<Ts5.Identifier>
    var supervisoryAuthority: Ts5.SupervisoryAuthority
    var intendedUses: seq<Ts5.IntendedUse>

    function Document(): Ts5.WrpDocument
      reads this
    {
      Ts5.WrpDocument(tradeName, supportUri, isPsb, country, email, phone, infoUri, srvDescription, legalPerson,
                      naturalPerson, identifiers, supervisoryAuthority, intendedUses)
    }

    constructor (f: FormState, supportUri: seq<string>, email: seq<string>, phone: seq<string>, infoUri: seq<string>)
      requires supportUri == NonEmpty(f.supportUri) && email == NonEmpty(f.email)
      requires phone == NonEmpty(f.phone) && infoUri == NonEmpty(f.infoUri)
      ensures Document() == BlankDocument(f) && legalPerson == None && naturalPerson == None
    {
      tradeName := f.tradeName;
      this.supportUri := supportUri;
      isPsb := f.isPsb;
      country := f.country;
      this.email := email;
      this.phone := phone;
      this.infoUri := infoUri;
      srvDescription := if |f.srvDescription| > 0 then [f.srvDescription] else [];
      legalPerson := None;
      naturalPerson := None;
      identifiers := [];
      supervisoryAuthority := Ts5.SupervisoryAuthority("", "", [], [], []);
      intendedUses := [];
    }
  }

  method DropBlank(ss: seq<string>) returns (out: seq<string>)
    ensures out == NonEmpty(ss)
  {
    out := [];
    for i := 0 to |ss|
      invariant out == NonEmpty(ss[..i])
    {
      assert ss[..i + 1][..i] == ss[..i];
      if ss[i] != "" {
        out := out + [ss[i]];
      }
    }
    assert ss[..|ss|] == ss;
  }

  lemma {:induction false} NonEmptyIff(ss: seq<string>)
    ensures NonEmpty(ss) == [] <==> forall i :: 0 <= i < |ss| ==> ss[i] == ""
  {
    if ss == [] {
    } else {
      NonEmptyIff(ss[..|ss| - 1]);
      assert forall i :: 0 <= i < |ss| - 1 ==> ss[..|ss| - 1][i] == ss[i];
    }
  }

  /** Sets the one legal identity the kind asks for; on an error the document is untouched. */
  method ApplyLegalIdentity(f: FormState, wrp: WalletRelyingParty) returns (error: Option<FormError>)
    modifies wrp`legalPerson, wrp`naturalPerson
    ensures error == if HasLegalIdentity(f) then None else Some(LegalIdentity)
    ensures error.Some? ==> wrp.Document() == old(wrp.Document())
    ensures error.None? ==>
      && wrp.legalPerson == (if f.legalKind == LEGAL_PERSON then Some(Ts5.LegalPerson(NonEmpty(f.legalName)))
                             else old(wrp.legalPerson))
      && wrp.naturalPerson == (if f.legalKind == NATURAL_PERSON then Some(Ts5.NaturalPerson(f.givenName, f.familyName))
                               else old(wrp.naturalPerson))
  {
    if f.legalKind == LEGAL_PERSON {
      var names := DropBlank(f.legalName);
      NonEmptyIff(f.legalName);
      if |names| == 0 {
        return Some(LegalIdentity);
      }
      wrp.legalPerson := Some(Ts5.LegalPerson(names));
      return None;
    } else if f.legalKind == NATURAL_PERSON {
      if f.givenName == "" || f.familyName == "" {
        return Some(LegalIdentity);
      }
      wrp.naturalPerson := Some(Ts5.NaturalPerson(f.givenName, f.familyName));
      return None;
    } else {
      return Some(LegalIdentity);
    }
  }

  method BuildIdentifiers(f: FormState) returns (ids: seq<Ts5.Identifier>, error: Option<FormError>)
    ensures error == IdentifierError(f)
    ensures error.None? ==> ids == Identifiers(f)
  {
    ids := [];
    if f.euid != "" {
      ids := [Ts5.Identifier(EUID_TYPE, f.euid)];
    }
    for i := 0 to |f.otherIds|
      invariant FirstBadIdentifier(f.otherIds, 0) == FirstBadIdentifier(f.otherIds, i)
      invariant ids == (if f.euid == "" then [] else [Ts5.Identifier(EUID_TYPE, f.euid)]) + f.otherIds[..i]
    {
      if f.otherIds[i].kind == "" || f.otherIds[i].identifier == "" {
        return [], Some(BadIdentifier(i));
      }
      ids := ids + [f.otherIds[i]];
    }
    if |ids| == 0 {
      return [], Some(NoIdentifier);
    }
    return ids, None;
  }

  method ToClaimPath(segments: seq<string>) returns (path: Ts5.ClaimPath, error: Option<PathError>)
    ensures error == FirstPathError(segments)
    ensures error.None? ==> path == segments
  {
    path := [];
    if |segments| == 0 {
      return [], Some(EmptyPath);
    }
    for i := 0 to |segments|
      invariant FirstSegmentError(segments, 0) == FirstSegmentError(segments, i)
      invariant path == segments[..i]
    {
      if segments[i] == "" {
        return [], Some(EmptySegment(i));
      }
      path := path + [segments[i]];
    }
    return path, None;
  }

  /** Validates one credential and converts it both ways, from the same fields. */
  method BuildCredential(c: CredentialForm)
    returns (credential: Ts5.Credential, projection: RegisteredCredential, error: Option<CredentialError>)
    ensures error == FirstCredentialError(c)
    ensures error.None? ==> credential == CredentialDocument(c) && projection == CredentialProjection(c)
  {
    credential := Ts5.Credential("", Null, None);
    projection := RegisteredCredential("", [], false, []);
    if c.format != MDOC && c.format != SDJWT {
      return credential, projection, Some(UnknownFormat);
    }
    var types := DropBlank(c.doctypesOrVcts);
    if |types| == 0 {
      return credential, projection, Some(NoType);
    }
    if c.format == MDOC && |types| != 1 {
      return credential, projection, Some(ManyDoctypes);
    }
    var meta := MetaOf(c.format, types);
    var claims := None;
    var projectedClaims := [];
    if !c.allClaims {
      if |c.claims| == 0 {
        return credential, projection, Some(NoClaims);
      }
      var paths := [];
      for k := 0 to |c.claims|
        invariant FirstClaimError(c.claims, 0) == FirstClaimError(c.claims, k)
        invariant paths == projectedClaims == c.claims[..k]
      {
        var path, bad := ToClaimPath(c.claims[k]);
        if bad.Some? {
          return credential, projection, Some(BadClaim(k, bad.value));
        }
        paths := paths + [path];
        projectedClaims := projectedClaims + [path];
      }
      assert c.claims[..|c.claims|] == c.claims;
      claims := Some(paths);
    }
    credential := Ts5.Credential(c.format, meta, claims);
    projection := RegisteredCredential(c.format, types, c.allClaims, projectedClaims);
    return credential, projection, None;
  }

  method CheckPurpose(purpose: seq<Ts5.MultiLangString>) returns (good: bool)
    ensures good <==>
            purpose != [] && forall i :: 0 <= i < |purpose| ==> purpose[i].lang != "" && purpose[i].content != ""
  {
    if |purpose| == 0 {
      return false;
    }
    for i := 0 to |purpose|
      invariant forall j :: 0 <= j < i ==> purpose[j].lang != "" && purpose[j].content != ""
    {
      if purpose[i].lang == "" || purpose[i].content == "" {
        return false;
      }
    }
    return true;
  }

  method CheckPrivacyPolicy(isHttps: string -> bool, policies: seq<Ts5.Policy>) returns (good: bool)
    ensures good <==> policies != [] && forall i :: 0 <= i < |policies| ==> isHttps(policies[i].policyUri)
  {
    if |policies| == 0 {
      return false;
    }
    for i := 0 to |policies|
      invariant forall j :: 0 <= j < i ==> isHttps(policies[j].policyUri)
    {
      if !isHttps(policies[i].policyUri) {
        return false;
      }
    }
    return true;
  }

  method BuildCredentials(cs: seq<CredentialForm>)
    returns (documents: seq<Ts5.Credential>, projections: seq<RegisteredCredential>, error: Option<UseError>)
    ensures error == FirstBadCredential(cs, 0)
    ensures error.None? ==>
      && |documents| == |projections| == |cs|
      && forall j :: 0 <= j < |cs| ==>
           && FirstCredentialError(cs[j]).None?
           && documents[j] == CredentialDocument(cs[j])
           && projections[j] == CredentialProjection(cs[j])
  {
    hide FirstCredentialError, CredentialDocument, CredentialProjection;
    documents, projections := [], [];
    for j := 0 to |cs|
      invariant FirstBadCredential(cs, 0) == FirstBadCredential(cs, j)
      invariant |documents| == |projections| == j
      invariant forall k :: 0 <= k < j ==>
                  && FirstCredentialError(cs[k]).None?
                  && documents[k] == CredentialDocument(cs[k])
                  && projections[k] == CredentialProjection(cs[k])
    {
      var document, projection, bad := BuildCredential(cs[j]);
      if bad.Some? {
        return [], [], Some(BadCredential(j, bad.value));
      }
      documents, projections := documents + [document], projections + [projection];
    }
    return documents, projections, None;
  }

  /** One intended use: every check, then both conversions under one fresh placeholder id. */
  method BuildUse(isHttps: string -> bool, u: IntendedUseForm, ulids: UlidSource, createdAt: string)
    returns (document: Ts5.IntendedUse, projection: Row, error: Option<UseError>)
    modifies ulids
    ensures error == FirstUseError(isHttps, u)
    ensures ulids.drawn == old(ulids.drawn) + (if error.None? then 1 else 0)
    ensures error.None? ==>
      && GoodCredentials(u.credentials)
      && document == UseDocument(u, PendingId(ulids.stream, old(ulids.drawn), 0), createdAt)
      && projection == UseProjection(u, PendingId(ulids.stream, old(ulids.drawn), 0))
  {
    hide FirstCredentialError, CredentialDocument, CredentialProjection, FirstBadCredential;
    document := Ts5.IntendedUse([], [], "", "", []);
    projection := Row("", "", [], [], "");
    var purposeGood := CheckPurpose(u.purpose);
    if !purposeGood {
      return document, projection, Some(NoPurpose);
    }
    var policyGood := CheckPrivacyPolicy(isHttps, u.privacyPolicy);
    if !policyGood {
      return document, projection, Some(NoPrivacyPolicy);
    }
    if |u.credentials| == 0 {
      return document, projection, Some(NoCredentials);
    }
    var credentials, projected, bad := BuildCredentials(u.credentials);
    if bad.Some? {
      return document, projection, bad;
    }
    var ulid := ulids.Make();
    var id := PENDING + ulid;
    document := Ts5.IntendedUse(u.purpose, u.privacyPolicy, id, createdAt, credentials);
    projection := Row("", id, u.purpose, projected, "");
    return document, projection, None;
  }

  method BuildIntendedUses(isHttps: string -> bool, us: seq<IntendedUseForm>, ulids: UlidSource, createdAt: string)
    returns (documents: seq<Ts5.IntendedUse>, projections: seq<Row>, error: Option<FormError>)
    modifies ulids
    ensures error == if us == [] then Some(NoIntendedUse) else FirstBadUse(isHttps, us, 0)
    ensures ulids.drawn
         == old(ulids.drawn) + (if error.None? then |us| else if error.value.BadUse? then error.value.use else 0)
    ensures error.None? ==>
      && GoodUses(us)
      && documents == UseDocuments(us, ulids.stream, old(ulids.drawn), createdAt)
      && projections == UseProjections(us, ulids.stream, old(ulids.drawn))
  {
    hide FirstUseError, UseDocument, UseProjection, GoodCredentials;
    documents, projections := [], [];
    if |us| == 0 {
      return [], [], Some(NoIntendedUse);
    }
    for i := 0 to |us|
      invariant FirstBadUse(isHttps, us, 0) == FirstBadUse(isHttps, us, i)
      invariant ulids.drawn == old(ulids.drawn) + i
      invariant |documents| == |projections| == i
      invariant forall k :: 0 <= k < i ==>
                  && GoodCredentials(us[k].credentials)
                  && documents[k] == UseDocument(us[k], PendingId(ulids.stream, old(ulids.drawn), k), createdAt)
                  && projections[k] == UseProjection(us[k], PendingId(ulids.stream, old(ulids.drawn), k))
    {
      var document, projection, bad := BuildUse(isHttps, us[i], ulids, createdAt);
      if bad.Some? {
        return [], [], Some(BadUse(i, bad.value));
      }
      documents, projections := documents + [document], projections + [projection];
    }
    return documents, projections, None;
  }

  method ValidateSupervisory(sa: Ts5.SupervisoryAuthority) returns (error: Option<FormError>)
    ensures error == SupervisoryError(sa)
  {
    if !IsCountry(sa.country) {
      return Some(SupervisoryCountry);
    }
    if |sa.email| == 0 && |sa.phone| == 0 && |sa.formUri| == 0 {
      return Some(SupervisoryContact);
    }
    return None;
  }

  /** Every check but those on the intended uses, filling the document as they pass. */
  method FillHeader(f: FormState, document: WalletRelyingParty) returns (error: Option<FormError>)
    requires document.Document() == BlankDocument(f) && document.legalPerson == None && document.naturalPerson == None
    modifies document
    ensures error == HeaderError(f)
    ensures error.None? ==> document.Document() == HeaderDocument(f)
  {
    hide HasLegalIdentity, IsCountry, IdentifierError, SupervisoryError, NonEmpty, Identifiers, BlankDocument;
    error := ApplyLegalIdentity(f, document);
    if error.Some? {
      return;
    }
    if !IsCountry(f.country) {
      return Some(Country);
    }
    var ids, badId := BuildIdentifiers(f);
    if badId.Some? {
      return badId;
    }
    document.identifiers := ids;
    error := ValidateSupervisory(f.supervisory);
    if error.Some? {
      return;
    }
    document.supervisoryAuthority := f.supervisory;
  }

  /** On any error neither a document nor projections come back. */
  method BuildForm(isHttps: string -> bool, f: FormState, ulids: UlidSource, createdAt: string)
    returns (wrp: WalletRelyingParty?, projections: seq<Row>, error: Option<FormError>)
    modifies ulids
    ensures error == FirstError(isHttps, f)
    ensures ulids.drawn == old(ulids.drawn) + DrawnBy(isHttps, f)
    ensures error.Some? ==> wrp == null && projections == []
    ensures error.None? ==>
      && wrp != null && fresh(wrp)
      && Build(isHttps, f, ulids.stream, old(ulids.drawn), createdAt) == Built.Built(wrp.Document(), projections)
  {
    hide HeaderError, FirstBadUse, GoodUses, NonEmpty, UseDocuments, UseProjections, BlankDocument, HeaderDocument;
    var supportUri := DropBlank(f.supportUri);
    var email := DropBlank(f.email);
    var phone := DropBlank(f.phone);
    var infoUri := DropBlank(f.infoUri);
    var document := new WalletRelyingParty(f, supportUri, email, phone, infoUri);
    var bad := FillHeader(f, document);
    if bad.Some? {
      return null, [], bad;
    }
    var uses, rows, badUse := BuildIntendedUses(isHttps, f.intendedUses, ulids, createdAt);
    if badUse.Some? {
      return null, [], badUse;
    }
    document.intendedUses := uses;
    return document, rows, None;
  }
}
