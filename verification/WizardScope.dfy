/**
  Both outputs of one build authorise the same scope: the document registered with the
  registrar and the projection the session service enforces never disagree.
 */
module WizardScope {
  import opened IntendedUses
  import opened Values
  import opened WizardForms
  import Ts5

  /** The types a per-format meta object names; None if it is not of that format's shape. */
  function DecodeMeta(format: string, meta: Json): Option<seq<string>> {
    if format == MDOC then
      match meta
      case Object(fields) =>
        if "doctype_value" in fields && fields["doctype_value"].String? then Some([fields["doctype_value"].s]) else None
      case _ => None
    else
      match meta
      case Object(fields) =>
        if "vct_values" in fields && fields["vct_values"].Array? then DecodeStrings(fields["vct_values"].items)
        else None
      case _ => None
  }

  function DecodeStrings(items: seq<Json>): Option<seq<string>> {
    if items == [] then Some([])
    else
      match (DecodeStrings(items[..|items| - 1]), items[|items| - 1])
      case (Some(before), String(s)) => Some(before + [s])
      case _ => None
  }

  lemma {:induction false} DecodeStringsInverts(types: seq<string>)
    ensures DecodeStrings(JsonStrings(types)) == Some(types)
  {
    if types == [] {
    } else {
      var front := types[..|types| - 1];
      DecodeStringsInverts(front);
      assert JsonStrings(types)[..|types| - 1] == JsonStrings(front);
      assert types == front + [types[|types| - 1]];
    }
  }

  /** The meta object decodes back to the list it was built from, singular and plural form alike. */
  lemma MetaRoundTrip(format: string, types: seq<string>)
    requires format == MDOC ==> |types| == 1
    ensures DecodeMeta(format, MetaOf(format, types)) == Some(types)
  {
    if format == MDOC {
      assert types == [types[0]];
    } else {
      DecodeStringsInverts(types);
    }
  }

  /** A registered credential in the document; absent claims register every claim path. */
  predicate DocumentAuthorises(c: Ts5.Credential, format: string, kind: string, path: Ts5.ClaimPath) {
    && c.format == format
    && (match DecodeMeta(c.format, c.meta) case Some(types) => kind in types case None => false)
    && (match c.claims case None => true case Some(claims) => path in claims)
  }

  predicate ProjectionAuthorises(p: RegisteredCredential, format: string, kind: string, path: Ts5.ClaimPath) {
    p.format == format && kind in p.doctypesOrVcts && (p.allClaims || path in p.claims)
  }

  /** What the form itself asks for; blank type entries ask for nothing. */
  predicate FormAuthorises(c: CredentialForm, format: string, kind: string, path: Ts5.ClaimPath) {
    c.format == format && kind in c.doctypesOrVcts && kind != "" && (c.allClaims || path in c.claims)
  }

  /** The two credentials authorise exactly the same. */
  ghost predicate SameCredentialScope(c: Ts5.Credential, p: RegisteredCredential) {
    forall format, kind, path ::
      DocumentAuthorises(c, format, kind, path) <==> ProjectionAuthorises(p, format, kind, path)
  }

  /** Same identifier and purpose, and the same scope credential by credential. */
  ghost predicate SameUse(d: Ts5.IntendedUse, r: Row) {
    && d.identifier == r.intendedUseId
    && d.purpose == r.purpose
    && |d.credentials| == |r.credentials|
    && forall j :: 0 <= j < |d.credentials| ==> SameCredentialScope(d.credentials[j], r.credentials[j])
  }

  lemma CredentialScopePreserved(c: CredentialForm, format: string, kind: string, path: Ts5.ClaimPath)
    requires FirstCredentialError(c).None?
    ensures DocumentAuthorises(CredentialDocument(c), format, kind, path) <==> FormAuthorises(c, format, kind, path)
    ensures ProjectionAuthorises(CredentialProjection(c), format, kind, path) <==> FormAuthorises(c, format, kind, path)
  {
    hide DecodeMeta, MetaOf, FirstClaimError;
    MetaRoundTrip(c.format, NonEmpty(c.doctypesOrVcts));
  }

  lemma UseScopePreserved(u: IntendedUseForm, id: string, createdAt: string)
    requires GoodCredentials(u.credentials)
    ensures SameUse(UseDocument(u, id, createdAt), UseProjection(u, id))
  {
    hide DocumentAuthorises, ProjectionAuthorises, CredentialDocument, CredentialProjection, FirstCredentialError;
    var d, r := UseDocument(u, id, createdAt), UseProjection(u, id);
    forall j | 0 <= j < |u.credentials|
      ensures SameCredentialScope(d.credentials[j], r.credentials[j])
    {
      forall format, kind, path
        ensures DocumentAuthorises(d.credentials[j], format, kind, path)
           <==> ProjectionAuthorises(r.credentials[j], format, kind, path)
      {
        CredentialScopePreserved(u.credentials[j], format, kind, path);
      }
    }
  }

  /**
    Main result: on every successful build the document and the projections have the same
    uses in the same order, under the same identifiers, with the same scope.
   */
  lemma BuildPreservesScope(isHttps: string -> bool, f: FormState, ulids: nat -> string, drawn: nat, createdAt: string)
    requires Build(isHttps, f, ulids, drawn, createdAt).Built?
    ensures var b := Build(isHttps, f, ulids, drawn, createdAt);
            && |b.document.intendedUses| == |b.projections| == |f.intendedUses| > 0
            && (forall i :: 0 <= i < |b.projections| ==>
                  && SameUse(b.document.intendedUses[i], b.projections[i])
                  && b.projections[i].id == "" && b.projections[i].revokedAt == ""
                  && b.projections[i].intendedUseId == PendingId(ulids, drawn, i))
  {
    hide FirstBadUse, SameUse;
    NoErrorMeansGoodUses(isHttps, f.intendedUses, 0);
    forall i | 0 <= i < |f.intendedUses|
      ensures SameUse(UseDocument(f.intendedUses[i], PendingId(ulids, drawn, i), createdAt),
                      UseProjection(f.intendedUses[i], PendingId(ulids, drawn, i)))
    {
      UseScopePreserved(f.intendedUses[i], PendingId(ulids, drawn, i), createdAt);
    }
  }

  /** And it authorises exactly what the form entry asks for, credential by credential. */
  lemma ProjectionMeansForm(isHttps: string -> bool, f: FormState, ulids: nat -> string, drawn: nat, createdAt: string,
                            i: nat, j: nat, format: string, kind: string, path: Ts5.ClaimPath)
    requires Build(isHttps, f, ulids, drawn, createdAt).Built?
    requires i < |f.intendedUses| && j < |f.intendedUses[i].credentials|
    ensures var r := Build(isHttps, f, ulids, drawn, createdAt).projections[i];
            && j < |r.credentials|
            && (ProjectionAuthorises(r.credentials[j], format, kind, path)
                <==> FormAuthorises(f.intendedUses[i].credentials[j], format, kind, path))
  {
    hide FirstBadUse, ProjectionAuthorises, FormAuthorises, CredentialProjection, FirstCredentialError;
    NoErrorMeansGoodUses(isHttps, f.intendedUses, 0);
    CredentialScopePreserved(f.intendedUses[i].credentials[j], format, kind, path);
  }
}
