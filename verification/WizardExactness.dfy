/** Build is exact: it fails with the first defect, and only if there is one. */
module WizardExactness {
  import opened WizardForms
  import Ts5

  lemma {:induction false} SegmentErrorIsFirst(segments: seq<string>, from: nat)
    requires from <= |segments|
    ensures match FirstSegmentError(segments, from)
            case None => forall i :: from <= i < |segments| ==> segments[i] != ""
            case Some(e) =>
              && e.EmptySegment? && from <= e.at < |segments| && segments[e.at] == ""
              && forall i :: from <= i < e.at ==> segments[i] != ""
    decreases |segments| - from
  {
    if from == |segments| {
    } else {
      SegmentErrorIsFirst(segments, from + 1);
    }
  }

  lemma PathErrorIsFirst(segments: seq<string>)
    ensures match FirstPathError(segments)
            case None => forall d :: !PathDefect(segments, d)
            case Some(e) =>
              PathDefect(segments, e) && forall d :: PathDefect(segments, d) ==> d == e || PathBefore(e, d)
  {
    hide FirstSegmentError;
    SegmentErrorIsFirst(segments, 0);
  }

  lemma {:induction false} ClaimErrorIsFirst(claims: seq<seq<string>>, from: nat)
    requires from <= |claims|
    ensures match FirstClaimError(claims, from)
            case None => forall k, p :: from <= k < |claims| ==> !PathDefect(claims[k], p)
            case Some(e) =>
              && e.BadClaim? && from <= e.claim < |claims| && PathDefect(claims[e.claim], e.path)
              && (forall k, p :: from <= k < e.claim ==> !PathDefect(claims[k], p))
              && (forall p :: PathDefect(claims[e.claim], p) ==> p == e.path || PathBefore(e.path, p))
    decreases |claims| - from
  {
    hide FirstPathError, PathDefect, PathBefore;
    if from == |claims| {
    } else {
      PathErrorIsFirst(claims[from]);
      ClaimErrorIsFirst(claims, from + 1);
    }
  }

  lemma {:induction false} NonEmptyCount(ss: seq<string>)
    ensures |NonEmpty(ss)| > 1 <==> exists i, j :: 0 <= i < j < |ss| && ss[i] != "" && ss[j] != ""
    ensures NonEmpty(ss) == [] <==> forall i :: 0 <= i < |ss| ==> ss[i] == ""
  {
    if ss == [] {
    } else {
      var front, last := ss[..|ss| - 1], ss[|ss| - 1];
      NonEmptyCount(front);
      if last != "" && NonEmpty(front) != [] {
        var i :| 0 <= i < |front| && front[i] != "";
        assert ss[i] != "" && ss[|front|] != "";
      }
      if i, j :| 0 <= i < j < |front| && front[i] != "" && front[j] != "" {
        assert ss[i] != "" && ss[j] != "";
      }
      if i, j :| 0 <= i < j < |ss| && ss[i] != "" && ss[j] != "" {
        assert front[i] == ss[i];
        assert j < |front| ==> front[j] == ss[j];
      }
      assert forall i :: 0 <= i < |front| ==> front[i] == ss[i];
    }
  }

  lemma CredentialErrorIsFirst(c: CredentialForm)
    ensures match FirstCredentialError(c)
            case None => forall d :: !CredentialDefect(c, d)
            case Some(e) =>
              CredentialDefect(c, e) && forall d :: CredentialDefect(c, d) ==> d == e || CredentialBefore(e, d)
  {
    hide NonEmpty, FirstClaimError, PathDefect, PathBefore;
    NonEmptyCount(c.doctypesOrVcts);
    if !c.allClaims {
      ClaimErrorIsFirst(c.claims, 0);
    }
  }

  lemma {:induction false} BadCredentialIsFirst(cs: seq<CredentialForm>, from: nat)
    requires from <= |cs|
    ensures match FirstBadCredential(cs, from)
            case None => forall j, d :: from <= j < |cs| ==> !CredentialDefect(cs[j], d)
            case Some(e) =>
              && e.BadCredential? && from <= e.credential < |cs| && CredentialDefect(cs[e.credential], e.error)
              && (forall j, d :: from <= j < e.credential ==> !CredentialDefect(cs[j], d))
              && (forall d :: CredentialDefect(cs[e.credential], d) ==> d == e.error || CredentialBefore(e.error, d))
    decreases |cs| - from
  {
    hide FirstCredentialError, CredentialDefect, CredentialBefore;
    if from == |cs| {
    } else {
      CredentialErrorIsFirst(cs[from]);
      BadCredentialIsFirst(cs, from + 1);
    }
  }

  lemma UseErrorIsFirst(isHttps: string -> bool, u: IntendedUseForm)
    ensures match FirstUseError(isHttps, u)
            case None => forall d :: !UseDefect(isHttps, u, d)
            case Some(e) =>
              UseDefect(isHttps, u, e) && forall d :: UseDefect(isHttps, u, d) ==> d == e || UseBefore(e, d)
  {
    hide FirstBadCredential, CredentialDefect, CredentialBefore;
    BadCredentialIsFirst(u.credentials, 0);
  }

  lemma {:induction false} BadUseIsFirst(isHttps: string -> bool, us: seq<IntendedUseForm>, from: nat)
    requires from <= |us|
    ensures match FirstBadUse(isHttps, us, from)
            case None => forall i, d :: from <= i < |us| ==> !UseDefect(isHttps, us[i], d)
            case Some(e) =>
              && e.BadUse? && from <= e.use < |us| && UseDefect(isHttps, us[e.use], e.error)
              && (forall i, d :: from <= i < e.use ==> !UseDefect(isHttps, us[i], d))
              && (forall d :: UseDefect(isHttps, us[e.use], d) ==> d == e.error || UseBefore(e.error, d))
    decreases |us| - from
  {
    hide FirstUseError, UseDefect, UseBefore;
    if from == |us| {
    } else {
      UseErrorIsFirst(isHttps, us[from]);
      BadUseIsFirst(isHttps, us, from + 1);
    }
  }

  lemma {:induction false} BadIdentifierIsFirst(ids: seq<Ts5.Identifier>, from: nat)
    requires from <= |ids|
    ensures match FirstBadIdentifier(ids, from)
            case None => forall i :: from <= i < |ids| ==> ids[i].kind != "" && ids[i].identifier != ""
            case Some(e) =>
              && e.BadIdentifier? && from <= e.at < |ids| && (ids[e.at].kind == "" || ids[e.at].identifier == "")
              && forall i :: from <= i < e.at ==> ids[i].kind != "" && ids[i].identifier != ""
    decreases |ids| - from
  {
    if from == |ids| {
    } else {
      BadIdentifierIsFirst(ids, from + 1);
    }
  }

  /** Main result: the error reported is the first defect, and no error means no defect. */
  lemma ErrorIsFirstDefect(isHttps: string -> bool, f: FormState)
    ensures match FirstError(isHttps, f)
            case None => forall d :: !FormDefect(isHttps, f, d)
            case Some(e) => IsFirstDefect(isHttps, f, e)
  {
    hide FirstBadUse, FirstBadIdentifier, UseDefect, UseBefore, IsCountry, HasLegalIdentity;
    BadIdentifierIsFirst(f.otherIds, 0);
    BadUseIsFirst(isHttps, f.intendedUses, 0);
  }

  lemma FirstDefectIsUnique(isHttps: string -> bool, f: FormState, a: FormError, b: FormError)
    requires IsFirstDefect(isHttps, f, a) && IsFirstDefect(isHttps, f, b)
    ensures a == b
  {
    hide FormDefect;
    if a != b {
      assert FormBefore(a, b) && FormBefore(b, a);
      NotBothBefore(a, b);
    }
  }

  lemma NotBothBefore(a: FormError, b: FormError)
    ensures !(FormBefore(a, b) && FormBefore(b, a))
  {
  }

  /** The order in which defects are reported, spelled out. */
  lemma ReportingOrder(at: nat, use: nat, u: UseError, credential: nat, c: CredentialError, claim: nat, p: PathError)
    ensures FormBefore(LegalIdentity, Country) && FormBefore(Country, BadIdentifier(at))
    ensures FormBefore(BadIdentifier(at), BadIdentifier(at + 1)) && FormBefore(BadIdentifier(at), NoIdentifier)
    ensures FormBefore(NoIdentifier, SupervisoryCountry) && FormBefore(SupervisoryCountry, SupervisoryContact)
    ensures FormBefore(SupervisoryContact, NoIntendedUse) && FormBefore(NoIntendedUse, BadUse(use, u))
    ensures FormBefore(BadUse(use, u), BadUse(use + 1, u))
    ensures UseBefore(NoPurpose, NoPrivacyPolicy) && UseBefore(NoPrivacyPolicy, NoCredentials)
    ensures UseBefore(NoCredentials, BadCredential(credential, c))
    ensures UseBefore(BadCredential(credential, c), BadCredential(credential + 1, c))
    ensures CredentialBefore(UnknownFormat, NoType) && CredentialBefore(NoType, ManyDoctypes)
    ensures CredentialBefore(ManyDoctypes, NoClaims) && CredentialBefore(NoClaims, BadClaim(claim, p))
    ensures CredentialBefore(BadClaim(claim, p), BadClaim(claim + 1, p))
    ensures PathBefore(EmptyPath, EmptySegment(at)) && PathBefore(EmptySegment(at), EmptySegment(at + 1))
  {
  }

  /** A path of at least one segment, none empty. */
  predicate GoodPath(segments: seq<string>) {
    segments != [] && forall i :: 0 <= i < |segments| ==> segments[i] != ""
  }

  /** The rules for one credential, stated positively. */
  predicate GoodCredential(c: CredentialForm) {
    && (c.format == "mso_mdoc" || c.format == "dc+sd-jwt")
    && (exists i :: 0 <= i < |c.doctypesOrVcts| && c.doctypesOrVcts[i] != "")
    && (c.format == "mso_mdoc" ==>
          forall i, j :: 0 <= i < j < |c.doctypesOrVcts| ==> c.doctypesOrVcts[i] == "" || c.doctypesOrVcts[j] == "")
    && (!c.allClaims ==> c.claims != [] && forall k :: 0 <= k < |c.claims| ==> GoodPath(c.claims[k]))
  }

  predicate GoodUse(isHttps: string -> bool, u: IntendedUseForm) {
    && u.purpose != [] && (forall i :: 0 <= i < |u.purpose| ==> u.purpose[i].lang != "" && u.purpose[i].content != "")
    && u.privacyPolicy != [] && (forall i :: 0 <= i < |u.privacyPolicy| ==> isHttps(u.privacyPolicy[i].policyUri))
    && u.credentials != [] && (forall j :: 0 <= j < |u.credentials| ==> GoodCredential(u.credentials[j]))
  }

  /** The registration rules, stated positively. */
  predicate GoodForm(isHttps: string -> bool, f: FormState) {
    && HasLegalIdentity(f)
    && IsCountry(f.country)
    && (f.euid != "" || f.otherIds != [])
    && (forall i :: 0 <= i < |f.otherIds| ==> f.otherIds[i].kind != "" && f.otherIds[i].identifier != "")
    && IsCountry(f.supervisory.country)
    && (f.supervisory.email != [] || f.supervisory.phone != [] || f.supervisory.formUri != [])
    && f.intendedUses != []
    && (forall i :: 0 <= i < |f.intendedUses| ==> GoodUse(isHttps, f.intendedUses[i]))
  }

  lemma GoodPathIff(segments: seq<string>)
    ensures GoodPath(segments) <==> forall d :: !PathDefect(segments, d)
  {
    if forall d :: !PathDefect(segments, d) {
      assert !PathDefect(segments, EmptyPath);
      forall i | 0 <= i < |segments|
        ensures segments[i] != ""
      {
        assert !PathDefect(segments, EmptySegment(i));
      }
    }
  }

  lemma GoodCredentialIff(c: CredentialForm)
    ensures GoodCredential(c) <==> forall d :: !CredentialDefect(c, d)
  {
    if GoodCredential(c) {
      forall d
        ensures !CredentialDefect(c, d)
      {
        if d.BadClaim? && d.claim < |c.claims| {
          GoodPathIff(c.claims[d.claim]);
        }
      }
    }
    if forall d :: !CredentialDefect(c, d) {
      assert !CredentialDefect(c, UnknownFormat) && !CredentialDefect(c, NoType);
      assert !CredentialDefect(c, ManyDoctypes) && !CredentialDefect(c, NoClaims);
      forall k | 0 <= k < |c.claims| && !c.allClaims
        ensures GoodPath(c.claims[k])
      {
        forall p
          ensures !PathDefect(c.claims[k], p)
        {
          assert !CredentialDefect(c, BadClaim(k, p));
        }
        GoodPathIff(c.claims[k]);
      }
    }
  }

  lemma GoodUseIff(isHttps: string -> bool, u: IntendedUseForm)
    ensures GoodUse(isHttps, u) <==> forall d :: !UseDefect(isHttps, u, d)
  {
    hide CredentialDefect, GoodCredential;
    if GoodUse(isHttps, u) {
      forall d
        ensures !UseDefect(isHttps, u, d)
      {
        if d.BadCredential? && d.credential < |u.credentials| {
          GoodCredentialIff(u.credentials[d.credential]);
        }
      }
    }
    if forall d :: !UseDefect(isHttps, u, d) {
      assert !UseDefect(isHttps, u, NoPurpose) && !UseDefect(isHttps, u, NoPrivacyPolicy);
      assert !UseDefect(isHttps, u, NoCredentials);
      forall j | 0 <= j < |u.credentials|
        ensures GoodCredential(u.credentials[j])
      {
        forall c
          ensures !CredentialDefect(u.credentials[j], c)
        {
          assert !UseDefect(isHttps, u, BadCredential(j, c));
        }
        GoodCredentialIff(u.credentials[j]);
      }
    }
  }

  /** Build succeeds exactly on good forms. */
  lemma BuildSucceedsIff(isHttps: string -> bool, f: FormState, ulids: nat -> string, drawn: nat, createdAt: string)
    ensures Build(isHttps, f, ulids, drawn, createdAt).Built? <==> GoodForm(isHttps, f)
  {
    hide UseDefect, GoodUse, IsCountry, HasLegalIdentity, FirstError;
    ErrorIsFirstDefect(isHttps, f);
    if GoodForm(isHttps, f) {
      forall d
        ensures !FormDefect(isHttps, f, d)
      {
        if d.BadUse? && d.use < |f.intendedUses| {
          GoodUseIff(isHttps, f.intendedUses[d.use]);
        }
      }
    }
    if forall d :: !FormDefect(isHttps, f, d) {
      assert !FormDefect(isHttps, f, LegalIdentity) && !FormDefect(isHttps, f, Country);
      assert !FormDefect(isHttps, f, NoIdentifier) && !FormDefect(isHttps, f, SupervisoryCountry);
      assert !FormDefect(isHttps, f, SupervisoryContact) && !FormDefect(isHttps, f, NoIntendedUse);
      forall i | 0 <= i < |f.otherIds|
        ensures f.otherIds[i].kind != "" && f.otherIds[i].identifier != ""
      {
        assert !FormDefect(isHttps, f, BadIdentifier(i));
      }
      forall i | 0 <= i < |f.intendedUses|
        ensures GoodUse(isHttps, f.intendedUses[i])
      {
        forall u
          ensures !UseDefect(isHttps, f.intendedUses[i], u)
        {
          assert !FormDefect(isHttps, f, BadUse(i, u));
        }
        GoodUseIff(isHttps, f.intendedUses[i]);
      }
    }
  }

  /** And when it fails, the error is the unique first defect in reporting order. */
  lemma BuildRejectsWithFirstDefect(isHttps: string -> bool, f: FormState, ulids: nat -> string, drawn: nat,
                                    createdAt: string, e: FormError)
    ensures Build(isHttps, f, ulids, drawn, createdAt) == Rejected(e) <==> IsFirstDefect(isHttps, f, e)
  {
    hide FormDefect, FirstError, FormBefore;
    ErrorIsFirstDefect(isHttps, f);
    if IsFirstDefect(isHttps, f, e) && FirstError(isHttps, f).Some? {
      FirstDefectIsUnique(isHttps, f, e, FirstError(isHttps, f).value);
    }
  }
}
