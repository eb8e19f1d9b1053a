/**
  Public slugs: a normalised client name, capped at 40 characters, followed by a
  hyphen and the last seven characters of the client's id.
 */
module Slugs {
  import opened Ids

  const BASE_CAP: nat := 40
  const SUFFIX_LENGTH: nat := 7
  const FALLBACK_BASE := "client"

  predicate IsAlnum(c: char) {
    'a' <= c <= 'z' || '0' <= c <= '9'
  }

  predicate IsSlugChar(c: char) {
    IsAlnum(c) || c == '-'
  }

  /**
    The two pieces of Unicode the slug depends on: lower-casing of one character and
    which characters count as white space. Only their effect on [a-z0-9-] is fixed.
   */
  datatype TextRules = TextRules(lower: char -> char, isSpace: char -> bool) {
    ghost predicate Valid() {
      forall c: char :: IsSlugChar(c) ==> lower(c) == c && !isSpace(c)
    }
  }

  function Lower(t: TextRules, s: string): (r: string)
    ensures |r| == |s|
    ensures forall i :: 0 <= i < |s| ==> r[i] == t.lower(s[i])
  {
    if s == "" then "" else [t.lower(s[0])] + Lower(t, s[1..])
  }

  function TrimLeft(s: string, drop: char -> bool): string {
    if s != "" && drop(s[0]) then TrimLeft(s[1..], drop) else s
  }

  function TrimRight(s: string, drop: char -> bool): string {
    if s != "" && drop(s[|s| - 1]) then TrimRight(s[..|s| - 1], drop) else s
  }

  function Trim(s: string, drop: char -> bool): string {
    TrimRight(TrimLeft(s, drop), drop)
  }

  predicate IsHyphen(c: char) {
    c == '-'
  }

  function SkipRun(s: string): (r: string)
    ensures |r| <= |s|
    ensures r != "" ==> IsAlnum(r[0])
  {
    if s != "" && !IsAlnum(s[0]) then SkipRun(s[1..]) else s
  }

  /** Every run of characters outside [a-z0-9] becomes one hyphen. */
  function Collapse(s: string): string
    decreases |s|
  {
    if s == "" then ""
    else if IsAlnum(s[0]) then [s[0]] + Collapse(s[1..])
    else "-" + Collapse(SkipRun(s[1..]))
  }

  function SlugBase(t: TextRules, name: string): string {
    var base := Trim(Collapse(Lower(t, Trim(name, t.isSpace))), IsHyphen);
    var base := if base == "" then FALLBACK_BASE else base;
    var base := if |base| > BASE_CAP then base[..BASE_CAP] else base;
    TrimRight(base, IsHyphen)
  }

  function Slugify(t: TextRules, name: string, id: string): string {
    var suffix := if |id| > SUFFIX_LENGTH then id[|id| - SUFFIX_LENGTH..] else id;
    SlugBase(t, name) + "-" + Lower(t, suffix)
  }

  /** Characters of [a-z0-9-] with no two hyphens in a row. */
  ghost predicate HyphensSeparate(s: string) {
    && (forall i :: 0 <= i < |s| ==> IsSlugChar(s[i]))
    && (forall i :: 0 < i < |s| ==> s[i - 1] != '-' || s[i] != '-')
  }

  /** Non-empty runs of [a-z0-9], separated by single hyphens. */
  ghost predicate HyphenatedRuns(s: string) {
    && s != ""
    && HyphensSeparate(s)
    && s[0] != '-'
    && s[|s| - 1] != '-'
  }

  lemma {:induction false} CollapseSeparates(s: string)
    ensures HyphensSeparate(Collapse(s))
    ensures s != "" ==> Collapse(s) != "" && (Collapse(s)[0] == '-' <==> !IsAlnum(s[0]))
    decreases |s|
  {
    if s == "" {
    } else {
      var rest := if IsAlnum(s[0]) then s[1..] else SkipRun(s[1..]);
      CollapseSeparates(rest);
      var tail := Collapse(rest);
      assert forall i :: 0 < i < |Collapse(s)| ==> Collapse(s)[i] == tail[i - 1];
    }
  }

  lemma {:induction false} TrimLeftKeepsSeparation(s: string)
    requires HyphensSeparate(s)
    ensures var r := TrimLeft(s, IsHyphen);
            HyphensSeparate(r) && (r != "" ==> r[0] != '-') && (s != "" ==> r == s || r == s[1..])
  {
    if s == "" || s[0] != '-' {
    } else {
      TrimLeftKeepsSeparation(s[1..]);
      if |s| > 1 {
        assert s[1] != '-';
      }
    }
  }

  lemma {:induction false} TrimRightKeepsSeparation(s: string)
    requires HyphensSeparate(s)
    ensures var r := TrimRight(s, IsHyphen);
            && HyphensSeparate(r)
            && r <= s
            && (r != "" ==> r[|r| - 1] != '-')
            && (s != "" && s[0] != '-' ==> r != "")
  {
    if s == "" || s[|s| - 1] != '-' {
    } else {
      TrimRightKeepsSeparation(s[..|s| - 1]);
    }
  }

  /** What every base looks like, whatever the name: never empty, at most 40 characters. */
  lemma SlugBaseShape(t: TextRules, name: string)
    ensures HyphenatedRuns(SlugBase(t, name)) && |SlugBase(t, name)| <= 40
  {
    var collapsed := Collapse(Lower(t, Trim(name, t.isSpace)));
    CollapseSeparates(Lower(t, Trim(name, t.isSpace)));
    TrimLeftKeepsSeparation(collapsed);
    TrimRightKeepsSeparation(TrimLeft(collapsed, IsHyphen));
    var trimmed := Trim(collapsed, IsHyphen);
    var base := if trimmed == "" then FALLBACK_BASE else trimmed;
    assert HyphenatedRuns(base);
    var capped := if |base| > BASE_CAP then base[..BASE_CAP] else base;
    TrimRightKeepsSeparation(capped);
  }

  lemma {:induction false} CollapseFixesRuns(s: string)
    requires HyphensSeparate(s)
    requires s != "" ==> s[|s| - 1] != '-'
    ensures Collapse(s) == s
    decreases |s|
  {
    if s == "" {
    } else {
      CollapseFixesRuns(s[1..]);
      if !IsAlnum(s[0]) {
        assert s[1] != '-' && SkipRun(s[1..]) == s[1..];
      }
    }
  }

  /** Normalising a base again changes nothing. */
  lemma SlugBaseIdempotent(t: TextRules, name: string)
    requires t.Valid()
    ensures SlugBase(t, SlugBase(t, name)) == SlugBase(t, name)
  {
    SlugBaseShape(t, name);
    var base := SlugBase(t, name);
    assert !t.isSpace(base[0]) && !t.isSpace(base[|base| - 1]);
    assert Trim(base, t.isSpace) == base;
    assert Lower(t, base) == base;
    CollapseFixesRuns(base);
  }

  lemma LowerKeepsDigits(t: TextRules, s: string)
    requires t.Valid() && AllDigits(s)
    ensures Lower(t, s) == s
  {
  }

  lemma SlugOfMintedId(t: TextRules, name: string, n: nat)
    requires t.Valid()
    ensures var id := MintedId(n);
            Slugify(t, name, id) == SlugBase(t, name) + "-" + id[|id| - SUFFIX_LENGTH..]
  {
    LastDigitsAreModulus(n, SUFFIX_LENGTH);
    var id := MintedId(n);
    LowerKeepsDigits(t, id[|id| - SUFFIX_LENGTH..]);
  }

  /** Every slug the store assigns: hyphen-separated runs of [a-z0-9], at most 48 long. */
  lemma SlugShape(t: TextRules, name: string, n: nat)
    requires t.Valid()
    ensures var slug := Slugify(t, name, MintedId(n));
            HyphenatedRuns(slug) && |slug| <= 48
  {
    SlugBaseShape(t, name);
    SlugOfMintedId(t, name, n);
    LastDigitsAreModulus(n, SUFFIX_LENGTH);
    var id := MintedId(n);
    var base, tail := SlugBase(t, name), id[|id| - SUFFIX_LENGTH..];
    assert forall i :: 0 <= i < |tail| ==> IsDigit(tail[i]);
    var slug := base + "-" + tail;
    forall i | 0 <= i < |slug|
      ensures IsSlugChar(slug[i])
      ensures i > 0 ==> slug[i - 1] != '-' || slug[i] != '-'
    {
      assert i < |base| ==> slug[i] == base[i];
      assert i > |base| ==> slug[i] == tail[i - |base| - 1];
      assert 0 < i <= |base| ==> slug[i - 1] == base[i - 1];
    }
  }

  /** Different numbers modulo 10^7 give different slugs, whatever the two names. */
  lemma SlugsDifferAcrossNames(t: TextRules, name1: string, m: nat, name2: string, n: nat)
    requires t.Valid()
    requires m % Pow10(SUFFIX_LENGTH) != n % Pow10(SUFFIX_LENGTH)
    ensures Slugify(t, name1, MintedId(m)) != Slugify(t, name2, MintedId(n))
  {
    SlugOfMintedId(t, name1, m);
    SlugOfMintedId(t, name2, n);
    SameSuffixIffSameModulus(m, n, SUFFIX_LENGTH);
    var a, b := Slugify(t, name1, MintedId(m)), Slugify(t, name2, MintedId(n));
    assert a[|a| - SUFFIX_LENGTH..] == MintedId(m)[|MintedId(m)| - SUFFIX_LENGTH..];
    assert b[|b| - SUFFIX_LENGTH..] == MintedId(n)[|MintedId(n)| - SUFFIX_LENGTH..];
  }

  /**
    Two clients registered under one name get distinct slugs exactly when their sequence
    numbers differ modulo 10^7: the promise of a unique slug holds only up to that wrap.
   */
  lemma SameNameSlugsCollideIff(t: TextRules, name: string, m: nat, n: nat)
    requires t.Valid()
    ensures Slugify(t, name, MintedId(m)) == Slugify(t, name, MintedId(n))
       <==> m % Pow10(SUFFIX_LENGTH) == n % Pow10(SUFFIX_LENGTH)
  {
    SlugOfMintedId(t, name, m);
    SlugOfMintedId(t, name, n);
    SameSuffixIffSameModulus(m, n, SUFFIX_LENGTH);
    if m % Pow10(SUFFIX_LENGTH) != n % Pow10(SUFFIX_LENGTH) {
      SlugsDifferAcrossNames(t, name, m, name, n);
    }
  }

  /** The collision is real: same name, sequence numbers 1 and 10000001. */
  lemma SameNameSlugCollision(t: TextRules, name: string)
    requires t.Valid()
    ensures MintedId(1) != MintedId(10_000_001)
    ensures Slugify(t, name, MintedId(1)) == Slugify(t, name, MintedId(10_000_001))
  {
    hide MintedId, Slugify;
    assert Pow10(7) == 10_000_000 by {
      assert Pow10(2) == 100 && Pow10(4) == 10_000 && Pow10(6) == 1_000_000;
    }
    SameNameSlugsCollideIff(t, name, 1, 10_000_001);
    if MintedId(1) == MintedId(10_000_001) {
      MintedIdInjective(1, 10_000_001);
    }
  }
}
