/**
  The ids the in-memory store mints: a fixed 14-character prefix followed by the
  sequence number, printed in decimal and zero-padded to at least 12 digits.
 */
module Ids {
  const ID_PREFIX := "01JZXREGDBFAKE"
  const ID_DIGITS: nat := 12

  function DigitChar(d: nat): char
    requires d < 10
  {
    '0' + d as char
  }

  predicate IsDigit(c: char) {
    '0' <= c <= '9'
  }

  predicate AllDigits(s: string) {
    forall i :: 0 <= i < |s| ==> IsDigit(s[i])
  }

  function DigitValue(c: char): nat
    requires IsDigit(c)
  {
    c as nat - '0' as nat
  }

  function Decimal(n: nat): (s: string)
    ensures AllDigits(s) && |s| > 0
  {
    if n < 10 then [DigitChar(n)] else Decimal(n / 10) + [DigitChar(n % 10)]
  }

  function ZeroPad(s: string, width: nat): (p: string)
    requires AllDigits(s)
    ensures AllDigits(p) && |p| >= width && |p| >= |s|
    decreases width - |s|
  {
    if |s| >= width then s else ZeroPad("0" + s, width)
  }

  /** The id printed for sequence number n. */
  function MintedId(n: nat): string {
    ID_PREFIX + ZeroPad(Decimal(n), ID_DIGITS)
  }

  /** The number a digit string denotes; reading back is the inverse of printing. */
  function Value(s: string): nat
    requires AllDigits(s)
  {
    if s == "" then 0 else 10 * Value(s[..|s| - 1]) + DigitValue(s[|s| - 1])
  }

  function Pow10(k: nat): (p: nat)
    ensures p > 0
  {
    if k == 0 then 1 else 10 * Pow10(k - 1)
  }

  lemma {:induction false} ValueOfDecimal(n: nat)
    ensures Value(Decimal(n)) == n
  {
    if n < 10 {
    } else {
      ValueOfDecimal(n / 10);
      var s := Decimal(n);
      assert s[..|s| - 1] == Decimal(n / 10);
    }
  }

  lemma ValueOfLast(s: string)
    requires AllDigits(s) && s != ""
    ensures Value(s) == 10 * Value(s[..|s| - 1]) + DigitValue(s[|s| - 1])
  {
  }

  lemma ShiftLeft(a: nat, p: nat, b: nat, d: nat)
    ensures 10 * (a * p + b) + d == a * (10 * p) + (10 * b + d)
  {
    assert a * (10 * p) == 10 * (a * p);
  }

  lemma {:induction false} ValueOfConcat(a: string, b: string)
    requires AllDigits(a) && AllDigits(b)
    ensures AllDigits(a + b)
    ensures Value(a + b) == Value(a) * Pow10(|b|) + Value(b)
    decreases |b|
  {
    if b == "" {
      assert a + b == a;
    } else {
      var front, ab := b[..|b| - 1], a + b;
      assert ab[..|ab| - 1] == a + front;
      ValueOfConcat(a, front);
      assert Pow10(|b|) == 10 * Pow10(|front|);
      hide Value, Pow10;
      ValueOfLast(ab);
      ValueOfLast(b);
      ShiftLeft(Value(a), Pow10(|front|), Value(front), DigitValue(b[|b| - 1]));
    }
  }

  lemma {:induction false} ValueOfZeroPad(s: string, width: nat)
    requires AllDigits(s)
    ensures Value(ZeroPad(s, width)) == Value(s)
    decreases width - |s|
  {
    if |s| >= width {
    } else {
      ValueOfConcat("0", s);
      assert Value("0") == 0;
      ValueOfZeroPad("0" + s, width);
    }
  }

  lemma {:induction false} ValueBelowPow10(s: string)
    requires AllDigits(s)
    ensures Value(s) < Pow10(|s|)
  {
    if s == "" {
    } else {
      ValueBelowPow10(s[..|s| - 1]);
    }
  }

  lemma {:induction false} EqualValuesEqualDigits(a: string, b: string)
    requires AllDigits(a) && AllDigits(b) && |a| == |b|
    requires Value(a) == Value(b)
    ensures a == b
  {
    if a == "" {
    } else {
      EqualValuesEqualDigits(a[..|a| - 1], b[..|b| - 1]);
      assert a == a[..|a| - 1] + [a[|a| - 1]];
      assert b == b[..|b| - 1] + [b[|b| - 1]];
    }
  }

  /** Printing is injective, so two sequence numbers never share an id. */
  lemma {:induction false} MintedIdInjective(m: nat, n: nat)
    requires MintedId(m) == MintedId(n)
    ensures m == n
  {
    var a, b := ZeroPad(Decimal(m), ID_DIGITS), ZeroPad(Decimal(n), ID_DIGITS);
    assert MintedId(m)[|ID_PREFIX|..] == a;
    assert MintedId(n)[|ID_PREFIX|..] == b;
    ValueOfDecimal(m);
    ValueOfDecimal(n);
    ValueOfZeroPad(Decimal(m), ID_DIGITS);
    ValueOfZeroPad(Decimal(n), ID_DIGITS);
  }

  /** A minted id is never the empty string, the value callers send for "assign one". */
  lemma MintedIdNotEmpty(n: nat)
    ensures |MintedId(n)| >= |ID_PREFIX| + ID_DIGITS
  {
  }

  /** The last k characters of an id, for k at most 12, are the number modulo 10^k. */
  lemma {:induction false} LastDigitsAreModulus(n: nat, k: nat)
    requires k <= ID_DIGITS
    ensures var id := MintedId(n);
            AllDigits(id[|id| - k..]) && Value(id[|id| - k..]) == n % Pow10(k)
  {
    var id := MintedId(n);
    var digits := ZeroPad(Decimal(n), ID_DIGITS);
    var tail := digits[|digits| - k..];
    assert id[|id| - k..] == tail;
    var head := digits[..|digits| - k];
    assert digits == head + tail;
    ValueOfConcat(head, tail);
    ValueOfDecimal(n);
    ValueOfZeroPad(Decimal(n), ID_DIGITS);
    ValueBelowPow10(tail);
    ModulusOfSplit(Value(head), Pow10(k), Value(tail));
  }

  /** An id is the fixed prefix and the number in decimal, padded with zeros to 12 digits when shorter. */
  lemma {:induction false} MintedIdReads(n: nat)
    ensures var id := MintedId(n);
            && |id| >= 26 && id[..14] == "01JZXREGDBFAKE"
            && AllDigits(id[14..]) && Value(id[14..]) == n
            && (|id| > 26 ==> id[14] != '0')
  {
    var id, digits := MintedId(n), ZeroPad(Decimal(n), ID_DIGITS);
    assert id[14..] == digits;
    ValueOfDecimal(n);
    ValueOfZeroPad(Decimal(n), ID_DIGITS);
    PaddedLength(Decimal(n), ID_DIGITS);
    DecimalHasNoLeadingZero(n);
  }

  lemma {:induction false} PaddedLength(s: string, width: nat)
    requires AllDigits(s)
    ensures if |s| >= width then ZeroPad(s, width) == s else |ZeroPad(s, width)| == width
    decreases width - |s|
  {
    if |s| >= width {
    } else {
      PaddedLength("0" + s, width);
    }
  }

  lemma {:induction false} DecimalHasNoLeadingZero(n: nat)
    ensures |Decimal(n)| > 1 ==> Decimal(n)[0] != '0'
    ensures n > 0 ==> Decimal(n)[0] != '0'
  {
    if n < 10 {
    } else {
      DecimalHasNoLeadingZero(n / 10);
    }
  }

  lemma MultiplyNextStep(x: nat, y: nat, d: nat)
    requires x < y
    ensures x * d + d <= y * d
  {
    assert (x + 1) * d == x * d + d;
    assert (x + 1) * d <= y * d;
  }

  lemma ModulusOfSplit(q: nat, d: nat, r: nat)
    requires r < d
    ensures (q * d + r) % d == r
  {
    var x := q * d + r;
    assert x == (x / d) * d + x % d;
    if x / d > q {
      MultiplyNextStep(q, x / d, d);
    } else if x / d < q {
      MultiplyNextStep(x / d, q, d);
    }
  }

  /** Same last k characters exactly when the numbers agree modulo 10^k. */
  lemma {:induction false} SameSuffixIffSameModulus(m: nat, n: nat, k: nat)
    requires k <= ID_DIGITS
    ensures var a, b := MintedId(m), MintedId(n);
            a[|a| - k..] == b[|b| - k..] <==> m % Pow10(k) == n % Pow10(k)
  {
    LastDigitsAreModulus(m, k);
    LastDigitsAreModulus(n, k);
    var a, b := MintedId(m), MintedId(n);
    if m % Pow10(k) == n % Pow10(k) {
      EqualValuesEqualDigits(a[|a| - k..], b[|b| - k..]);
    }
  }
}
