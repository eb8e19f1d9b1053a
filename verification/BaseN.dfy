/**
  Unpadded base32 and base64 as RFC 4648 describes them: the bits of the bytes, most
  significant first, regrouped five or six at a time, the last group filled with zeros.
 */
module BaseN {
  import Ids
  import opened Values

  type Bits = seq<bool>

  function Pow2(k: nat): (p: nat)
    ensures p > 0
  {
    if k == 0 then 1 else 2 * Pow2(k - 1)
  }

  /** The k bits of v, most significant first. */
  function ToBits(v: nat, k: nat): (b: Bits)
    requires v < Pow2(k)
    ensures |b| == k
  {
    if k == 0 then [] else ToBits(v / 2, k - 1) + [v % 2 == 1]
  }

  function FromBits(b: Bits): (v: nat)
    ensures v < Pow2(|b|)
  {
    if b == [] then 0 else 2 * FromBits(b[..|b| - 1]) + (if b[|b| - 1] then 1 else 0)
  }

  lemma {:induction false} BitsThenValue(v: nat, k: nat)
    requires v < Pow2(k)
    ensures FromBits(ToBits(v, k)) == v
  {
    if k == 0 {
    } else {
      BitsThenValue(v / 2, k - 1);
      assert ToBits(v, k)[..k - 1] == ToBits(v / 2, k - 1);
    }
  }

  lemma {:induction false} ValueThenBits(b: Bits)
    ensures ToBits(FromBits(b), |b|) == b
  {
    if b == [] {
    } else {
      ValueThenBits(b[..|b| - 1]);
      assert FromBits(b) / 2 == FromBits(b[..|b| - 1]);
    }
  }

  // ---- Regrouping ----

  predicate FitIn(vs: seq<nat>, k: nat) {
    forall i :: 0 <= i < |vs| ==> vs[i] < Pow2(k)
  }

  function Spread(vs: seq<nat>, k: nat): Bits
    requires FitIn(vs, k)
  {
    if vs == [] then [] else ToBits(vs[0], k) + Spread(vs[1..], k)
  }

  /** Whole groups of k bits; what is left over at the end is dropped. */
  function Gather(b: Bits, k: nat): (vs: seq<nat>)
    requires k > 0
    ensures FitIn(vs, k)
    decreases |b|
  {
    if |b| < k then [] else [FromBits(b[..k])] + Gather(b[k..], k)
  }

  /** The bits that do not fill a group. */
  function Rest(b: Bits, k: nat): (r: Bits)
    requires k > 0
    ensures |r| < k
    decreases |b|
  {
    if |b| < k then b else Rest(b[k..], k)
  }

  lemma {:induction false} SpreadThenGather(vs: seq<nat>, k: nat, rest: Bits)
    requires FitIn(vs, k) && |rest| < k
    ensures Gather(Spread(vs, k) + rest, k) == vs
  {
    hide FromBits, ToBits, Pow2;
    if vs == [] {
      assert Spread(vs, k) + rest == rest;
    } else {
      var b := Spread(vs, k) + rest;
      assert b[..k] == ToBits(vs[0], k);
      assert b[k..] == Spread(vs[1..], k) + rest;
      BitsThenValue(vs[0], k);
      SpreadThenGather(vs[1..], k, rest);
    }
  }

  lemma SpreadStep(v: nat, vs: seq<nat>, k: nat)
    requires v < Pow2(k) && FitIn(vs, k)
    ensures FitIn([v] + vs, k) && Spread([v] + vs, k) == ToBits(v, k) + Spread(vs, k)
  {
    assert ([v] + vs)[1..] == vs;
  }

  lemma {:induction false} GatherThenSpread(b: Bits, k: nat)
    requires k > 0
    ensures Spread(Gather(b, k), k) + Rest(b, k) == b
    decreases |b|
  {
    hide FromBits, ToBits, Pow2;
    if |b| < k {
      assert Spread([], k) + b == b;
    } else {
      var v, vs := FromBits(b[..k]), Gather(b[k..], k);
      GatherThenSpread(b[k..], k);
      ValueThenBits(b[..k]);
      SpreadStep(v, vs, k);
      Regroup(b[..k], Spread(vs, k), Rest(b[k..], k));
      assert b[..k] + b[k..] == b;
    }
  }

  lemma Regroup(a: Bits, b: Bits, c: Bits)
    ensures (a + b) + c == a + (b + c)
  {
  }

  function Zeros(n: nat): (b: Bits)
    ensures |b| == n
  {
    if n == 0 then [] else [false] + Zeros(n - 1)
  }

  function Filler(b: Bits, k: nat): (z: Bits)
    requires k > 0
    ensures |z| < k
  {
    var over := |Rest(b, k)|;
    Zeros(if over == 0 then 0 else k - over)
  }

  lemma {:induction false} FillerCompletesGroup(b: Bits, more: Bits, k: nat)
    requires k > 0 && |more| < k
    requires more == [] <==> Rest(b, k) == []
    requires more != [] ==> |Rest(b, k)| + |more| == k
    ensures Rest(b + more, k) == []
    decreases |b|
  {
    if |b| < k {
      assert more == [] ==> b + more == [];
      assert more != [] ==> (b + more)[k..] == [];
    } else {
      assert (b + more)[k..] == b[k..] + more;
      FillerCompletesGroup(b[k..], more, k);
    }
  }

  lemma BytesFit(bytes: seq<byte>)
    ensures FitIn(bytes, 8)
  {
    assert Pow2(8) == 256 by {
      assert Pow2(4) == 16;
    }
  }

  function Groups(bytes: seq<byte>, k: nat): (vs: seq<nat>)
    requires k > 0
    ensures FitIn(vs, k)
  {
    BytesFit(bytes);
    var b := Spread(bytes, 8);
    Gather(b + Filler(b, k), k)
  }

  function Ungroup(vs: seq<nat>, k: nat): seq<byte>
    requires FitIn(vs, k)
  {
    assert Pow2(8) == 256 by {
      assert Pow2(4) == 16;
    }
    var bytes := Gather(Spread(vs, k), 8);
    assert forall i :: 0 <= i < |bytes| ==> bytes[i] < 256;
    bytes
  }

  /** Regrouping loses nothing, for byte strings of every length and groups of up to eight bits. */
  lemma GroupsRoundTrip(bytes: seq<byte>, k: nat)
    requires 0 < k <= 8
    ensures Ungroup(Groups(bytes, k), k) == bytes
  {
    BytesFit(bytes);
    var b := Spread(bytes, 8);
    var filler := Filler(b, k);
    FillerCompletesGroup(b, filler, k);
    GatherThenSpread(b + filler, k);
    assert Spread(Groups(bytes, k), k) == b + filler;
    SpreadThenGather(bytes, 8, filler);
  }

  lemma {:induction false} SpreadLength(vs: seq<nat>, k: nat)
    requires FitIn(vs, k)
    ensures |Spread(vs, k)| == |vs| * k
  {
    if vs == [] {
    } else {
      SpreadLength(vs[1..], k);
    }
  }

  /** As many digits as it takes to hold all the bits, and no more. */
  lemma GroupsLength(bytes: seq<byte>, k: nat)
    requires k > 0
    ensures 8 * |bytes| <= |Groups(bytes, k)| * k < 8 * |bytes| + k
  {
    BytesFit(bytes);
    var b := Spread(bytes, 8);
    var filler := Filler(b, k);
    FillerCompletesGroup(b, filler, k);
    GatherThenSpread(b + filler, k);
    SpreadLength(bytes, 8);
    SpreadLength(Groups(bytes, k), k);
  }

  lemma RestLength(b: Bits, k: nat)
    requires k > 0
    ensures |b| == |Gather(b, k)| * k + |Rest(b, k)|
    ensures |Rest(b, k)| == |b| % k
  {
    GatherThenSpread(b, k);
    SpreadLength(Gather(b, k), k);
    Ids.ModulusOfSplit(|Gather(b, k)|, k, |Rest(b, k)|);
  }

  lemma WholeGroups(b: Bits, k: nat)
    requires k > 0 && |b| % k == 0
    ensures Spread(Gather(b, k), k) == b && b + Filler(b, k) == b
  {
    hide Gather, Spread;
    RestLength(b, k);
    GatherThenSpread(b, k);
    assert Rest(b, k) == [];
  }

  /** Groups that fill whole bytes come back from the bytes they make. */
  lemma UngroupThenGroup(vs: seq<nat>, k: nat)
    requires 0 < k <= 8 && FitIn(vs, k) && |vs| * k % 8 == 0
    ensures Groups(Ungroup(vs, k), k) == vs
    ensures 8 * |Ungroup(vs, k)| == |vs| * k
  {
    hide Gather, Spread, Filler, FromBits, ToBits, Pow2;
    var b := Spread(vs, k);
    SpreadLength(vs, k);
    RestLength(b, 8);
    WholeGroups(b, 8);
    BytesFit(Ungroup(vs, k));
    Ids.ModulusOfSplit(|vs|, k, 0);
    WholeGroups(b, k);
    SpreadThenGather(vs, k, []);
    assert b + [] == b;
  }

  // ---- The encoding as a number ----

  /** The number a sequence of digits denotes, the first digit counting most. */
  function Number(vs: seq<nat>, base: nat): nat {
    if vs == [] then 0 else Number(vs[..|vs| - 1], base) * base + vs[|vs| - 1]
  }

  lemma FromBitsOfLast(b: Bits)
    requires b != []
    ensures FromBits(b) == 2 * FromBits(b[..|b| - 1]) + (if b[|b| - 1] then 1 else 0)
  {
  }

  lemma ShiftBit(a: nat, p: nat, b: nat, d: nat)
    ensures 2 * (a * p + b) + d == a * (2 * p) + (2 * b + d)
  {
    assert a * (2 * p) == 2 * (a * p);
  }

  lemma {:induction false} FromBitsOfConcat(a: Bits, b: Bits)
    ensures FromBits(a + b) == FromBits(a) * Pow2(|b|) + FromBits(b)
  {
    if b == [] {
      assert a + b == a;
    } else {
      var front, ab := b[..|b| - 1], a + b;
      assert ab[..|ab| - 1] == a + front;
      FromBitsOfConcat(a, front);
      assert Pow2(|b|) == 2 * Pow2(|front|);
      hide FromBits, Pow2;
      FromBitsOfLast(ab);
      FromBitsOfLast(b);
      ShiftBit(FromBits(a), Pow2(|front|), FromBits(front), if b[|b| - 1] then 1 else 0);
    }
  }

  lemma {:induction false} FromBitsOfZeros(n: nat)
    ensures FromBits(Zeros(n)) == 0
  {
    if n == 0 {
    } else {
      FromBitsOfZeros(n - 1);
      hide Pow2;
      FromBitsOfConcat([false], Zeros(n - 1));
      assert FromBits([false]) == 0;
    }
  }

  lemma {:induction false} SpreadOfConcat(a: seq<nat>, b: seq<nat>, k: nat)
    requires FitIn(a, k) && FitIn(b, k)
    ensures FitIn(a + b, k) && Spread(a + b, k) == Spread(a, k) + Spread(b, k)
  {
    if a == [] {
      assert a + b == b;
    } else {
      SpreadOfConcat(a[1..], b, k);
      assert (a + b)[1..] == a[1..] + b;
    }
  }

  /** The bits of the digits are the bits of the number. */
  lemma {:induction false} SpreadIsNumber(vs: seq<nat>, k: nat)
    requires FitIn(vs, k)
    ensures FromBits(Spread(vs, k)) == Number(vs, Pow2(k))
  {
    if vs == [] {
    } else {
      var front, last := vs[..|vs| - 1], vs[|vs| - 1];
      SpreadIsNumber(front, k);
      assert vs == front + [last];
      SpreadOfConcat(front, [last], k);
      SpreadOfOne(last, k);
      hide FromBits, Spread, Pow2, ToBits;
      FromBitsOfConcat(Spread(front, k), ToBits(last, k));
      BitsThenValue(last, k);
    }
  }

  lemma SpreadOfOne(v: nat, k: nat)
    requires v < Pow2(k)
    ensures FitIn([v], k) && Spread([v], k) == ToBits(v, k)
  {
    assert [v][1..] == [];
    assert ToBits(v, k) + [] == ToBits(v, k);
  }

  /** The bits of the digits are those of the bytes, then zeros, fewer than a digit holds. */
  lemma GroupBits(bytes: seq<byte>, k: nat) returns (filler: Bits)
    requires k > 0
    ensures FitIn(bytes, 8) && Spread(Groups(bytes, k), k) == Spread(bytes, 8) + filler
    ensures |filler| < k && FromBits(filler) == 0
    ensures |filler| == |Groups(bytes, k)| * k - 8 * |bytes|
  {
    BytesFit(bytes);
    var b := Spread(bytes, 8);
    filler := Filler(b, k);
    FillerCompletesGroup(b, filler, k);
    GatherThenSpread(b + filler, k);
    FillerIsZero(b, k);
    SpreadLength(bytes, 8);
    SpreadLength(Groups(bytes, k), k);
  }

  /**
    The digits are the bytes read as one number, shifted left by the filler: with the
    length, this fixes every digit.
   */
  lemma GroupsAreThatNumber(bytes: seq<byte>, k: nat)
    requires k > 0
    ensures var filler := |Groups(bytes, k)| * k - 8 * |bytes|;
            && 0 <= filler < k
            && Number(Groups(bytes, k), Pow2(k)) == Number(bytes, 256) * Pow2(filler)
  {
    hide FromBits, Pow2, Spread, Number, Groups;
    var filler := GroupBits(bytes, k);
    EightBits();
    SpreadIsNumber(bytes, 8);
    SpreadIsNumber(Groups(bytes, k), k);
    FromBitsOfConcat(Spread(bytes, 8), filler);
  }

  lemma EightBits()
    ensures Pow2(8) == 256
  {
    assert Pow2(4) == 16;
  }

  lemma FillerIsZero(b: Bits, k: nat)
    requires k > 0
    ensures FromBits(Filler(b, k)) == 0
  {
    var over := |Rest(b, k)|;
    FromBitsOfZeros(if over == 0 then 0 else k - over);
  }

  // ---- Alphabets ----

  /** A digit for each group value, and the value of each digit. */
  datatype Encoding = Encoding(bits: nat, digit: nat -> char, value: char -> Option<nat>) {
    ghost predicate Valid() {
      && 0 < bits <= 8
      && (forall v: nat :: v < Pow2(bits) ==> value(digit(v)) == Some(v))
      && (forall c: char :: value(c).Some? ==> value(c).value < Pow2(bits) && digit(value(c).value) == c)
    }
  }

  function Digits(e: Encoding, vs: seq<nat>): (s: string)
    ensures |s| == |vs|
    ensures forall i :: 0 <= i < |vs| ==> s[i] == e.digit(vs[i])
  {
    if vs == [] then "" else [e.digit(vs[0])] + Digits(e, vs[1..])
  }

  function DigitValues(e: Encoding, s: string): (vs: Option<seq<nat>>)
    ensures vs.Some? ==> FitIn(vs.value, e.bits)
  {
    if s == "" then Some([])
    else match e.value(s[0])
      case None => None
      case Some(v) =>
        if v >= Pow2(e.bits) then None
        else match DigitValues(e, s[1..])
          case None => None
          case Some(vs) => Some([v] + vs)
  }

  function EncodeToString(e: Encoding, bytes: seq<byte>): string
    requires e.bits > 0
  {
    Digits(e, Groups(bytes, e.bits))
  }

  /** None for a character outside the alphabet. */
  function DecodeString(e: Encoding, s: string): Option<seq<byte>> {
    match DigitValues(e, s)
    case None => None
    case Some(vs) => Some(Ungroup(vs, e.bits))
  }

  lemma {:induction false} DigitsThenValues(e: Encoding, vs: seq<nat>)
    requires e.Valid() && FitIn(vs, e.bits)
    ensures DigitValues(e, Digits(e, vs)) == Some(vs)
  {
    if vs == [] {
    } else {
      var s := Digits(e, vs);
      DigitsThenValues(e, vs[1..]);
      assert s[1..] == Digits(e, vs[1..]);
      assert e.value(s[0]) == Some(vs[0]);
      assert [vs[0]] + vs[1..] == vs;
    }
  }

  /** Decoding undoes encoding, for byte strings of every length. */
  lemma DecodeEncode(e: Encoding, bytes: seq<byte>)
    requires e.Valid()
    ensures DecodeString(e, EncodeToString(e, bytes)) == Some(bytes)
  {
    DigitsThenValues(e, Groups(bytes, e.bits));
    GroupsRoundTrip(bytes, e.bits);
  }

  lemma {:induction false} ValuesThenDigits(e: Encoding, s: string)
    requires e.Valid() && DigitValues(e, s).Some?
    ensures Digits(e, DigitValues(e, s).value) == s
  {
    if s == "" {
    } else {
      ValuesThenDigits(e, s[1..]);
      var vs := DigitValues(e, s).value;
      assert vs[1..] == DigitValues(e, s[1..]).value;
      assert [s[0]] + s[1..] == s;
    }
  }

  /** Encoding undoes decoding, for texts of digits that fill whole bytes: each of them occurs. */
  lemma EncodeDecode(e: Encoding, s: string)
    requires e.Valid() && DigitValues(e, s).Some? && |s| * e.bits % 8 == 0
    ensures DecodeString(e, s).Some?
    ensures EncodeToString(e, DecodeString(e, s).value) == s
    ensures 8 * |DecodeString(e, s).value| == |s| * e.bits
  {
    ValuesThenDigits(e, s);
    UngroupThenGroup(DigitValues(e, s).value, e.bits);
  }

  lemma EncodingAvoids(e: Encoding, bytes: seq<byte>, c: char)
    requires e.bits > 0 && forall v: nat :: v < Pow2(e.bits) ==> e.digit(v) != c
    ensures c !in EncodeToString(e, bytes)
  {
  }

  /** Crockford's alphabet: digits, then the letters without I, L, O and U. */
  function CrockfordDigit(v: nat): char {
    if v < 10 then '0' + v as char
    else if v < 18 then 'A' + (v - 10) as char
    else if v < 20 then 'J' + (v - 18) as char
    else if v < 22 then 'M' + (v - 20) as char
    else if v < 27 then 'P' + (v - 22) as char
    else if v < 32 then 'V' + (v - 27) as char
    else '?'
  }

  function CrockfordValue(c: char): Option<nat> {
    if '0' <= c <= '9' then Some((c - '0') as nat)
    else if 'A' <= c <= 'H' then Some((c - 'A') as nat + 10)
    else if 'J' <= c <= 'K' then Some((c - 'J') as nat + 18)
    else if 'M' <= c <= 'N' then Some((c - 'M') as nat + 20)
    else if 'P' <= c <= 'T' then Some((c - 'P') as nat + 22)
    else if 'V' <= c <= 'Z' then Some((c - 'V') as nat + 27)
    else None
  }

  function Base64Digit(v: nat, last: char, next: char): char {
    if v < 26 then 'A' + v as char
    else if v < 52 then 'a' + (v - 26) as char
    else if v < 62 then '0' + (v - 52) as char
    else if v == 62 then next
    else last
  }

  function Base64Value(c: char, last: char, next: char): Option<nat> {
    if 'A' <= c <= 'Z' then Some((c - 'A') as nat)
    else if 'a' <= c <= 'z' then Some((c - 'a') as nat + 26)
    else if '0' <= c <= '9' then Some((c - '0') as nat + 52)
    else if c == next then Some(62)
    else if c == last then Some(63)
    else None
  }

  function UrlDigit(v: nat): char { Base64Digit(v, '_', '-') }
  function UrlValue(c: char): Option<nat> { Base64Value(c, '_', '-') }
  function StdDigit(v: nat): char { Base64Digit(v, '/', '+') }
  function StdValue(c: char): Option<nat> { Base64Value(c, '/', '+') }

  const CROCKFORD := Encoding(5, CrockfordDigit, CrockfordValue)
  const RAW_URL := Encoding(6, UrlDigit, UrlValue)
  const RAW_STD := Encoding(6, StdDigit, StdValue)

  lemma CrockfordIsValid()
    ensures CROCKFORD.Valid()
    ensures forall v: nat :: v < Pow2(5) ==> CrockfordDigit(v) != '_'
  {
    FiveAndSixBits();
    forall v: nat | v < Pow2(5)
      ensures CrockfordValue(CrockfordDigit(v)) == Some(v) && CrockfordDigit(v) != '_'
    {
      CrockfordReadsBack(v);
    }
    forall c: char | CrockfordValue(c).Some?
      ensures CrockfordValue(c).value < Pow2(5) && CrockfordDigit(CrockfordValue(c).value) == c
    {
      CrockfordPrintsBack(c);
    }
  }

  lemma CrockfordPrintsBack(c: char)
    requires CrockfordValue(c).Some?
    ensures CrockfordValue(c).value < 32 && CrockfordDigit(CrockfordValue(c).value) == c
  {
  }

  lemma Base64PrintsBack(c: char, last: char, next: char)
    requires Base64Value(c, last, next).Some?
    ensures var v := Base64Value(c, last, next).value; v < 64 && Base64Digit(v, last, next) == c
  {
  }

  lemma FiveAndSixBits()
    ensures Pow2(5) == 32 && Pow2(6) == 64
  {
    assert Pow2(3) == 8;
  }

  lemma CrockfordReadsBack(v: nat)
    requires v < 32
    ensures CrockfordValue(CrockfordDigit(v)) == Some(v) && CrockfordDigit(v) != '_'
  {
  }

  lemma Base64ReadsBack(v: nat, last: char, next: char)
    requires v < 64 && last != next && !IsBase62(last) && !IsBase62(next)
    ensures Base64Value(Base64Digit(v, last, next), last, next) == Some(v)
  {
  }

  predicate IsBase62(c: char) {
    'A' <= c <= 'Z' || 'a' <= c <= 'z' || '0' <= c <= '9'
  }

  lemma RawUrlIsValid()
    ensures RAW_URL.Valid()
  {
    hide Base64Digit, Base64Value;
    FiveAndSixBits();
    forall v: nat | v < Pow2(6)
      ensures UrlValue(UrlDigit(v)) == Some(v)
    {
      Base64ReadsBack(v, '_', '-');
    }
    forall c: char | UrlValue(c).Some?
      ensures UrlValue(c).value < Pow2(6) && UrlDigit(UrlValue(c).value) == c
    {
      Base64PrintsBack(c, '_', '-');
    }
  }

  lemma RawStdIsValid()
    ensures RAW_STD.Valid()
    ensures forall v: nat :: v < Pow2(6) ==> StdDigit(v) != '$'
  {
    FiveAndSixBits();
    hide Base64Value;
    forall v: nat | v < Pow2(6)
      ensures StdValue(StdDigit(v)) == Some(v) && StdDigit(v) != '$'
    {
      Base64ReadsBack(v, '/', '+');
    }
    forall c: char | StdValue(c).Some?
      ensures StdValue(c).value < Pow2(6) && StdDigit(StdValue(c).value) == c
    {
      Base64PrintsBack(c, '/', '+');
    }
  }

  const UPPER := "ABCDEFGHIJKLMNOPQRSTUVWXYZ"
  const LOWER := "abcdefghijklmnopqrstuvwxyz"
  const DECIMAL_DIGITS := "0123456789"

  lemma LettersInOrder(v: nat)
    ensures v < 26 ==> UPPER[v] == 'A' + v as char && LOWER[v] == 'a' + v as char
    ensures v < 10 ==> DECIMAL_DIGITS[v] == '0' + v as char
  {
  }

  /** Both base64 alphabets, of sections 4 and 5 of RFC 4648, in order. */
  lemma Base64Alphabets(v: nat)
    ensures v < 26 ==> StdDigit(v) == UrlDigit(v) == UPPER[v] && StdDigit(26 + v) == UrlDigit(26 + v) == LOWER[v]
    ensures v < 10 ==> StdDigit(52 + v) == UrlDigit(52 + v) == DECIMAL_DIGITS[v]
    ensures StdDigit(62) == '+' && StdDigit(63) == '/' && UrlDigit(62) == '-' && UrlDigit(63) == '_'
  {
    LettersInOrder(v);
  }

  /** The digit function spells out the configured alphabet. */
  lemma CrockfordAlphabet()
    ensures forall v :: 0 <= v < 32 ==> CrockfordDigit(v) == "0123456789ABCDEFGHJKMNPQRSTVWXYZ"[v]
  {
  }
}
