/**
  Minting a verification key: the display key "vk_<prefix>_<secret>" handed out once, and
  the PHC string that is stored. The parser is the reference the printer is proved against.
 */
module ApiKeys {
  import opened BaseN
  import opened Ids
  import opened Values

  const KEY_SCHEME := "vk"
  const ARGON_MEMORY_KIB: nat := 19456
  const ARGON_TIME: nat := 2
  const ARGON_THREADS: nat := 1
  const ARGON_VERSION: nat := 19
  const SALT_LENGTH: nat := 16
  const TAG_LENGTH: nat := 32
  const PREFIX_RAW_LENGTH: nat := 5
  const SECRET_RAW_LENGTH: nat := 24

  /** The key derivation: password, salt, time, memory, threads and tag length to tag. */
  type Argon = (string, seq<byte>, nat, nat, nat, nat) -> seq<byte>

  // ---- Printing ----

  function DisplayKey(prefixRaw: seq<byte>, secretRaw: seq<byte>): string {
    KEY_SCHEME + "_" + EncodeToString(CROCKFORD, prefixRaw) + "_" + EncodeToString(RAW_URL, secretRaw)
  }

  function Parameters(): string {
    "m=" + Decimal(ARGON_MEMORY_KIB) + ",t=" + Decimal(ARGON_TIME) + ",p=" + Decimal(ARGON_THREADS)
  }

  function PhcString(salt: seq<byte>, tag: seq<byte>): string {
    "$argon2id$v=" + Decimal(ARGON_VERSION) + "$" + Parameters()
      + "$" + EncodeToString(RAW_STD, salt) + "$" + EncodeToString(RAW_STD, tag)
  }

  function TagOf(argon: Argon, secret: string, salt: seq<byte>): seq<byte> {
    argon(secret, salt, ARGON_TIME, ARGON_MEMORY_KIB, ARGON_THREADS, TAG_LENGTH)
  }

  // ---- Parsing ----

  /** The text before the first separator and the text after it. */
  function Cut(s: string, separator: char): (r: Option<(string, string)>)
    ensures r.Some? ==> s == r.value.0 + [separator] + r.value.1 && separator !in r.value.0
    ensures r.None? ==> separator !in s
  {
    if s == "" then None
    else if s[0] == separator then Some(("", s[1..]))
    else match Cut(s[1..], separator)
      case None => None
      case Some((before, after)) => Some(([s[0]] + before, after))
  }

  /** Every piece between separators; one piece when there is none. */
  function Split(s: string, separator: char): seq<string>
    decreases |s|
  {
    match Cut(s, separator)
    case None => [s]
    case Some((before, after)) => [before] + Split(after, separator)
  }

  datatype KeyParts = KeyParts(prefix: string, secret: string)

  /** Splits at the first two underscores; whatever follows the second is the secret. */
  function ParseKey(key: string): Option<KeyParts> {
    match Cut(key, '_')
    case None => None
    case Some((scheme, rest)) =>
      if scheme != KEY_SCHEME then None
      else match Cut(rest, '_')
        case None => None
        case Some((prefix, secret)) => Some(KeyParts(prefix, secret))
  }

  function ParsePhc(phc: string): Option<(seq<byte>, seq<byte>)> {
    var parts := Split(phc, '$');
    if |parts| == 6 && parts[..4] == ["", "argon2id", "v=" + Decimal(ARGON_VERSION), Parameters()] then
      match (DecodeString(RAW_STD, parts[4]), DecodeString(RAW_STD, parts[5]))
      case (Some(salt), Some(tag)) => Some((salt, tag))
      case _ => None
    else None
  }

  /** What the service that checks presented keys does with a stored hash. */
  predicate Verifies(argon: Argon, key: string, phc: string) {
    match (ParseKey(key), ParsePhc(phc))
    case (Some(parts), Some((salt, tag))) => TagOf(argon, parts.secret, salt) == tag
    case _ => false
  }

  // ---- The parser inverts the printer ----

  lemma {:induction false} CutAtFirst(before: string, separator: char, after: string)
    requires separator !in before
    ensures Cut(before + [separator] + after, separator) == Some((before, after))
  {
    var s := before + [separator] + after;
    if before == "" {
      assert s[1..] == after;
    } else {
      assert s[1..] == before[1..] + [separator] + after;
      CutAtFirst(before[1..], separator, after);
      assert [before[0]] + before[1..] == before;
    }
  }

  lemma {:induction false} NothingToCut(s: string, separator: char)
    requires separator !in s
    ensures Cut(s, separator) == None
  {
    if s == "" {
    } else {
      NothingToCut(s[1..], separator);
    }
  }

  lemma SplitAtFirst(before: string, separator: char, after: string)
    requires separator !in before
    ensures Split(before + [separator] + after, separator) == [before] + Split(after, separator)
  {
    hide Cut;
    CutAtFirst(before, separator, after);
  }

  /** Holds even when the secret's text contains underscores: the prefix's alphabet has none. */
  lemma ParseDisplayKey(prefixRaw: seq<byte>, secretRaw: seq<byte>)
    ensures ParseKey(DisplayKey(prefixRaw, secretRaw))
         == Some(KeyParts(EncodeToString(CROCKFORD, prefixRaw), EncodeToString(RAW_URL, secretRaw)))
  {
    hide Cut, Groups, Digits;
    var prefix, secret := EncodeToString(CROCKFORD, prefixRaw), EncodeToString(RAW_URL, secretRaw);
    CrockfordIsValid();
    EncodingAvoids(CROCKFORD, prefixRaw, '_');
    assert DisplayKey(prefixRaw, secretRaw) == KEY_SCHEME + ['_'] + (prefix + ['_'] + secret);
    CutAtFirst(KEY_SCHEME, '_', prefix + ['_'] + secret);
    CutAtFirst(prefix, '_', secret);
  }

  /** So a display key determines the bytes it was printed from, whatever their lengths. */
  lemma DisplayKeyRecoversBytes(prefixRaw: seq<byte>, secretRaw: seq<byte>)
    ensures var parts := ParseKey(DisplayKey(prefixRaw, secretRaw));
            && parts.Some?
            && DecodeString(CROCKFORD, parts.value.prefix) == Some(prefixRaw)
            && DecodeString(RAW_URL, parts.value.secret) == Some(secretRaw)
  {
    hide DisplayKey, ParseKey, EncodeToString, DecodeString;
    ParseDisplayKey(prefixRaw, secretRaw);
    CrockfordIsValid();
    RawUrlIsValid();
    DecodeEncode(CROCKFORD, prefixRaw);
    DecodeEncode(RAW_URL, secretRaw);
  }

  lemma DisplayKeyInjective(prefix1: seq<byte>, secret1: seq<byte>, prefix2: seq<byte>, secret2: seq<byte>)
    requires DisplayKey(prefix1, secret1) == DisplayKey(prefix2, secret2)
    ensures prefix1 == prefix2 && secret1 == secret2
  {
    hide DisplayKey, ParseKey, EncodeToString, DecodeString;
    DisplayKeyRecoversBytes(prefix1, secret1);
    DisplayKeyRecoversBytes(prefix2, secret2);
  }

  /**
    Every text of 32 base64url digits is some key's secret, 32 underscores included, so the
    separator cannot be told apart by looking at the secret.
   */
  lemma EverySecretTextIsPrinted(prefixRaw: seq<byte>, text: string)
    requires |text| == 32 && DigitValues(RAW_URL, text).Some?
    ensures var raw := DecodeString(RAW_URL, text);
            && raw.Some? && |raw.value| == SECRET_RAW_LENGTH
            && ParseKey(DisplayKey(prefixRaw, raw.value)) == Some(KeyParts(EncodeToString(CROCKFORD, prefixRaw), text))
  {
    hide DisplayKey, ParseKey, EncodeToString, DecodeString;
    RawUrlIsValid();
    EncodeDecode(RAW_URL, text);
    ParseDisplayKey(prefixRaw, DecodeString(RAW_URL, text).value);
  }

  function Join(pieces: seq<string>, separator: char): string
    requires pieces != []
  {
    if |pieces| == 1 then pieces[0] else pieces[0] + [separator] + Join(pieces[1..], separator)
  }

  lemma {:induction false} SplitJoin(pieces: seq<string>, separator: char)
    requires pieces != [] && forall i :: 0 <= i < |pieces| ==> separator !in pieces[i]
    ensures Split(Join(pieces, separator), separator) == pieces
  {
    if |pieces| == 1 {
      NothingToCut(pieces[0], separator);
    } else {
      SplitJoin(pieces[1..], separator);
      SplitAtFirst(pieces[0], separator, Join(pieces[1..], separator));
      assert [pieces[0]] + pieces[1..] == pieces;
    }
  }

  lemma FixedPiecesAvoidDollar()
    ensures '$' !in "v=" + Decimal(ARGON_VERSION) && '$' !in Parameters()
  {
    hide Decimal;
  }

  lemma PhcIsJoined(version: string, parameters: string, salt: string, tag: string)
    ensures "$argon2id$" + version + "$" + parameters + "$" + salt + "$" + tag
         == Join(["", "argon2id", version, parameters, salt, tag], '$')
  {
    var pieces := ["", "argon2id", version, parameters, salt, tag];
    assert Join(pieces[5..], '$') == tag;
    assert pieces[4..][1..] == pieces[5..] && pieces[3..][1..] == pieces[4..];
    assert pieces[2..][1..] == pieces[3..] && pieces[1..][1..] == pieces[2..];
    assert Join(pieces[4..], '$') == salt + "$" + tag;
    assert Join(pieces[3..], '$') == parameters + "$" + Join(pieces[4..], '$');
    assert Join(pieces[2..], '$') == version + "$" + Join(pieces[3..], '$');
    assert Join(pieces[1..], '$') == "argon2id" + "$" + Join(pieces[2..], '$');
    assert Join(pieces, '$') == "" + "$" + Join(pieces[1..], '$');
    assert "$argon2id$" == "" + "$" + "argon2id" + "$";
  }

  /** Splitting a PHC string at every dollar sign gives six pieces, the last two salt and tag. */
  lemma ParsePhcString(salt: seq<byte>, tag: seq<byte>)
    ensures ParsePhc(PhcString(salt, tag)) == Some((salt, tag))
  {
    hide EncodeToString, DecodeString, Split, Join, Decimal, Parameters;
    var version, parameters := "v=" + Decimal(ARGON_VERSION), Parameters();
    var a, b := EncodeToString(RAW_STD, salt), EncodeToString(RAW_STD, tag);
    var pieces := ["", "argon2id", version, parameters, a, b];
    PhcIsJoined(version, parameters, a, b);
    assert "$argon2id$v=" + Decimal(ARGON_VERSION) == "$argon2id$" + version;
    FixedPiecesAvoidDollar();
    RawStdIsValid();
    EncodingAvoids(RAW_STD, salt, '$');
    EncodingAvoids(RAW_STD, tag, '$');
    SplitJoin(pieces, '$');
    DecodeEncode(RAW_STD, salt);
    DecodeEncode(RAW_STD, tag);
  }

  lemma PinnedNumbers()
    ensures Decimal(19) == "19" && Decimal(2) == "2" && Decimal(1) == "1" && Decimal(19456) == "19456"
  {
    assert Decimal(194) == "194";
  }

  /** The printed parameters are the pinned text. */
  lemma PhcStartsWithPinnedText(salt: seq<byte>, tag: seq<byte>)
    ensures "$argon2id$v=19$m=19456,t=2,p=1$" <= PhcString(salt, tag)
  {
    hide EncodeToString, Decimal;
    PinnedNumbers();
    assert Parameters() == "m=19456,t=2,p=1";
    assert "$argon2id$v=" + "19" + "$" + "m=19456,t=2,p=1" + "$" == "$argon2id$v=19$m=19456,t=2,p=1$";
  }

  // ---- Minting ----

  datatype Stage = PrefixStage | SecretStage | SaltStage

  datatype Minted = Minted(displayKey: string, prefix: string, phcHash: string) | Exhausted(stage: Stage)

  const SECRET_END := PREFIX_RAW_LENGTH + SECRET_RAW_LENGTH
  const SALT_END := SECRET_END + SALT_LENGTH

  /** What a mint prints when the randomness source still holds these bytes. */
  function MintFrom(argon: Argon, random: seq<byte>): Minted {
    if |random| < PREFIX_RAW_LENGTH then Exhausted(PrefixStage)
    else if |random| < SECRET_END then Exhausted(SecretStage)
    else if |random| < SALT_END then Exhausted(SaltStage)
    else
      var prefixRaw, secretRaw := random[..PREFIX_RAW_LENGTH], random[PREFIX_RAW_LENGTH..SECRET_END];
      var salt := random[SECRET_END..SALT_END];
      Minted.Minted(DisplayKey(prefixRaw, secretRaw), EncodeToString(CROCKFORD, prefixRaw),
                    PhcString(salt, TagOf(argon, EncodeToString(RAW_URL, secretRaw), salt)))
  }

  /** A randomness source that may run out. */
  class Reader {
    var remaining: seq<byte>

    constructor (bytes: seq<byte>)
      ensures remaining == bytes
    {
      remaining := bytes;
    }

    /** Fills the whole buffer or fails, having taken whatever was left. */
    method ReadFull(buffer: array<byte>) returns (ok: bool)
      modifies this, buffer
      ensures ok <==> |old(remaining)| >= buffer.Length
      ensures ok ==> buffer[..] == old(remaining)[..buffer.Length] && remaining == old(remaining)[buffer.Length..]
      ensures !ok ==> remaining == []
    {
      for i := 0 to buffer.Length
        invariant i <= |old(remaining)| && remaining == old(remaining)[i..]
        invariant buffer[..i] == old(remaining)[..i]
      {
        if remaining == [] {
          return false;
        }
        buffer[i] := remaining[0];
        remaining := remaining[1..];
      }
      assert buffer[..] == buffer[..buffer.Length];
      return true;
    }
  }

  /** On a failed read every string comes back empty. */
  method Mint(argon: Argon, r: Reader)
    returns (displayKey: string, prefix: string, phcHash: string, failure: Option<Stage>)
    modifies r
    ensures match MintFrom(argon, old(r.remaining))
            case Exhausted(stage) =>
              displayKey == prefix == phcHash == "" && failure == Some(stage) && r.remaining == []
            case Minted(k, p, h) =>
              && displayKey == k && prefix == p && phcHash == h && failure == None
              && |old(r.remaining)| >= 45 && r.remaining == old(r.remaining)[45..]
  {
    hide EncodeToString, Decimal, Parameters;
    var prefixRaw := new byte[PREFIX_RAW_LENGTH];
    var filled := r.ReadFull(prefixRaw);
    if !filled {
      return "", "", "", Some(PrefixStage);
    }
    prefix := EncodeToString(CROCKFORD, prefixRaw[..]);

    var secretRaw := new byte[SECRET_RAW_LENGTH];
    filled := r.ReadFull(secretRaw);
    if !filled {
      return "", "", "", Some(SecretStage);
    }
    var secret := EncodeToString(RAW_URL, secretRaw[..]);

    var salt := new byte[SALT_LENGTH];
    filled := r.ReadFull(salt);
    if !filled {
      return "", "", "", Some(SaltStage);
    }
    var tag := argon(secret, salt[..], ARGON_TIME, ARGON_MEMORY_KIB, ARGON_THREADS, TAG_LENGTH);
    assert secretRaw[..] == old(r.remaining)[PREFIX_RAW_LENGTH..SECRET_END];
    assert salt[..] == old(r.remaining)[SECRET_END..SALT_END];
    phcHash := "$argon2id$v=" + Decimal(ARGON_VERSION) + "$" + Parameters()
      + "$" + EncodeToString(RAW_STD, salt[..]) + "$" + EncodeToString(RAW_STD, tag);
    return KEY_SCHEME + "_" + prefix + "_" + secret, prefix, phcHash, None;
  }

  /** Minting fails exactly when fewer than 45 random bytes are left, at the read that runs out. */
  lemma MintFailsIff(argon: Argon, random: seq<byte>)
    ensures MintFrom(argon, random).Exhausted? <==> |random| < 45
    ensures MintFrom(argon, random) == Exhausted(PrefixStage) <==> |random| < 5
    ensures MintFrom(argon, random) == Exhausted(SecretStage) <==> 5 <= |random| < 29
    ensures MintFrom(argon, random) == Exhausted(SaltStage) <==> 29 <= |random| < 45
  {
  }

  /** The lengths the session service requires: a prefix of 8, a secret of 32, a key of 44. */
  lemma MintedLengths(argon: Argon, random: seq<byte>)
    requires |random| >= SALT_END
    ensures var m := MintFrom(argon, random);
            && |m.prefix| == 8 && |m.displayKey| == 44
            && ParseKey(m.displayKey).Some?
            && ParseKey(m.displayKey).value.prefix == m.prefix && |ParseKey(m.displayKey).value.secret| == 32
  {
    hide PhcString, ParseKey;
    var prefixRaw, secretRaw := random[..PREFIX_RAW_LENGTH], random[PREFIX_RAW_LENGTH..SECRET_END];
    ParseDisplayKey(prefixRaw, secretRaw);
    GroupsLength(prefixRaw, 5);
    GroupsLength(secretRaw, 6);
  }

  /**
    Which bytes go where, read back through the parsers: the first 5 are the prefix, the
    next 24 the secret, the next 16 the salt, and the tag is derived from the secret's text
    and that salt with the pinned parameters.
   */
  lemma MintedBytes(argon: Argon, random: seq<byte>)
    requires |random| >= 45
    ensures var m := MintFrom(argon, random);
            && m.Minted?
            && DecodeString(CROCKFORD, m.prefix) == Some(random[..5])
            && ParseKey(m.displayKey).Some? && ParsePhc(m.phcHash).Some?
            && var parts, hash := ParseKey(m.displayKey).value, ParsePhc(m.phcHash).value;
               && parts.prefix == m.prefix
               && DecodeString(RAW_URL, parts.secret) == Some(random[5..29])
               && hash == (random[29..45], argon(parts.secret, random[29..45], 2, 19456, 1, 32))
  {
    hide DisplayKey, PhcString, ParseKey, ParsePhc, EncodeToString, DecodeString;
    var prefixRaw, secretRaw, salt := random[..5], random[5..29], random[29..45];
    ParseDisplayKey(prefixRaw, secretRaw);
    DisplayKeyRecoversBytes(prefixRaw, secretRaw);
    ParsePhcString(salt, TagOf(argon, EncodeToString(RAW_URL, secretRaw), salt));
  }

  /** A minted key verifies against the hash it was minted with. */
  lemma MintedKeyVerifies(argon: Argon, random: seq<byte>)
    requires |random| >= SALT_END
    ensures var m := MintFrom(argon, random);
            Verifies(argon, m.displayKey, m.phcHash)
  {
    hide DisplayKey, PhcString, ParseKey, ParsePhc, EncodeToString;
    var salt := random[SECRET_END..SALT_END];
    var secretRaw := random[PREFIX_RAW_LENGTH..SECRET_END];
    ParseDisplayKey(random[..PREFIX_RAW_LENGTH], secretRaw);
    ParsePhcString(salt, TagOf(argon, EncodeToString(RAW_URL, secretRaw), salt));
  }

  /** Equal keys come from equal randomness: no two draws of prefix and secret share a key. */
  lemma MintIsInjective(argon: Argon, random1: seq<byte>, random2: seq<byte>)
    requires |random1| >= SALT_END && |random2| >= SALT_END
    requires MintFrom(argon, random1).displayKey == MintFrom(argon, random2).displayKey
    ensures random1[..SECRET_END] == random2[..SECRET_END]
  {
    hide DisplayKey, PhcString, EncodeToString;
    DisplayKeyInjective(random1[..PREFIX_RAW_LENGTH], random1[PREFIX_RAW_LENGTH..SECRET_END],
                        random2[..PREFIX_RAW_LENGTH], random2[PREFIX_RAW_LENGTH..SECRET_END]);
    assert random1[..SECRET_END] == random1[..PREFIX_RAW_LENGTH] + random1[PREFIX_RAW_LENGTH..SECRET_END];
    assert random2[..SECRET_END] == random2[..PREFIX_RAW_LENGTH] + random2[PREFIX_RAW_LENGTH..SECRET_END];
  }
}
