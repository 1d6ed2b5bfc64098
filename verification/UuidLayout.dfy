/** `deterministicUuid` of the three seeds: a 32-byte digest laid out as a UUID. */
module UuidLayout {

  type Byte = bv8

  const HEX := "0123456789abcdef"

  function HexOf(b: Byte): string {
    [HEX[(b >> 4) as int], HEX[(b & 0x0f) as int]]
  }

  /** `toString("hex")` */
  function Encode(bytes: seq<Byte>): string {
    if bytes == [] then "" else HexOf(bytes[0]) + Encode(bytes[1..])
  }

  function Nibble(c: char): Byte {
    if '0' <= c <= '9' then (c - '0') as Byte else if 'a' <= c <= 'f' then (c - 'a') as Byte + 10 else 0
  }

  function Join(high: char, low: char): Byte {
    (Nibble(high) << 4) | Nibble(low)
  }

  /** `Buffer.from(text, "hex")`, for an even number of hexadecimal digits. */
  function Decode(text: string): seq<Byte> {
    if |text| < 2 then [] else [Join(text[0], text[1])] + Decode(text[2..])
  }

  /** Version 5 and the variant of RFC 9562, sections 4.1 and 4.2. */
  function Versioned(b: Byte): Byte {
    (b & 0x0f) | 0x50
  }

  function Varianted(b: Byte): Byte {
    (b & 0x3f) | 0x80
  }

  function Forced(bytes: seq<Byte>): seq<Byte>
    requires |bytes| == 16
  {
    bytes[6 := Versioned(bytes[6])][8 := Varianted(bytes[8])]
  }

  function Dashed(hex: string): string
    requires |hex| == 32
  {
    hex[..8] + "-" + hex[8..12] + "-" + hex[12..16] + "-" + hex[16..20] + "-" + hex[20..]
  }

  function Uuid(bytes: seq<Byte>): string
    requires |bytes| == 16
  {
    EncodedLength(Forced(bytes));
    Dashed(Encode(Forced(bytes)))
  }

  /** In place, as the seeds do it, on a buffer of their own. */
  method DeterministicUuid(digest: seq<Byte>) returns (text: string)
    requires |digest| == 32
    ensures text == Uuid(digest[..16])
  {
    var bytes := new Byte[16](i requires 0 <= i < 16 => digest[i]);
    assert bytes[..] == digest[..16];
    bytes[6] := (bytes[6] & 0x0f) | 0x50;
    bytes[8] := (bytes[8] & 0x3f) | 0x80;
    assert bytes[..] == Forced(digest[..16]);
    EncodedLength(bytes[..]);
    text := Dashed(Encode(bytes[..]));
  }

  /** The form that goes through the hexadecimal digest. */
  method DeterministicUuidFromHex(digest: seq<Byte>) returns (text: string)
    requires |digest| == 32
    ensures text == Uuid(digest[..16])
  {
    PrefixDecoded(digest);
    var decoded := Decode(Encode(digest)[..32]);
    var bytes := new Byte[16](i requires 0 <= i < 16 => decoded[i]);
    assert bytes[..] == digest[..16];
    bytes[6] := (bytes[6] & 0x0f) | 0x50;
    bytes[8] := (bytes[8] & 0x3f) | 0x80;
    assert bytes[..] == Forced(digest[..16]);
    EncodedLength(bytes[..]);
    text := Dashed(Encode(bytes[..]));
  }

  // ---------------------------------------------------------------------------------------
  // Encoding and decoding
  // ---------------------------------------------------------------------------------------

  lemma {:induction false} EncodedLength(bytes: seq<Byte>)
    ensures |Encode(bytes)| == 2 * |bytes|
  {
    if bytes != [] {
      EncodedLength(bytes[1..]);
    }
  }

  lemma NibbleOfHex(n: Byte)
    requires n < 16
    ensures Nibble(HEX[n as int]) == n
  {
  }

  lemma ByteDecoded(b: Byte)
    ensures Join(HexOf(b)[0], HexOf(b)[1]) == b
  {
    NibbleOfHex(b >> 4);
    NibbleOfHex(b & 0x0f);
    assert ((b >> 4) << 4) | (b & 0x0f) == b;
  }

  lemma DecodeStep(b: Byte, rest: string)
    ensures Decode(HexOf(b) + rest) == [b] + Decode(rest)
  {
    var text := HexOf(b) + rest;
    assert text[0] == HexOf(b)[0] && text[1] == HexOf(b)[1] && text[2..] == rest;
    ByteDecoded(b);
  }

  lemma {:induction false} Decoded(bytes: seq<Byte>)
    ensures Decode(Encode(bytes)) == bytes
  {
    if bytes != [] {
      Decoded(bytes[1..]);
      DecodeStep(bytes[0], Encode(bytes[1..]));
      assert [bytes[0]] + bytes[1..] == bytes;
    }
  }

  lemma {:induction false} EncodedParts(a: seq<Byte>, b: seq<Byte>)
    ensures Encode(a + b) == Encode(a) + Encode(b)
  {
    if a == [] {
      assert a + b == b;
    } else {
      assert (a + b)[1..] == a[1..] + b;
      EncodedParts(a[1..], b);
    }
  }

  /** The first 32 digits of the digest stand for its first 16 bytes. */
  lemma PrefixDecoded(digest: seq<Byte>)
    requires |digest| == 32
    ensures |Encode(digest)| == 64 && Decode(Encode(digest)[..32]) == digest[..16]
  {
    assert digest == digest[..16] + digest[16..];
    EncodedParts(digest[..16], digest[16..]);
    EncodedLength(digest[..16]);
    EncodedLength(digest[16..]);
    assert Encode(digest)[..32] == Encode(digest[..16]);
    Decoded(digest[..16]);
  }

  // ---------------------------------------------------------------------------------------
  // The pattern
  // ---------------------------------------------------------------------------------------

  predicate IsHex(c: char) {
    '0' <= c <= '9' || 'a' <= c <= 'f'
  }

  predicate IsDash(i: int) {
    i == 8 || i == 13 || i == 18 || i == 23
  }

  /** `UUID_PATTERN`, in lower case. */
  predicate MatchesPattern(text: string) {
    && |text| == 36
    && (forall i | 0 <= i < 36 :: if IsDash(i) then text[i] == '-' else IsHex(text[i]))
    && '1' <= text[14] <= '8' && text[19] in "89ab"
  }

  lemma {:induction false} DigitsAreHex(bytes: seq<Byte>, k: nat)
    requires k < |bytes|
    ensures |Encode(bytes)| == 2 * |bytes|
    ensures Encode(bytes)[2 * k..2 * k + 2] == HexOf(bytes[k])
    ensures IsHex(Encode(bytes)[2 * k]) && IsHex(Encode(bytes)[2 * k + 1])
  {
    EncodedLength(bytes);
    assert bytes == bytes[..k] + bytes[k..];
    EncodedParts(bytes[..k], bytes[k..]);
    EncodedLength(bytes[..k]);
    EncodedLength(bytes[k..][1..]);
    assert Encode(bytes[k..]) == HexOf(bytes[k]) + Encode(bytes[k..][1..]);
    assert Encode(bytes)[2 * k..2 * k + 2] == HexOf(bytes[k]);
    assert Encode(bytes)[2 * k] == HexOf(bytes[k])[0] && Encode(bytes)[2 * k + 1] == HexOf(bytes[k])[1];
  }

  lemma VersionDigit(b: Byte)
    ensures HexOf(Versioned(b))[0] == '5'
  {
    assert Versioned(b) >> 4 == 5;
  }

  lemma VariantDigit(b: Byte)
    ensures HexOf(Varianted(b))[0] in "89ab"
  {
    assert 8 <= Varianted(b) >> 4 <= 11;
    var n := (Varianted(b) >> 4) as int;
    assert HexOf(Varianted(b))[0] == HEX[n] && 8 <= n <= 11;
    assert "89ab"[n - 8] == HEX[n];
  }

  /** Where the i-th character of the text comes from in the digits. */
  function Source(i: nat): nat {
    if i < 8 then i else if i < 13 then i - 1 else if i < 18 then i - 2 else if i < 23 then i - 3 else i - 4
  }

  lemma DashedAt(hex: string, i: nat)
    requires |hex| == 32 && i < 36 && !IsDash(i)
    ensures |Dashed(hex)| == 36 && Source(i) < 32 && Dashed(hex)[i] == hex[Source(i)]
  {
  }

  lemma DashesAt(hex: string)
    requires |hex| == 32
    ensures |Dashed(hex)| == 36
    ensures Dashed(hex)[8] == '-' && Dashed(hex)[13] == '-' && Dashed(hex)[18] == '-' && Dashed(hex)[23] == '-'
  {
  }

  lemma DashedInjective(a: string, b: string)
    requires |a| == 32 && |b| == 32 && Dashed(a) == Dashed(b)
    ensures a == b
  {
    forall k | 0 <= k < 32 ensures a[k] == b[k] {
      var i := if k < 8 then k else if k < 12 then k + 1 else if k < 16 then k + 2 else if k < 20 then k + 3 else k + 4;
      DashedAt(a, i);
      DashedAt(b, i);
    }
  }

  lemma HexDigitOf(bytes: seq<Byte>, k: nat)
    requires |bytes| == 16 && k < 32
    ensures |Encode(bytes)| == 32 && IsHex(Encode(bytes)[k])
  {
    DigitsAreHex(bytes, k / 2);
  }

  /** Every text it lays out matches the pattern, with version digit 5. */
  lemma UuidMatchesPattern(bytes: seq<Byte>)
    requires |bytes| == 16
    ensures MatchesPattern(Uuid(bytes)) && Uuid(bytes)[14] == '5'
  {
    var forced := Forced(bytes);
    EncodedLength(forced);
    var hex := Encode(forced);
    DashesAt(hex);
    forall i | 0 <= i < 36 && !IsDash(i) ensures IsHex(Uuid(bytes)[i]) {
      DashedAt(hex, i);
      HexDigitOf(forced, Source(i));
    }
    DashedAt(hex, 14);
    DashedAt(hex, 19);
    DigitsAreHex(forced, 6);
    DigitsAreHex(forced, 8);
    assert hex[12] == hex[12..14][0] && hex[16] == hex[16..18][0];
    VersionDigit(bytes[6]);
    VariantDigit(bytes[8]);
  }

  /** Equal but for the four bits of the version and the two of the variant. */
  predicate AgreeButForForced(a: seq<Byte>, b: seq<Byte>)
    requires |a| == 16 && |b| == 16
  {
    forall k | 0 <= k < 16 :: AgreeAt(a, b, k)
  }

  lemma VersionedSame(a: Byte, b: Byte)
    ensures Versioned(a) == Versioned(b) <==> a & 0x0f == b & 0x0f
    ensures Varianted(a) == Varianted(b) <==> a & 0x3f == b & 0x3f
  {
    assert Versioned(a) & 0x0f == a & 0x0f && Versioned(b) & 0x0f == b & 0x0f;
    assert Varianted(a) & 0x3f == a & 0x3f && Varianted(b) & 0x3f == b & 0x3f;
  }

  predicate AgreeAt(a: seq<Byte>, b: seq<Byte>, k: nat)
    requires |a| == 16 && |b| == 16 && k < 16
  {
    if k == 6 then a[6] & 0x0f == b[6] & 0x0f else if k == 8 then a[8] & 0x3f == b[8] & 0x3f else a[k] == b[k]
  }

  lemma ForcedAt(a: seq<Byte>, b: seq<Byte>, k: nat)
    requires |a| == 16 && |b| == 16 && k < 16
    ensures Forced(a)[k] == Forced(b)[k] <==> AgreeAt(a, b, k)
  {
    VersionedSame(a[k], b[k]);
  }

  lemma ForcedSame(a: seq<Byte>, b: seq<Byte>)
    requires |a| == 16 && |b| == 16
    ensures Forced(a) == Forced(b) <==> AgreeButForForced(a, b)
  {
    forall k | 0 <= k < 16 ensures Forced(a)[k] == Forced(b)[k] <==> AgreeAt(a, b, k) {
      ForcedAt(a, b, k);
    }
    SameBytes(Forced(a), Forced(b));
  }

  lemma SameBytes(a: seq<Byte>, b: seq<Byte>)
    requires |a| == |b|
    ensures a == b <==> forall k | 0 <= k < |a| :: a[k] == b[k]
  {
  }

  /** Two digests give one UUID exactly if their first 16 bytes agree outside the six forced bits. */
  lemma UuidsCollideExactly(a: seq<Byte>, b: seq<Byte>)
    requires |a| == 16 && |b| == 16
    ensures Uuid(a) == Uuid(b) <==> AgreeButForForced(a, b)
  {
    ForcedSame(a, b);
    if Uuid(a) == Uuid(b) {
      EncodedLength(Forced(a));
      EncodedLength(Forced(b));
      DashedInjective(Encode(Forced(a)), Encode(Forced(b)));
      Decoded(Forced(a));
      Decoded(Forced(b));
    }
  }

  // ---------------------------------------------------------------------------------------
  // The digits
  // ---------------------------------------------------------------------------------------

  /** The number a hexadecimal digit stands for. */
  function DigitValue(c: char): int
    requires IsHex(c)
  {
    if c <= '9' then c as int - 48 else c as int - 87
  }

  /** Where the first digit of the k-th byte stands in the text. */
  function DigitAt(k: nat): nat {
    if k < 4 then 2 * k
    else if k < 6 then 2 * k + 1
    else if k < 8 then 2 * k + 2
    else if k < 10 then 2 * k + 3
    else 2 * k + 4
  }

  /** The number the k-th byte has in the UUID of a digest: version 5 and variant 2 in their bits. */
  function LaidOut(b: int, k: nat): int {
    if k == 6 then 80 + b % 16 else if k == 8 then 128 + b % 64 else b
  }

  lemma HexOfValue(b: Byte)
    ensures IsHex(HexOf(b)[0]) && IsHex(HexOf(b)[1])
    ensures 16 * DigitValue(HexOf(b)[0]) + DigitValue(HexOf(b)[1]) == b as int
  {
    HexValue(b >> 4);
    HexValue(b & 0x0f);
    HighLow(b);
  }

  lemma HexValue(n: Byte)
    requires n < 16
    ensures IsHex(HEX[n as int]) && DigitValue(HEX[n as int]) == n as int
  {
  }

  lemma HighLow(b: Byte)
    ensures (b >> 4) as int == b as int / 16 && (b & 0x0f) as int == b as int % 16
  {
    assert b >> 4 == b / 16 && b & 0x0f == b % 16;
  }

  lemma ForcedValue(b: Byte)
    ensures Versioned(b) as int == 80 + b as int % 16 && Varianted(b) as int == 128 + b as int % 64
  {
    assert Versioned(b) == 80 + b % 16;
    assert Varianted(b) == 128 + b % 64;
  }

  lemma LaidOutByte(bytes: seq<Byte>, k: nat)
    requires |bytes| == 16 && k < 16
    ensures Forced(bytes)[k] as int == LaidOut(bytes[k] as int, k)
  {
    ForcedValue(bytes[k]);
  }

  lemma DigitsAt(hex: string, k: nat)
    requires |hex| == 32 && k < 16
    ensures DigitAt(k) + 1 < |Dashed(hex)|
    ensures Dashed(hex)[DigitAt(k)] == hex[2 * k] && Dashed(hex)[DigitAt(k) + 1] == hex[2 * k + 1]
  {
    DashedAt(hex, DigitAt(k));
    DashedAt(hex, DigitAt(k) + 1);
  }

  /**
   The text of a digest: dashes after 8, 12, 16 and 20 digits, and between them the bytes of the digest
   in order, the more significant digit first, with four bits of byte 6 and two of byte 8 replaced.
   */
  lemma UuidShowsTheDigest(bytes: seq<Byte>, k: nat)
    requires |bytes| == 16 && k < 16
    ensures |Uuid(bytes)| == 36 && DigitAt(k) < 35
    ensures
      var high, low := Uuid(bytes)[DigitAt(k)], Uuid(bytes)[DigitAt(k) + 1];
      IsHex(high) && IsHex(low) && 16 * DigitValue(high) + DigitValue(low) == LaidOut(bytes[k] as int, k)
    ensures forall i | i in {8, 13, 18, 23} :: Uuid(bytes)[i] == '-'
  {
    var forced := Forced(bytes);
    EncodedLength(forced);
    var hex := Encode(forced);
    DashesAt(hex);
    DigitsAt(hex, k);
    DigitsAreHex(forced, k);
    assert hex[2 * k] == hex[2 * k..2 * k + 2][0] && hex[2 * k + 1] == hex[2 * k..2 * k + 2][1];
    HexOfValue(forced[k]);
    LaidOutByte(bytes, k);
  }
}
