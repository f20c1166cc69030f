/**
 * Scalar building blocks shared by every component: bytes, 128-bit identifiers
 * in the textual form `github.com/google/uuid` reads and writes, instants and
 * durations in whole seconds, and Go's truncating integer division.
 */
module Ids {
  import opened Wrappers

  newtype byte = x: int | 0 <= x < 256

  /** A UUID is 16 bytes; the nil UUID is all zeros. */
  type Uuid = s: seq<byte> | |s| == 16 witness [0, 0, 0, 0, 0, 0, 0, 0, 0, 0, 0, 0, 0, 0, 0, 0]

  const NilUuid: Uuid := [0, 0, 0, 0, 0, 0, 0, 0, 0, 0, 0, 0, 0, 0, 0, 0]

  /** Instants are whole seconds; 0 stands for Go's zero `time.Time`. */
  type Time = int
  const ZeroTime: Time := 0

  /** Durations are whole seconds. */
  type Duration = int

  /**
   * Go's `/` on integers truncates toward zero; Dafny's `/` is Euclidean.
   * The two agree for a non-negative dividend and a positive divisor;
   * `GoDivTruncates` gives the other cases.
   */
  function GoDiv(a: int, b: int): (q: int)
    requires b != 0
    ensures a >= 0 && b > 0 ==> q == a / b
  {
    if a >= 0 then
      if b > 0 then a / b else -(a / -b)
    else
      if b > 0 then -((-a) / b) else (-a) / (-b)
  }

  /**
   * The quotient is non-negative when the operands agree in sign; the
   * remainder takes the sign of the dividend and is smaller than the divisor
   * in magnitude.
   */
  lemma GoDivTruncates(a: int, b: int)
    requires b != 0
    ensures (a >= 0) == (b > 0) || a == 0 ==> GoDiv(a, b) >= 0
    ensures a >= 0 ==> 0 <= a - GoDiv(a, b) * b < (if b < 0 then -b else b)
    ensures a < 0 ==> 0 <= GoDiv(a, b) * b - a < (if b < 0 then -b else b)
  {
    var n, d := if a >= 0 then a else -a, if b > 0 then b else -b;
    var k := n / d;
    EuclideanQuotient(n, d);
    if a >= 0 && b < 0 {
      assert GoDiv(a, b) == -k;
      ProductOfNegations(k, d);
    } else if a < 0 && b > 0 {
      assert GoDiv(a, b) == -k;
      NegateFactor(k, d);
    } else if a < 0 {
      assert GoDiv(a, b) == k;
      NegateFactor(k, d);
    }
  }

  /** Dafny's quotient of naturals: non-negative, with remainder below the divisor. */
  lemma EuclideanQuotient(n: int, d: int)
    requires n >= 0 && d > 0
    ensures n / d >= 0 && 0 <= n - (n / d) * d < d
  {
  }

  /** Negating both factors leaves the product unchanged. */
  lemma ProductOfNegations(x: int, y: int)
    ensures (-x) * (-y) == x * y
  {
    NegateFactor(x, -y);
    NegateFactor(x, y);
  }

  /** Negating one factor negates the product. */
  lemma NegateFactor(x: int, y: int)
    ensures (-x) * y == -(x * y) && x * (-y) == -(x * y)
  {
  }

  // ---------------------------------------------------------------- hex digits

  const HexDigits: string := "0123456789abcdef"

  /** The value of one hexadecimal digit, either case, as `xvalues` in the uuid package. */
  function HexValue(c: char): (v: Option<int>)
    ensures v.Some? ==> 0 <= v.value < 16
    ensures v.Some? <==> ('0' <= c <= '9' || 'a' <= c <= 'f' || 'A' <= c <= 'F')
  {
    if '0' <= c <= '9' then Some(c as int - '0' as int)
    else if 'a' <= c <= 'f' then Some(c as int - 'a' as int + 10)
    else if 'A' <= c <= 'F' then Some(c as int - 'A' as int + 10)
    else None
  }

  /** Two hexadecimal digits make one byte (`xtob`). */
  function HexByte(hi: char, lo: char): (b: Option<byte>)
    ensures b.Some? <==> HexValue(hi).Some? && HexValue(lo).Some?
  {
    match (HexValue(hi), HexValue(lo))
    case (Some(h), Some(l)) => Some((h * 16 + l) as byte)
    case _ => None
  }

  function ByteHex(b: byte): (s: string)
    ensures |s| == 2
  {
    [HexDigits[b as int / 16], HexDigits[b as int % 16]]
  }

  lemma HexByteOfByteHex(b: byte)
    ensures HexByte(ByteHex(b)[0], ByteHex(b)[1]) == Some(b)
  {
    HexDigitValue(b as int / 16);
    HexDigitValue(b as int % 16);
  }

  /** Each character of `HexDigits` reads back as its own position. */
  lemma HexDigitValue(d: int)
    requires 0 <= d < 16
    ensures HexValue(HexDigits[d]) == Some(d)
  {
    if d < 10 {
      assert HexDigits[..10] == "0123456789";
      assert HexDigits[d] == HexDigits[..10][d];
    } else {
      assert HexDigits[10..] == "abcdef";
      assert HexDigits[d] == HexDigits[10..][d - 10];
    }
  }

  // ---------------------------------------------------------------- uuid text

  /** Which of the 16 bytes the character at position `k` of the dashed form shows. */
  function PairIndex(k: nat): (p: nat)
    requires k < 36
    ensures p < 16
  {
    if k < 8 then k / 2
    else if k < 13 then 4 + (k - 9) / 2
    else if k < 18 then 6 + (k - 14) / 2
    else if k < 23 then 8 + (k - 19) / 2
    else 10 + (k - 24) / 2
  }

  predicate IsDashPosition(k: int) { k == 8 || k == 13 || k == 18 || k == 23 }

  /** `UUID.String`: 8-4-4-4-12 lower-case hexadecimal groups. */
  function UuidString(u: Uuid): (s: string)
    ensures |s| == 36
    ensures s[8] == '-' && s[13] == '-' && s[18] == '-' && s[23] == '-'
  {
    seq(36, k requires 0 <= k < 36 =>
      if IsDashPosition(k) then '-'
      else ByteHex(u[PairIndex(k)])[(k - PairOffsets[PairIndex(k)]) % 2])
  }

  /** Offsets of the 16 digit pairs inside the 36-character form. */
  const PairOffsets: seq<nat> := [0, 2, 4, 6, 9, 11, 14, 16, 19, 21, 24, 26, 28, 30, 32, 34]

  /** Decodes the digit pairs of a dashed form from pair `i` on; `acc` holds the bytes so far. */
  function DecodePairs(s: string, i: nat, acc: seq<byte>): (r: Option<seq<byte>>)
    requires |s| >= 36 && i <= 16 && |acc| == i
    ensures r.Some? ==> |r.value| == 16 && r.value[..i] == acc
    decreases 16 - i
  {
    if i == 16 then Some(acc)
    else
      match HexByte(s[PairOffsets[i]], s[PairOffsets[i] + 1])
      case None => None
      case Some(b) =>
        var r := DecodePairs(s, i + 1, acc + [b]);
        assert r.Some? ==> r.value[..i] == (r.value[..i + 1])[..i];
        r
  }

  /** Decodes 32 undashed hexadecimal digits from pair `i` on. */
  function DecodeCompact(s: string, i: nat, acc: seq<byte>): (r: Option<seq<byte>>)
    requires |s| == 32 && i <= 16 && |acc| == i
    ensures r.Some? ==> |r.value| == 16
    decreases 16 - i
  {
    if i == 16 then Some(acc)
    else
      match HexByte(s[2 * i], s[2 * i + 1])
      case None => None
      case Some(b) => DecodeCompact(s, i + 1, acc + [b])
  }

  function Lower(c: char): char
  {
    if 'A' <= c <= 'Z' then (c as int + 32) as char else c
  }

  /** `strings.EqualFold` restricted to ASCII letters. */
  predicate EqualFoldAscii(a: string, b: string)
  {
    |a| == |b| && forall i :: 0 <= i < |a| ==> Lower(a[i]) == Lower(b[i])
  }

  /**
   * `uuid.Parse`: the 36-character dashed form, the same wrapped in any two
   * characters (the braces are not checked), the same after a `urn:uuid:`
   * prefix in any case, or 32 bare hexadecimal digits.
   */
  function ParseUuid(s: string): (r: Option<Uuid>)
    ensures r.Some? ==> |s| in {32, 36, 38, 45}
  {
    if |s| == 32 then
      match DecodeCompact(s, 0, [])
      case None => None
      case Some(b) => Some(b)
    else if |s| == 36 || |s| == 38 || |s| == 45 then
      if |s| == 45 && !EqualFoldAscii(s[..9], "urn:uuid:") then None
      else
        var t := if |s| == 36 then s else if |s| == 38 then s[1..] else s[9..];
        if t[8] != '-' || t[13] != '-' || t[18] != '-' || t[23] != '-' then None
        else
          match DecodePairs(t, 0, [])
          case None => None
          case Some(b) => Some(b)
    else None
  }

  lemma PairOffsetShape(i: nat)
    requires i < 16
    ensures PairOffsets[i] + 1 < 36
    ensures !IsDashPosition(PairOffsets[i]) && !IsDashPosition(PairOffsets[i] + 1)
    ensures PairIndex(PairOffsets[i]) == i && PairIndex(PairOffsets[i] + 1) == i
  {
  }

  /** A text whose digit pairs from `i` on spell the bytes of `u` decodes to `u`. */
  lemma {:induction false} DecodePairsSpelled(s: string, u: Uuid, i: nat)
    requires |s| >= 36 && i <= 16
    requires forall j :: i <= j < 16 ==> HexByte(s[PairOffsets[j]], s[PairOffsets[j] + 1]) == Some(u[j])
    ensures DecodePairs(s, i, u[..i]) == Some(u)
    decreases 16 - i
  {
    if i < 16 {
      assert u[..i] + [u[i]] == u[..i + 1];
      DecodePairsSpelled(s, u, i + 1);
    } else {
      assert u[..16] == u;
    }
  }

  /** The `i`-th digit pair of the text form spells the `i`-th byte. */
  lemma UuidStringPair(u: Uuid, i: nat)
    requires i < 16
    ensures PairOffsets[i] + 1 < 36
    ensures UuidString(u)[PairOffsets[i]] == ByteHex(u[i])[0] && UuidString(u)[PairOffsets[i] + 1] == ByteHex(u[i])[1]
  {
    PairOffsetShape(i);
  }

  /** Every identifier the service prints parses back to itself. */
  lemma ParseUuidString(u: Uuid)
    ensures ParseUuid(UuidString(u)) == Some(u)
  {
    var s := UuidString(u);
    assert DecodePairs(s, 0, []) == Some(u) by {
      UuidStringSpells(u, s);
      DecodePairsSpelled(s, u, 0);
      assert u[..0] == [];
    }
  }

  /** The text form of `u` spells its bytes, pair by pair. */
  lemma UuidStringSpells(u: Uuid, s: string)
    requires s == UuidString(u)
    ensures |s| == 36
    ensures forall j :: 0 <= j < 16 ==> HexByte(s[PairOffsets[j]], s[PairOffsets[j] + 1]) == Some(u[j])
  {
    forall j | 0 <= j < 16
      ensures HexByte(s[PairOffsets[j]], s[PairOffsets[j] + 1]) == Some(u[j])
    {
      UuidStringPair(u, j);
      HexByteOfByteHex(u[j]);
    }
  }

  /** Distinct identifiers print differently. */
  lemma UuidStringInjective(u: Uuid, v: Uuid)
    requires UuidString(u) == UuidString(v)
    ensures u == v
  {
    ParseUuidString(u);
    ParseUuidString(v);
  }
}
