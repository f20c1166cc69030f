/**
 * Unpadded standard base64 (`base64.RawStdEncoding`, the alphabet of section 4
 * of RFC 4648 without `=` padding), the encoding of the salt and the key in a
 * stored password hash.
 */
module Base64 {
  import opened Wrappers
  import opened Ids

  /** The character for a 6-bit value. */
  function SextetChar(v: nat): (c: char)
    requires v < 64
  {
    if v < 26 then ('A' as int + v) as char
    else if v < 52 then ('a' as int + v - 26) as char
    else if v < 62 then ('0' as int + v - 52) as char
    else if v == 62 then '+'
    else '/'
  }

  /** The 6-bit value of an alphabet character. */
  function SextetValue(c: char): (v: Option<nat>)
    ensures v.Some? ==> v.value < 64 && SextetChar(v.value) == c
  {
    if 'A' <= c <= 'Z' then Some(c as int - 'A' as int)
    else if 'a' <= c <= 'z' then Some(c as int - 'a' as int + 26)
    else if '0' <= c <= '9' then Some(c as int - '0' as int + 52)
    else if c == '+' then Some(62)
    else if c == '/' then Some(63)
    else None
  }

  predicate InAlphabet(c: char) { SextetValue(c).Some? }

  lemma SextetRoundTrip(v: nat)
    requires v < 64
    ensures SextetValue(SextetChar(v)) == Some(v)
  {
  }

  function Encode3(b0: byte, b1: byte, b2: byte): (s: string)
    ensures |s| == 4
  {
    var x0, x1, x2 := b0 as int, b1 as int, b2 as int;
    [SextetChar(x0 / 4), SextetChar((x0 % 4) * 16 + x1 / 16),
     SextetChar((x1 % 16) * 4 + x2 / 64), SextetChar(x2 % 64)]
  }

  function Encode2(b0: byte, b1: byte): (s: string)
    ensures |s| == 3
  {
    var x0, x1 := b0 as int, b1 as int;
    [SextetChar(x0 / 4), SextetChar((x0 % 4) * 16 + x1 / 16), SextetChar((x1 % 16) * 4)]
  }

  function Encode1(b0: byte): (s: string)
    ensures |s| == 2
  {
    var x0 := b0 as int;
    [SextetChar(x0 / 4), SextetChar((x0 % 4) * 16)]
  }

  /** `RawStdEncoding.EncodeToString`. */
  function Encode(b: seq<byte>): (s: string)
    ensures |s| == (|b| / 3) * 4 + (if |b| % 3 == 0 then 0 else |b| % 3 + 1)
    ensures forall i :: 0 <= i < |s| ==> InAlphabet(s[i])
    decreases |b|
  {
    var s :=
      if |b| >= 3 then Encode3(b[0], b[1], b[2]) + Encode(b[3..])
      else if |b| == 2 then Encode2(b[0], b[1])
      else if |b| == 1 then Encode1(b[0])
      else [];
    assert forall i :: 0 <= i < |s| ==> InAlphabet(s[i]) by {
      forall i | 0 <= i < |s| ensures InAlphabet(s[i]) {
        if |b| >= 3 && i < 4 {
          var x0, x1, x2 := b[0] as int, b[1] as int, b[2] as int;
          SextetRoundTrip(x0 / 4);
          SextetRoundTrip((x0 % 4) * 16 + x1 / 16);
          SextetRoundTrip((x1 % 16) * 4 + x2 / 64);
          SextetRoundTrip(x2 % 64);
        } else if |b| == 2 {
          var x0, x1 := b[0] as int, b[1] as int;
          SextetRoundTrip(x0 / 4);
          SextetRoundTrip((x0 % 4) * 16 + x1 / 16);
          SextetRoundTrip((x1 % 16) * 4);
        } else if |b| == 1 {
          var x0 := b[0] as int;
          SextetRoundTrip(x0 / 4);
          SextetRoundTrip((x0 % 4) * 16);
        }
      }
    }
    s
  }

  /** Decoding of characters already known to be free of line breaks. */
  function DecodeClean(s: string): (r: Option<seq<byte>>)
    decreases |s|
  {
    if |s| == 0 then Some([])
    else if |s| == 1 then None
    else
      var v0, v1 := SextetValue(s[0]), SextetValue(s[1]);
      if v0.None? || v1.None? then None
      else if |s| == 2 then
        Some([(v0.value * 4 + v1.value / 16) as byte])
      else
        var v2 := SextetValue(s[2]);
        if v2.None? then None
        else if |s| == 3 then
          Some([(v0.value * 4 + v1.value / 16) as byte, ((v1.value % 16) * 16 + v2.value / 4) as byte])
        else
          var v3 := SextetValue(s[3]);
          if v3.None? then None
          else
            match DecodeClean(s[4..])
            case None => None
            case Some(rest) =>
              Some([(v0.value * 4 + v1.value / 16) as byte,
                    ((v1.value % 16) * 16 + v2.value / 4) as byte,
                    ((v2.value % 4) * 64 + v3.value) as byte] + rest)
  }

  predicate IsLineBreak(c: char) { c == '\r' || c == '\n' }

  function StripLineBreaks(s: string): (r: string)
  {
    if s == [] then []
    else (if IsLineBreak(s[0]) then [] else [s[0]]) + StripLineBreaks(s[1..])
  }

  /**
   * `RawStdEncoding.DecodeString`: line breaks are skipped, any other
   * character outside the alphabet or a lone trailing character is an error,
   * and unused low bits of the last character are ignored.
   */
  function Decode(s: string): (r: Option<seq<byte>>)
  {
    DecodeClean(StripLineBreaks(s))
  }

  lemma {:induction false} StripNothing(s: string)
    requires forall i :: 0 <= i < |s| ==> InAlphabet(s[i])
    ensures StripLineBreaks(s) == s
  {
    if s != [] {
      StripNothing(s[1..]);
      assert [s[0]] + s[1..] == s;
    }
  }

  lemma Group3(b0: byte, b1: byte, b2: byte)
    ensures var s := Encode3(b0, b1, b2);
      SextetValue(s[0]).Some? && SextetValue(s[1]).Some? && SextetValue(s[2]).Some? && SextetValue(s[3]).Some? &&
      var v0, v1, v2, v3 := SextetValue(s[0]).value, SextetValue(s[1]).value, SextetValue(s[2]).value, SextetValue(s[3]).value;
      (v0 * 4 + v1 / 16) as byte == b0 &&
      ((v1 % 16) * 16 + v2 / 4) as byte == b1 &&
      ((v2 % 4) * 64 + v3) as byte == b2
  {
    var x0, x1, x2 := b0 as int, b1 as int, b2 as int;
    SextetRoundTrip(x0 / 4);
    SextetRoundTrip((x0 % 4) * 16 + x1 / 16);
    SextetRoundTrip((x1 % 16) * 4 + x2 / 64);
    SextetRoundTrip(x2 % 64);
  }

  lemma Group2(b0: byte, b1: byte)
    ensures var s := Encode2(b0, b1);
      SextetValue(s[0]).Some? && SextetValue(s[1]).Some? && SextetValue(s[2]).Some? &&
      var v0, v1, v2 := SextetValue(s[0]).value, SextetValue(s[1]).value, SextetValue(s[2]).value;
      (v0 * 4 + v1 / 16) as byte == b0 && ((v1 % 16) * 16 + v2 / 4) as byte == b1
  {
    var x0, x1 := b0 as int, b1 as int;
    SextetRoundTrip(x0 / 4);
    SextetRoundTrip((x0 % 4) * 16 + x1 / 16);
    SextetRoundTrip((x1 % 16) * 4);
  }

  lemma Group1(b0: byte)
    ensures var s := Encode1(b0);
      SextetValue(s[0]).Some? && SextetValue(s[1]).Some? &&
      (SextetValue(s[0]).value * 4 + SextetValue(s[1]).value / 16) as byte == b0
  {
    var x0 := b0 as int;
    SextetRoundTrip(x0 / 4);
    SextetRoundTrip((x0 % 4) * 16);
  }

  /** A full group in front of a decodable rest decodes to its three bytes in front of the rest's. */
  lemma DecodeCleanGroup(rest: string, b0: byte, b1: byte, b2: byte, tail: seq<byte>)
    requires DecodeClean(rest) == Some(tail)
    ensures DecodeClean(Encode3(b0, b1, b2) + rest) == Some([b0, b1, b2] + tail)
  {
    Group3(b0, b1, b2);
    var e := Encode3(b0, b1, b2);
    var s := e + rest;
    assert s[0] == e[0] && s[1] == e[1] && s[2] == e[2] && s[3] == e[3];
    assert s[4..] == rest;
  }

  lemma {:induction false} DecodeCleanEncode(b: seq<byte>)
    ensures DecodeClean(Encode(b)) == Some(b)
    decreases |b|
  {
    if |b| >= 3 {
      assert Encode(b) == Encode3(b[0], b[1], b[2]) + Encode(b[3..]);
      DecodeCleanEncode(b[3..]);
      DecodeCleanGroup(Encode(b[3..]), b[0], b[1], b[2], b[3..]);
      assert b == [b[0], b[1], b[2]] + b[3..];
    } else if |b| == 2 {
      DecodeCleanPair(b[0], b[1]);
      assert b == [b[0], b[1]];
    } else if |b| == 1 {
      DecodeCleanSingle(b[0]);
      assert b == [b[0]];
    }
  }

  /** Two trailing bytes decode from their three characters. */
  lemma DecodeCleanPair(b0: byte, b1: byte)
    ensures DecodeClean(Encode2(b0, b1)) == Some([b0, b1])
  {
    Group2(b0, b1);
  }

  /** One trailing byte decodes from its two characters. */
  lemma DecodeCleanSingle(b0: byte)
    ensures DecodeClean(Encode1(b0)) == Some([b0])
  {
    Group1(b0);
  }

  /** Decoding an encoding gives the bytes back. */
  lemma DecodeEncode(b: seq<byte>)
    ensures Decode(Encode(b)) == Some(b)
  {
    StripNothing(Encode(b));
    DecodeCleanEncode(b);
  }

  /** An encoding never contains the `$` that separates the fields of a stored hash. */
  lemma EncodeHasNoDollar(b: seq<byte>)
    ensures '$' !in Encode(b)
  {
  }
}
