/**
 * Argon2id password hashing in the PHC string form
 * `$argon2id$v=19$m=<memory>,t=<time>,p=<threads>$<salt>$<key>`, where salt
 * and key are unpadded base64. The key derivation itself is a parameter.
 */
module PasswordHash {
  import opened Wrappers
  import opened Ids
  import opened Text
  import Base64

  type uint32 = x: int | 0 <= x < 0x1_0000_0000
  type uint8 = x: int | 0 <= x < 0x100

  /** `argon2.Version`. */
  const Argon2Version: int := 19
  const DefaultKeyLen: uint32 := 32
  const SaltLen: nat := 16

  type Salt = s: seq<byte> | |s| == SaltLen witness seq(SaltLen, _ => 0 as byte)

  /**
   * `argon2.IDKey(password, salt, time, memory, threads, keyLen)`; only its
   * output length is known.
   */
  type Kdf = f: (string, seq<byte>, nat, nat, nat, nat) -> seq<byte>
    | forall pw, salt, t, m, p, k :: |f(pw, salt, t, m, p, k)| == k
    witness ZeroKey

  /** A key of the requested length, all zeros: shows that key derivations exist. */
  function ZeroKey(pw: string, salt: seq<byte>, t: nat, m: nat, p: nat, k: nat): (key: seq<byte>)
    ensures |key| == k
  {
    seq(k, _ => 0 as byte)
  }

  datatype HashError =
    | InvalidHash           // ErrInvalidHash: not six `$`-separated fields
    | IncompatibleVersion   // ErrIncompatibleVersion
    | MalformedField        // an error from fmt.Sscanf
    | BadBase64             // an error from base64 decoding
    | ParameterPanic        // argon2.IDKey panics when time, threads or the key length is zero
    | RandomSourceFailed    // crypto/rand failed to produce the salt

  // ----------------------------------------------------------------- scanning

  /** Skips spaces before a number as `fmt` does; a newline in the way is an error. */
  function SkipSpace(s: string): (r: Option<string>)
    ensures r.Some? ==> |r.value| <= |s| && (r.value == [] || !IsSpace(r.value[0]))
    ensures s != [] && !IsSpace(s[0]) ==> r == Some(s)
  {
    if s == [] then Some(s)
    else if s[0] == '\n' then None
    else if IsSpace(s[0]) then SkipSpace(s[1..])
    else Some(s)
  }

  /** Number of decimal digits at the front of `s`. */
  function DigitRun(s: string): (n: nat)
    ensures n <= |s|
    ensures forall i :: 0 <= i < n ==> IsDigit(s[i])
    ensures n < |s| ==> !IsDigit(s[n])
  {
    if s != [] && IsDigit(s[0]) then 1 + DigitRun(s[1..]) else 0
  }

  /**
   * The `%d` verb: optional spaces, a sign when the target is signed, then at
   * least one decimal digit; returns the value and what is left.
   */
  function ScanDecimal(s: string, signed: bool): (r: Option<(int, string)>)
  {
    match SkipSpace(s)
    case None => None
    case Some(t) =>
      if t == [] then None
      else
        var neg := signed && t[0] == '-';
        var u := if signed && (t[0] == '-' || t[0] == '+') then t[1..] else t;
        var n := DigitRun(u);
        if n == 0 then None
        else
          var v: int := DigitsValue(u[..n]);
          Some((if neg then -v else v, u[n..]))
  }

  /** A literal in the format must be matched exactly by the input. */
  function ScanLiteral(s: string, lit: string): (r: Option<string>)
  {
    if HasPrefix(s, lit) then Some(s[|lit|..]) else None
  }

  /** `%d` into an unsigned variable whose values lie below `limit`. */
  function ScanUnsigned(s: string, limit: nat): (r: Option<(nat, string)>)
    ensures r.Some? ==> r.value.0 < limit
  {
    match ScanDecimal(s, false)
    case None => None
    case Some((v, rest)) => if 0 <= v < limit then Some((v, rest)) else None
  }

  const Int64Limit: int := 0x8000_0000_0000_0000

  /** `fmt.Sscanf(field, "v=%d", &version)` with `version` a 64-bit `int`. */
  function ScanVersion(field: string): (r: Option<int>)
  {
    match ScanLiteral(field, "v=")
    case None => None
    case Some(rest) =>
      match ScanDecimal(rest, true)
      case None => None
      case Some((v, _)) => if -Int64Limit <= v < Int64Limit then Some(v) else None
  }

  datatype Params = Params(memory: uint32, time: uint32, threads: uint8)

  /** `fmt.Sscanf(field, "m=%d,t=%d,p=%d", &memory, &time, &threads)`, one verb at a time. */
  function ScanParams(field: string): (r: Option<Params>)
  {
    match ScanLiteral(field, "m=")
    case None => None
    case Some(s0) =>
      match ScanUnsigned(s0, 0x1_0000_0000)
      case None => None
      case Some((m, s1)) =>
        match ScanTimeThreads(s1)
        case None => None
        case Some((t, p)) => Some(Params(m, t, p))
  }

  /** The `",t=%d,p=%d"` tail of the parameter format. */
  function ScanTimeThreads(s: string): Option<(uint32, uint8)>
  {
    match ScanLiteral(s, ",t=")
    case None => None
    case Some(s2) =>
      match ScanUnsigned(s2, 0x1_0000_0000)
      case None => None
      case Some((t, s3)) =>
        match ScanThreads(s3)
        case None => None
        case Some(p) => Some((t as uint32, p))
  }

  /** The `",p=%d"` tail of the parameter format. */
  function ScanThreads(s: string): Option<uint8>
  {
    match ScanLiteral(s, ",p=")
    case None => None
    case Some(s4) =>
      match ScanUnsigned(s4, 0x100)
      case None => None
      case Some((p, _)) => Some(p as uint8)
  }

  // ------------------------------------------------------------------ hasher

  datatype PasswordHasher = PasswordHasher(time: uint32, memory: uint32, threads: uint8, keyLen: uint32)
  {
    /**
     * `Hash`: a fresh 16-byte salt (`None` when the random source fails), the
     * derived key, and the six `$`-separated fields.
     */
    function Hash(kdf: Kdf, password: string, salt: Option<Salt>): (r: Result<string, HashError>)
      ensures r.Ok? <==> salt.Some? && time >= 1 && threads >= 1 && keyLen >= 1
      ensures salt.Some? && (time < 1 || threads < 1 || keyLen < 1) ==> r == Err(ParameterPanic)
      ensures salt.None? ==> r == Err(RandomSourceFailed)
      ensures r.Ok? ==> (Split(r.value, '$') ==
        ["", "argon2id", "v=19", ParamsField(memory, time, threads),
         Base64.Encode(salt.value), Base64.Encode(kdf(password, salt.value, time, memory, threads, keyLen))])
    {
      if salt.None? then Err(RandomSourceFailed)
      else if time < 1 || threads < 1 || keyLen < 1 then Err(ParameterPanic)
      else
        var key := kdf(password, salt.value, time, memory, threads, keyLen);
        var fields := ["", "argon2id", "v=" + IntString(Argon2Version), ParamsField(memory, time, threads),
                       Base64.Encode(salt.value), Base64.Encode(key)];
        EncodedFieldsSplit(memory, time, threads, salt.value, key);
        Ok(Join(fields, "$"))
    }

    /**
     * `Matches`: the cost parameters come from the stored string, not from
     * this hasher; the first two fields are never examined.
     */
    function Matches(kdf: Kdf, password: string, encoded: string): (r: Result<bool, HashError>)
      ensures r.Ok? ==> |Split(encoded, '$')| == 6
      ensures r.Ok? ==> ScanVersion(Split(encoded, '$')[2]) == Some(Argon2Version)
      ensures r.Ok? ==> ScanParams(Split(encoded, '$')[3]).Some?
      ensures r.Ok? ==> Base64.Decode(Split(encoded, '$')[4]).Some? && Base64.Decode(Split(encoded, '$')[5]).Some?
      ensures r.Ok? ==> var ps := ScanParams(Split(encoded, '$')[3]).value;
        ps.time >= 1 && ps.threads >= 1 && |Base64.Decode(Split(encoded, '$')[5]).value| > 0
    {
      var vals := Split(encoded, '$');
      if |vals| != 6 then Err(InvalidHash)
      else
        match ScanVersion(vals[2])
        case None => Err(MalformedField)
        case Some(version) =>
          if version != Argon2Version then Err(IncompatibleVersion)
          else
            match ScanParams(vals[3])
            case None => Err(MalformedField)
            case Some(ps) =>
              match Base64.Decode(vals[4])
              case None => Err(BadBase64)
              case Some(salt) =>
                match Base64.Decode(vals[5])
                case None => Err(BadBase64)
                case Some(hash) =>
                  if ps.time < 1 || ps.threads < 1 || |hash| == 0 then Err(ParameterPanic)
                  else
                    var other := kdf(password, salt, ps.time, ps.memory, ps.threads, |hash|);
                    Ok(hash == other)
    }
  }

  /** `NewPasswordHasher`: a 32-byte key. */
  function NewPasswordHasher(time: uint32, memory: uint32, threads: uint8): (h: PasswordHasher)
    ensures h.time == time && h.memory == memory && h.threads == threads
    ensures h.keyLen == DefaultKeyLen
  {
    PasswordHasher(time, memory, threads, DefaultKeyLen)
  }

  function ParamsField(memory: nat, time: nat, threads: nat): string
  {
    "m=" + IntString(memory) + ",t=" + IntString(time) + ",p=" + IntString(threads)
  }

  /** The six fields `Hash` joins come apart again at `$`, the version reading `v=19`. */
  lemma EncodedFieldsSplit(memory: nat, time: nat, threads: nat, salt: seq<byte>, key: seq<byte>)
    ensures Split(Join(["", "argon2id", "v=" + IntString(Argon2Version), ParamsField(memory, time, threads),
                        Base64.Encode(salt), Base64.Encode(key)], "$"), '$')
         == ["", "argon2id", "v=19", ParamsField(memory, time, threads), Base64.Encode(salt), Base64.Encode(key)]
  {
    FieldsHaveNoDollar(memory, time, threads, salt, key);
    VersionField();
    SixFieldsSplit("v=19", ParamsField(memory, time, threads), Base64.Encode(salt), Base64.Encode(key));
  }

  lemma SixFieldsSplit(version: string, params: string, salt: string, key: string)
    requires '$' !in version && '$' !in params && '$' !in salt && '$' !in key
    ensures Split(Join(["", "argon2id", version, params, salt, key], "$"), '$') == ["", "argon2id", version, params, salt, key]
  {
    var fields := ["", "argon2id", version, params, salt, key];
    assert forall i :: 0 <= i < |fields| ==> '$' !in fields[i];
    SplitJoin(fields, '$');
  }

  /** `IntString` renders version 19 as `19`. */
  lemma VersionField()
    ensures "v=" + IntString(Argon2Version) == "v=19"
  {
    assert IntString(Argon2Version) == "19";
  }

  lemma FieldsHaveNoDollar(memory: nat, time: nat, threads: nat, salt: seq<byte>, key: seq<byte>)
    ensures '$' !in "v=" + IntString(Argon2Version)
    ensures '$' !in ParamsField(memory, time, threads)
    ensures '$' !in Base64.Encode(salt) && '$' !in Base64.Encode(key)
  {
    Base64.EncodeHasNoDollar(salt);
    Base64.EncodeHasNoDollar(key);
    assert '$' !in "v=" + IntString(Argon2Version) by {
      NoDollarInDigits(NatString(Argon2Version));
    }
    assert '$' !in ParamsField(memory, time, threads) by {
      NoDollarInDigits(NatString(memory));
      NoDollarInDigits(NatString(time));
      NoDollarInDigits(NatString(threads));
      assert ParamsField(memory, time, threads) ==
        "m=" + NatString(memory) + ",t=" + NatString(time) + ",p=" + NatString(threads);
    }
  }

  lemma NoDollarInDigits(s: string)
    requires forall i :: 0 <= i < |s| ==> IsDigit(s[i])
    ensures '$' !in s
  {
  }

  // -------------------------------------------------------------- round trip

  /** `%d` reads back what `%d` wrote, stopping at the first non-digit. */
  lemma ScanDecimalOfNat(n: nat, rest: string, signed: bool)
    requires rest == [] || !IsDigit(rest[0])
    ensures ScanDecimal(NatString(n) + rest, signed) == Some((n, rest))
  {
    var d := NatString(n);
    var s := d + rest;
    assert s[0] == d[0] && IsDigit(d[0]) && !IsSpace(d[0]);
    assert s[..|d|] == d;
    DigitRunOf(d, rest);
    DigitsValueOfNatString(n);
    assert s[|d|..] == rest;
  }

  lemma {:induction false} DigitRunOf(d: string, rest: string)
    requires forall i :: 0 <= i < |d| ==> IsDigit(d[i])
    requires rest == [] || !IsDigit(rest[0])
    ensures DigitRun(d + rest) == |d|
  {
    if d != [] {
      assert (d + rest)[1..] == d[1..] + rest;
      DigitRunOf(d[1..], rest);
    } else {
      assert d + rest == rest;
    }
  }

  lemma ScanLiteralOf(lit: string, rest: string)
    ensures ScanLiteral(lit + rest, lit) == Some(rest)
  {
    assert (lit + rest)[..|lit|] == lit;
    assert (lit + rest)[|lit|..] == rest;
  }

  lemma ScanUnsignedOfNat(n: nat, rest: string, limit: nat)
    requires n < limit
    requires rest == [] || !IsDigit(rest[0])
    ensures ScanUnsigned(NatString(n) + rest, limit) == Some((n, rest))
  {
    ScanDecimalOfNat(n, rest, false);
  }

  lemma ScanParamsField(memory: uint32, time: uint32, threads: uint8)
    ensures ScanParams(ParamsField(memory, time, threads)) == Some(Params(memory, time, threads))
  {
    var s1 := ",t=" + NatString(time) + ",p=" + NatString(threads);
    var s0 := NatString(memory) + s1;
    ParamsFieldShape(memory, time, threads);
    assert ScanLiteral("m=" + s0, "m=") == Some(s0) by {
      ScanLiteralOf("m=", s0);
    }
    assert ScanUnsigned(s0, 0x1_0000_0000) == Some((memory as nat, s1)) by {
      assert s1[0] == ',';
      ScanUnsignedOfNat(memory, s1, 0x1_0000_0000);
    }
    assert ScanTimeThreads(s1) == Some((time, threads)) by {
      ScanTimeThreadsField(time, threads);
    }
  }

  /** The parameter field as the three scanning stages see it. */
  lemma ParamsFieldShape(memory: uint32, time: uint32, threads: uint8)
    ensures ParamsField(memory, time, threads)
         == "m=" + (NatString(memory) + (",t=" + NatString(time) + ",p=" + NatString(threads)))
  {
  }

  lemma ScanTimeThreadsField(time: uint32, threads: uint8)
    ensures ScanTimeThreads(",t=" + NatString(time) + ",p=" + NatString(threads)) == Some((time, threads))
  {
    var s3 := ",p=" + NatString(threads);
    var s2 := NatString(time) + s3;
    assert ",t=" + NatString(time) + ",p=" + NatString(threads) == ",t=" + s2;
    ScanLiteralOf(",t=", s2);
    assert s3[0] == ',';
    ScanUnsignedOfNat(time, s3, 0x1_0000_0000);
    ScanThreadsField(threads);
  }

  lemma ScanThreadsField(threads: uint8)
    ensures ScanThreads(",p=" + NatString(threads)) == Some(threads)
  {
    ScanLiteralOf(",p=", NatString(threads));
    ScanUnsignedOfNat(threads, [], 0x100);
    assert NatString(threads) + [] == NatString(threads);
  }

  lemma ScanVersionField(v: int)
    requires -Int64Limit <= v < Int64Limit
    ensures ScanVersion("v=" + IntString(v)) == Some(v)
  {
    ScanLiteralOf("v=", IntString(v));
    if v >= 0 {
      ScanDecimalOfNat(v, [], true);
      assert NatString(v) + [] == IntString(v);
    } else {
      var d := NatString(-v);
      var t := IntString(v);
      assert t == "-" + d;
      assert SkipSpace(t) == Some(t);
      assert t[1..] == d;
      DigitRunOf(d, []);
      assert d + [] == d;
      assert d[..|d|] == d;
      DigitsValueOfNatString(-v);
    }
  }

  lemma MatchesFields(g: PasswordHasher, kdf: Kdf, password: string, encoded: string, ps: Params, salt: seq<byte>, hash: seq<byte>)
    requires |Split(encoded, '$')| == 6
    requires ScanVersion(Split(encoded, '$')[2]) == Some(Argon2Version)
    requires ScanParams(Split(encoded, '$')[3]) == Some(ps)
    requires Base64.Decode(Split(encoded, '$')[4]) == Some(salt)
    requires Base64.Decode(Split(encoded, '$')[5]) == Some(hash)
    requires ps.time >= 1 && ps.threads >= 1 && |hash| > 0
    ensures g.Matches(kdf, password, encoded) == Ok(hash == kdf(password, salt, ps.time, ps.memory, ps.threads, |hash|))
  {
  }

  /**
   * A stored hash whose fields all read but whose cost is zero or whose key
   * is empty makes `argon2.IDKey` panic, whatever the password.
   */
  lemma DegenerateStoredHashPanics(g: PasswordHasher, kdf: Kdf, password: string, encoded: string, ps: Params, salt: seq<byte>, hash: seq<byte>)
    requires |Split(encoded, '$')| == 6
    requires ScanVersion(Split(encoded, '$')[2]) == Some(Argon2Version)
    requires ScanParams(Split(encoded, '$')[3]) == Some(ps)
    requires Base64.Decode(Split(encoded, '$')[4]) == Some(salt)
    requires Base64.Decode(Split(encoded, '$')[5]) == Some(hash)
    requires ps.time < 1 || ps.threads < 1 || |hash| == 0
    ensures g.Matches(kdf, password, encoded) == Err(ParameterPanic)
  {
  }

  /**
   * A hash produced by any hasher is accepted by any hasher for the same
   * password, and for another password exactly when the derived keys agree.
   */
  lemma HashThenMatches(h: PasswordHasher, g: PasswordHasher, kdf: Kdf, password: string, salt: Salt, attempt: string)
    requires h.Hash(kdf, password, Some(salt)).Ok?
    ensures var e := h.Hash(kdf, password, Some(salt)).value;
      g.Matches(kdf, attempt, e) ==
        Ok(kdf(attempt, salt, h.time, h.memory, h.threads, h.keyLen) == kdf(password, salt, h.time, h.memory, h.threads, h.keyLen))
    ensures g.Matches(kdf, password, h.Hash(kdf, password, Some(salt)).value) == Ok(true)
  {
    var key := kdf(password, salt, h.time, h.memory, h.threads, h.keyLen);
    assert |key| == h.keyLen;
    var e := h.Hash(kdf, password, Some(salt)).value;
    var vals := Split(e, '$');
    assert vals[2] == "v=" + IntString(Argon2Version);
    ScanVersionField(19);
    assert ScanVersion(vals[2]) == Some(Argon2Version);
    ScanParamsField(h.memory, h.time, h.threads);
    assert ScanParams(vals[3]) == Some(Params(h.memory, h.time, h.threads));
    Base64.DecodeEncode(salt);
    assert Base64.Decode(vals[4]) == Some(salt);
    Base64.DecodeEncode(key);
    assert Base64.Decode(vals[5]) == Some(key);
    MatchesFields(g, kdf, attempt, e, Params(h.memory, h.time, h.threads), salt, key);
    MatchesFields(g, kdf, password, e, Params(h.memory, h.time, h.threads), salt, key);
  }

  /** A stored hash naming another argon2 version is refused before any key is derived. */
  lemma OtherVersionRefused(h: PasswordHasher, kdf: Kdf, password: string, version: int, rest: seq<string>)
    requires version != Argon2Version && -Int64Limit <= version < Int64Limit
    requires |rest| == 3 && forall k :: 0 <= k < 3 ==> '$' !in rest[k]
    ensures h.Matches(kdf, password, Join(["", "argon2id", "v=" + IntString(version)] + rest, "$")) == Err(IncompatibleVersion)
  {
    var fields := ["", "argon2id", "v=" + IntString(version)] + rest;
    IntStringHasNoDollar(version);
    assert forall k :: 0 <= k < |fields| ==> '$' !in fields[k];
    SplitJoin(fields, '$');
    ScanVersionField(version);
  }

  lemma IntStringHasNoDollar(n: int)
    ensures '$' !in "v=" + IntString(n)
  {
    if n < 0 { NoDollarInDigits(NatString(-n)); } else { NoDollarInDigits(NatString(n)); }
  }

  /** Anything but six `$`-separated fields is an invalid hash, whatever the password. */
  lemma WrongFieldCountRefused(h: PasswordHasher, kdf: Kdf, password: string, encoded: string)
    requires |Split(encoded, '$')| != 6
    ensures h.Matches(kdf, password, encoded) == Err(InvalidHash)
  {
  }
}
