/**
 * Issuing and checking the signed access and refresh tokens
 * (`github.com/golang-jwt/jwt/v5` in the service). The token codec itself,
 * the compact serialisation and the HMAC, is a parameter constrained only
 * by its round-trip law.
 */
module Jwt {
  import opened Wrappers
  import opened Ids
  import opened Text

  const TokenTypeAccess: string := "access"
  const TokenTypeRefresh: string := "refresh"
  const Issuer: string := "music-app-backend"

  datatype Alg = HS256 | HS384 | HS512 | RS256 | RS384 | RS512
  {
    predicate IsHmac() { this == HS256 || this == HS384 || this == HS512 }
  }

  /** The signing methods the library registers, by their header name. */
  function AlgByName(name: string): (r: Option<Alg>)
    ensures r.Some? ==> AlgName(r.value) == name
  {
    if name == "HS256" then Some(HS256)
    else if name == "HS384" then Some(HS384)
    else if name == "HS512" then Some(HS512)
    else if name == "RS256" then Some(RS256)
    else if name == "RS384" then Some(RS384)
    else if name == "RS512" then Some(RS512)
    else None
  }

  function AlgName(a: Alg): string
  {
    match a
    case HS256 => "HS256" case HS384 => "HS384" case HS512 => "HS512"
    case RS256 => "RS256" case RS384 => "RS384" case RS512 => "RS512"
  }

  /** The configuration switch in `NewJWTService`: an unknown name falls back to HS256. */
  function SigningMethodFor(name: string): (a: Alg)
    ensures AlgByName(name).Some? ==> a == AlgByName(name).value
    ensures AlgByName(name).None? ==> a == HS256
  {
    match AlgByName(name)
    case Some(a) => a
    case None => HS256
  }

  /** `Claims`: the service's own fields and the registered claims it sets. */
  datatype Claims = Claims(
    userId: Uuid,
    email: string,
    roles: seq<string>,
    typ: string,
    id: string,
    subject: string,
    issuer: string,
    issuedAt: Option<Time>,
    expiresAt: Option<Time>,
    notBefore: Option<Time>)

  /**
   * The compact serialisation. `encode` signs header and claims with a key,
   * `decode` reads the header's `alg` and the claims of a well-formed token,
   * and `verifies` checks the signature of a token against a key.
   */
  datatype Codec = Codec(
    encode: (Alg, Claims, seq<byte>) -> string,
    decode: string -> Option<(string, Claims)>,
    verifies: (string, seq<byte>) -> bool)

  /**
   * What the library guarantees of its tokens: they read back as written,
   * what was signed with a key verifies with that key, and a token is three
   * dot-separated base64url segments, so it has two dots and no white space.
   */
  ghost predicate Sound(c: Codec)
  {
    forall a, cl, k :: IsToken(c.encode(a, cl, k)) &&
      c.decode(c.encode(a, cl, k)) == Some((AlgName(a), cl)) && c.verifies(c.encode(a, cl, k), k)
  }

  predicate IsToken(t: string)
  {
    |t| > 0 && NoSpace(t) && CountChar(t, '.') == 2
  }

  datatype JwtError =
    | Malformed          // not three segments, bad JSON, or an unknown `alg`
    | UnexpectedMethod   // the header names another method than the configured one
    | InvalidKeyType     // an RSA method given a byte-string secret
    | BadSignature
    | Expired            // `exp` present and not after now
    | NotYetValid        // `nbf` present and after now
    | WrongType          // the `type` claim names the other kind of token

  datatype TokenPair = TokenPair(accessToken: string, refreshToken: string, expiresIn: int, tokenType: string)

  datatype JwtService = JwtService(
    codec: Codec,
    accessSecret: seq<byte>,
    refreshSecret: seq<byte>,
    accessTtl: Duration,
    refreshTtl: Duration,
    signingMethod: Alg)
  {
    /** The claims of an access or refresh token issued at `now`. */
    function IssuedClaims(userId: Uuid, email: string, roles: seq<string>, typ: string, id: string, now: Time, ttl: Duration): (c: Claims)
      ensures c.userId == userId && c.email == email && c.roles == roles && c.typ == typ && c.id == id
      ensures c.subject == UuidString(userId) && c.issuer == Issuer
      ensures c.issuedAt == Some(now) && c.notBefore == Some(now) && c.expiresAt == Some(now + ttl)
    {
      Claims(userId, email, roles, typ, id, UuidString(userId), Issuer, Some(now), Some(now + ttl), Some(now))
    }

    /** `SignedString`: HMAC methods accept the byte secret, RSA methods refuse it. */
    function Sign(claims: Claims, key: seq<byte>): (r: Result<string, JwtError>)
      ensures r.Ok? <==> signingMethod.IsHmac()
      ensures r.Ok? ==> r.value == codec.encode(signingMethod, claims, key)
    {
      if signingMethod.IsHmac() then Ok(codec.encode(signingMethod, claims, key)) else Err(InvalidKeyType)
    }

    /**
     * `GenerateTokenPair`: an access and a refresh token for the same user,
     * issued at `now` with the two fresh identifiers given.
     */
    function GenerateTokenPair(userId: Uuid, email: string, roles: seq<string>, now: Time, accessId: Uuid, refreshId: Uuid): (r: Result<TokenPair, JwtError>)
      ensures r.Ok? <==> signingMethod.IsHmac()
      ensures r.Ok? ==> r.value.tokenType == "Bearer" && r.value.expiresIn == accessTtl
      ensures r.Ok? ==> (r.value.accessToken ==
        codec.encode(signingMethod, IssuedClaims(userId, email, roles, TokenTypeAccess, UuidString(accessId), now, accessTtl), accessSecret))
      ensures r.Ok? ==> (r.value.refreshToken ==
        codec.encode(signingMethod, IssuedClaims(userId, email, roles, TokenTypeRefresh, UuidString(refreshId), now, refreshTtl), refreshSecret))
    {
      var access := IssuedClaims(userId, email, roles, TokenTypeAccess, UuidString(accessId), now, accessTtl);
      match Sign(access, accessSecret)
      case Err(e) => Err(e)
      case Ok(accessToken) =>
        var refresh := IssuedClaims(userId, email, roles, TokenTypeRefresh, UuidString(refreshId), now, refreshTtl);
        match Sign(refresh, refreshSecret)
        case Err(e) => Err(e)
        case Ok(refreshToken) => Ok(TokenPair(accessToken, refreshToken, accessTtl, "Bearer"))
    }

    /**
     * `ParseWithClaims` with this service's key function, then the `type`
     * check: the header's method must be the configured one, the signature
     * must verify with `secret`, `now` must lie in [nbf, exp), and the token
     * must be of the expected kind.
     */
    function Verify(token: string, now: Time, secret: seq<byte>, expected: string): (r: Result<Claims, JwtError>)
      ensures r.Ok? <==>
        codec.decode(token).Some? && codec.decode(token).value.0 == AlgName(signingMethod) && signingMethod.IsHmac() &&
        codec.verifies(token, secret) && ValidAt(codec.decode(token).value.1, now) && codec.decode(token).value.1.typ == expected
      ensures r.Ok? ==> r.value == codec.decode(token).value.1
    {
      match codec.decode(token)
      case None => Err(Malformed)
      case Some((algName, claims)) =>
        match AlgByName(algName)
        case None => Err(Malformed)
        case Some(alg) =>
          if alg != signingMethod then Err(UnexpectedMethod)
          else if !alg.IsHmac() then Err(InvalidKeyType)
          else if !codec.verifies(token, secret) then Err(BadSignature)
          else if claims.expiresAt.Some? && !(now < claims.expiresAt.value) then Err(Expired)
          else if claims.notBefore.Some? && now < claims.notBefore.value then Err(NotYetValid)
          else if claims.typ != expected then Err(WrongType)
          else Ok(claims)
    }

    function VerifyAccessToken(token: string, now: Time): (r: Result<Claims, JwtError>)
      ensures r.Ok? ==> r.value.typ == TokenTypeAccess && ValidAt(r.value, now)
    {
      Verify(token, now, accessSecret, TokenTypeAccess)
    }

    function VerifyRefreshToken(token: string, now: Time): (r: Result<Claims, JwtError>)
      ensures r.Ok? ==> r.value.typ == TokenTypeRefresh && ValidAt(r.value, now)
    {
      Verify(token, now, refreshSecret, TokenTypeRefresh)
    }
  }

  /** The time window the library's claim validation accepts: nbf <= now < exp. */
  predicate ValidAt(c: Claims, now: Time)
  {
    (c.expiresAt.None? || now < c.expiresAt.value) && (c.notBefore.None? || c.notBefore.value <= now)
  }

  /** `NewJWTService`. */
  function NewJwtService(codec: Codec, accessSecret: string, refreshSecret: string, accessTtl: Duration, refreshTtl: Duration, methodName: string): (s: JwtService)
    ensures s.signingMethod == SigningMethodFor(methodName)
    ensures s.accessSecret == StringBytes(accessSecret) && s.refreshSecret == StringBytes(refreshSecret)
    ensures s.accessTtl == accessTtl && s.refreshTtl == refreshTtl
  {
    JwtService(codec, StringBytes(accessSecret), StringBytes(refreshSecret), accessTtl, refreshTtl, SigningMethodFor(methodName))
  }

  /** `[]byte(s)` for strings of single-byte characters; wider characters are reduced modulo 256. */
  function StringBytes(s: string): (b: seq<byte>)
    ensures |b| == |s|
  {
    seq(|s|, i requires 0 <= i < |s| => (s[i] as int % 256) as byte)
  }

  // ------------------------------------------------------------------ lemmas

  /**
   * Every token the service issues is accepted by the matching verifier
   * throughout its lifetime [issued, issued + ttl), with the claims it was
   * issued with.
   */
  lemma IssuedTokensVerify(j: JwtService, userId: Uuid, email: string, roles: seq<string>, now: Time, accessId: Uuid, refreshId: Uuid, later: Time)
    requires Sound(j.codec)
    requires j.GenerateTokenPair(userId, email, roles, now, accessId, refreshId).Ok?
    ensures var p := j.GenerateTokenPair(userId, email, roles, now, accessId, refreshId).value;
      (now <= later < now + j.accessTtl ==>
        j.VerifyAccessToken(p.accessToken, later) ==
          Ok(j.IssuedClaims(userId, email, roles, TokenTypeAccess, UuidString(accessId), now, j.accessTtl))) &&
      (now <= later < now + j.refreshTtl ==>
        j.VerifyRefreshToken(p.refreshToken, later) ==
          Ok(j.IssuedClaims(userId, email, roles, TokenTypeRefresh, UuidString(refreshId), now, j.refreshTtl)))
  {
    var access := j.IssuedClaims(userId, email, roles, TokenTypeAccess, UuidString(accessId), now, j.accessTtl);
    var refresh := j.IssuedClaims(userId, email, roles, TokenTypeRefresh, UuidString(refreshId), now, j.refreshTtl);
    assert j.codec.verifies(j.codec.encode(j.signingMethod, access, j.accessSecret), j.accessSecret);
    assert j.codec.verifies(j.codec.encode(j.signingMethod, refresh, j.refreshSecret), j.refreshSecret);
    assert AlgByName(AlgName(j.signingMethod)) == Some(j.signingMethod) by { AlgNameRoundTrip(j.signingMethod); }
  }

  lemma AlgNameRoundTrip(a: Alg)
    ensures AlgByName(AlgName(a)) == Some(a)
  {
  }

  /** No token is accepted both as an access token and as a refresh token, whatever the secrets. */
  lemma TokenKindsDisjoint(j: JwtService, token: string, t1: Time, t2: Time)
    ensures !(j.VerifyAccessToken(token, t1).Ok? && j.VerifyRefreshToken(token, t2).Ok?)
  {
  }

  /** With an RSA method configured nothing can be issued and nothing is accepted. */
  lemma RsaMethodRejectsEverything(j: JwtService, token: string, now: Time, userId: Uuid, email: string, roles: seq<string>, a: Uuid, b: Uuid)
    requires !j.signingMethod.IsHmac()
    ensures j.GenerateTokenPair(userId, email, roles, now, a, b).Err?
    ensures j.VerifyAccessToken(token, now).Err? && j.VerifyRefreshToken(token, now).Err?
  {
  }

  /** A token is never accepted from its expiry on, nor before its not-before time. */
  lemma OutsideLifetimeRejected(j: JwtService, token: string, now: Time)
    requires j.codec.decode(token).Some?
    requires var c := j.codec.decode(token).value.1;
      (c.expiresAt.Some? && now >= c.expiresAt.value) || (c.notBefore.Some? && now < c.notBefore.value)
    ensures j.VerifyAccessToken(token, now).Err? && j.VerifyRefreshToken(token, now).Err?
  {
  }

  // ------------------------------------------------------ bearer extraction

  function LowerAscii(s: string): (r: string)
    ensures |r| == |s|
  {
    seq(|s|, i requires 0 <= i < |s| => Lower(s[i]))
  }

  /**
   * `ExtractTokenFromHeader`: the second of exactly two fields when the
   * first is `bearer` in any case; otherwise the header itself when it holds
   * no space and exactly two dots; otherwise the empty string.
   */
  function ExtractTokenFromHeader(header: string): (r: string)
    ensures ' ' !in r
    ensures r == [] || r == header || IsSubstring(r, header)
  {
    var parts := Fields(header);
    if |parts| == 2 && LowerAscii(parts[0]) == "bearer" then
      assert NoSpace(parts[1]);
      FieldOccurs(header, 1);
      parts[1]
    else if ' ' !in header && CountChar(header, '.') == 2 then header
    else ""
  }

  predicate IsSubstring(sub: string, s: string)
  {
    exists k :: 0 <= k <= |s| && OccursAt(s, sub, k)
  }

  /** A piece of a suffix is a piece of the whole string. */
  lemma SubstringOfSuffix(s: string, m: nat, f: string)
    requires m <= |s| && IsSubstring(f, s[m..])
    ensures IsSubstring(f, s)
  {
    var j :| 0 <= j <= |s[m..]| && OccursAt(s[m..], f, j);
    assert s[m + j..m + j + |f|] == s[m..][j..j + |f|];
    assert OccursAt(s, f, m + j);
  }

  /** Every field of a string is a contiguous piece of it. */
  lemma {:induction false} FieldOccurs(s: string, k: nat)
    requires k < |Fields(s)|
    ensures IsSubstring(Fields(s)[k], s)
    decreases |s|
  {
    if IsSpace(s[0]) {
      assert Fields(s) == Fields(s[1..]);
      FieldOccurs(s[1..], k);
      SubstringOfSuffix(s, 1, Fields(s)[k]);
    } else {
      var n := WordLen(s);
      assert Fields(s) == [s[..n]] + Fields(s[n..]);
      if k == 0 {
        assert OccursAt(s, Fields(s)[0], 0);
      } else {
        FieldOccurs(s[n..], k - 1);
        SubstringOfSuffix(s, n, Fields(s)[k]);
      }
    }
  }

  /** `Bearer <token>`, with the scheme in any case, yields the token. */
  lemma BearerHeaderYieldsToken(scheme: string, token: string)
    requires LowerAscii(scheme) == "bearer"
    requires |token| > 0 && NoSpace(token)
    ensures ExtractTokenFromHeader(scheme + " " + token) == token
  {
    assert NoSpace(scheme) by {
      forall i | 0 <= i < |scheme| ensures !IsSpace(scheme[i]) {
        assert Lower(scheme[i]) == "bearer"[i];
      }
    }
    FieldsOfPair(scheme, token);
  }

  /** A bare token with two dots and no white space is taken as it is. */
  lemma BareTokenYieldsItself(token: string)
    requires |token| > 0 && NoSpace(token) && CountChar(token, '.') == 2
    ensures ExtractTokenFromHeader(token) == token
  {
    FieldsOfWord(token);
  }

  /** An empty header or one made of white space yields nothing. */
  lemma BlankHeaderYieldsNothing(header: string)
    requires forall i :: 0 <= i < |header| ==> header[i] == ' '
    ensures ExtractTokenFromHeader(header) == ""
  {
    BlankFields(header);
    if |header| > 0 {
      assert header[0] == ' ';
    }
  }

  lemma {:induction false} BlankFields(s: string)
    requires forall i :: 0 <= i < |s| ==> s[i] == ' '
    ensures Fields(s) == []
  {
    if s != [] {
      BlankFields(s[1..]);
    }
  }

  /** An issued access token is found in a `Bearer` header and also when sent bare. */
  lemma IssuedTokenExtracts(j: JwtService, userId: Uuid, email: string, roles: seq<string>, now: Time, accessId: Uuid, refreshId: Uuid)
    requires Sound(j.codec)
    requires j.GenerateTokenPair(userId, email, roles, now, accessId, refreshId).Ok?
    ensures var t := j.GenerateTokenPair(userId, email, roles, now, accessId, refreshId).value.accessToken;
      ExtractTokenFromHeader("Bearer " + t) == t && ExtractTokenFromHeader(t) == t
  {
    var t := j.GenerateTokenPair(userId, email, roles, now, accessId, refreshId).value.accessToken;
    assert IsToken(t);
    assert LowerAscii("Bearer") == "bearer";
    BearerHeaderYieldsToken("Bearer", t);
    assert "Bearer" + " " + t == "Bearer " + t;
    BareTokenYieldsItself(t);
  }
}
