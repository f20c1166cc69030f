/**
 * `AuthService`: issuing token pairs, rotating refresh tokens, logout and
 * housekeeping over the refresh-token table.
 */
module AuthService {
  import opened Wrappers
  import opened Ids
  import opened Storage
  import opened Jwt
  import opened RefreshTokens
  import opened TokenStore

  datatype AuthError =
    | TokenGenerationFailed  // signing a new pair failed
    | TokenParseFailed       // the newly signed refresh token did not verify
    | NilTimestamp           // a verified refresh token without iat or exp: a nil dereference in the source
    | StoreFailed            // the new row could not be inserted: a taken key or a database error
    | InvalidRefreshToken    // the presented refresh token did not verify
    | RefreshTokenNotFound   // no row for its `jti`
    | LookupFailed           // the lookup failed for another reason
    | RevokedOrExpired       // the row is revoked or expired
    | RevokeFailed           // the revocation could not be written

  /** The row the service builds for a verified refresh token, before the hook and gorm's timestamps. */
  function Draft(userId: Uuid, c: Claims, userAgent: string, ip: string): (r: TokenRecord)
    requires c.issuedAt.Some? && c.expiresAt.Some?
    ensures r.tokenId == c.id && r.userId == userId && !r.revoked && r.replacedBy.None?
    ensures r.issuedAt == c.issuedAt.value && r.expiresAt == c.expiresAt.value
  {
    TokenRecord(NilUuid, userId, c.id, c.issuedAt.value, c.expiresAt.value, false, None,
                Some(userAgent), Some(ip), ZeroTime, ZeroTime)
  }

  /**
   * Outcome and new table of storing a freshly verified refresh token;
   * `fails` stands for a database error on the insert.
   */
  function Store(rows: Rows, userId: Uuid, c: Claims, userAgent: string, ip: string, recordId: Uuid, now: Time, fails: bool): (o: (Result<(), AuthError>, Rows))
  {
    if c.issuedAt.None? || c.expiresAt.None? then (Err(NilTimestamp), rows)
    else
      var rec := Stamped(Draft(userId, c, userAgent, ip), recordId, now);
      if !fails && Insertable(rows, rec) then (Ok(()), rows[rec.tokenId := rec]) else (Err(StoreFailed), rows)
  }

  /**
   * The row stored for a newly signed pair: present exactly when its refresh
   * token verifies now and carries both timestamps.
   */
  function NewRow(j: JwtService, userId: Uuid, pair: TokenPair, userAgent: string, ip: string, recordId: Uuid, now: Time): (r: Option<TokenRecord>)
    ensures var v := j.VerifyRefreshToken(pair.refreshToken, now);
      r.Some? <==> v.Ok? && v.value.issuedAt.Some? && v.value.expiresAt.Some?
    ensures r.Some? ==> var c := j.VerifyRefreshToken(pair.refreshToken, now).value;
      r.value.tokenId == c.id && r.value.userId == userId && !r.value.revoked && r.value.expiresAt == c.expiresAt.value
  {
    match j.VerifyRefreshToken(pair.refreshToken, now)
    case Err(_) => None
    case Ok(c) =>
      if c.issuedAt.None? || c.expiresAt.None? then None
      else Some(Stamped(Draft(userId, c, userAgent, ip), recordId, now))
  }

  /**
   * The pair signed for a user and the row that would store its refresh
   * token, or None when signing fails or the new refresh token does not
   * read back with both timestamps.
   */
  function Fresh(j: JwtService, userId: Uuid, email: string, roles: seq<string>, userAgent: string, ip: string,
                 now: Time, accessId: Uuid, refreshId: Uuid, recordId: Uuid): (f: Option<(TokenPair, TokenRecord)>)
    ensures var g := j.GenerateTokenPair(userId, email, roles, now, accessId, refreshId);
      f.Some? <==> g.Ok? && NewRow(j, userId, g.value, userAgent, ip, recordId, now).Some?
    ensures f.Some? ==> j.GenerateTokenPair(userId, email, roles, now, accessId, refreshId) == Ok(f.value.0) &&
                        NewRow(j, userId, f.value.0, userAgent, ip, recordId, now) == Some(f.value.1)
  {
    match j.GenerateTokenPair(userId, email, roles, now, accessId, refreshId)
    case Err(_) => None
    case Ok(pair) =>
      match NewRow(j, userId, pair, userAgent, ip, recordId, now)
      case None => None
      case Some(rec) => Some((pair, rec))
  }

  /**
   * `GenerateTokens`: sign a pair, read back its refresh token, store its
   * row; `storeFails` stands for a database error on the insert.
   */
  function Issue(j: JwtService, rows: Rows, userId: Uuid, email: string, roles: seq<string>, userAgent: string, ip: string,
                 now: Time, accessId: Uuid, refreshId: Uuid, recordId: Uuid, storeFails: bool): (o: (Result<TokenPair, AuthError>, Rows))
    ensures o.0.Err? ==> o.1 == rows
    ensures j.GenerateTokenPair(userId, email, roles, now, accessId, refreshId).Err? <==> o.0 == Err(TokenGenerationFailed)
    ensures var f := Fresh(j, userId, email, roles, userAgent, ip, now, accessId, refreshId, recordId);
      o.0.Ok? <==> !storeFails && f.Some? && Insertable(rows, f.value.1)
    ensures storeFails ==> o.0.Err? && o.1 == rows
    ensures Fresh(j, userId, email, roles, userAgent, ip, now, accessId, refreshId, recordId).Some? && storeFails ==>
      o.0 == Err(StoreFailed)
    ensures o.0.Ok? ==> var f := Fresh(j, userId, email, roles, userAgent, ip, now, accessId, refreshId, recordId).value;
      o.0.value == f.0 && o.1 == rows[f.1.tokenId := f.1]
  {
    match j.GenerateTokenPair(userId, email, roles, now, accessId, refreshId)
    case Err(_) => (Err(TokenGenerationFailed), rows)
    case Ok(pair) =>
      match j.VerifyRefreshToken(pair.refreshToken, now)
      case Err(_) => (Err(TokenParseFailed), rows)
      case Ok(c) =>
        var (s, rows') := Store(rows, userId, c, userAgent, ip, recordId, now, storeFails);
        if s.Err? then (Err(s.error), rows) else (Ok(pair), rows')
  }

  /** The successor of verified claims `c` can be signed, read back and stored. */
  predicate RotationFits(j: JwtService, rows: Rows, c: Claims, userAgent: string, ip: string, now: Time,
                         accessId: Uuid, refreshId: Uuid, recordId: Uuid)
  {
    var f := Fresh(j, c.userId, c.email, c.roles, userAgent, ip, now, accessId, refreshId, recordId);
    f.Some? && Insertable(rows, f.value.1)
  }

  /**
   * `RefreshTokens`. With `persist` false this is the source as written: the
   * consumed token is revoked on the in-memory copy only, so its row is left
   * valid. With `persist` true the revocation and the successor's id are
   * written back in the same transaction as the new row, so `storeFails`
   * leaves both unwritten. `lookupFailure` and `storeFails` stand for
   * database errors on the lookup and on the insert.
   */
  function Rotate(j: JwtService, rows: Rows, token: string, userAgent: string, ip: string, now: Time,
                  lookupFailure: bool, storeFails: bool, accessId: Uuid, refreshId: Uuid, recordId: Uuid, persist: bool): (o: (Result<TokenPair, AuthError>, Rows))
    ensures o.0.Err? ==> o.1 == rows
    ensures storeFails ==> o.0.Err? && o.1 == rows
    ensures var v := j.VerifyRefreshToken(token, now);
      (v.Err? ==> o.0 == Err(InvalidRefreshToken)) &&
      (v.Ok? && lookupFailure ==> o.0 == Err(LookupFailed)) &&
      (v.Ok? && !lookupFailure ==> (o.0 == Err(RefreshTokenNotFound) <==> v.value.id !in rows)) &&
      (v.Ok? && !lookupFailure && v.value.id in rows ==> (o.0 == Err(RevokedOrExpired) <==> !IsValidAt(rows[v.value.id], now)))
    ensures var v := j.VerifyRefreshToken(token, now);
      o.0.Ok? <==> (v.Ok? && !lookupFailure && !storeFails && v.value.id in rows && IsValidAt(rows[v.value.id], now) &&
                    RotationFits(j, rows, v.value, userAgent, ip, now, accessId, refreshId, recordId))
    ensures o.0.Ok? ==> var c := j.VerifyRefreshToken(token, now).value;
      var f := Fresh(j, c.userId, c.email, c.roles, userAgent, ip, now, accessId, refreshId, recordId).value;
      o.0.value == f.0 &&
      o.1 == (if persist then ReplaceTokenId(rows[f.1.tokenId := f.1], c.id, f.1.tokenId, now) else rows[f.1.tokenId := f.1])
  {
    match j.VerifyRefreshToken(token, now)
    case Err(_) => (Err(InvalidRefreshToken), rows)
    case Ok(c) =>
      if lookupFailure then (Err(LookupFailed), rows)
      else if c.id !in rows then (Err(RefreshTokenNotFound), rows)
      else if !IsValidAt(rows[c.id], now) then (Err(RevokedOrExpired), rows)
      else
        match j.GenerateTokenPair(c.userId, c.email, c.roles, now, accessId, refreshId)
        case Err(_) => (Err(TokenGenerationFailed), rows)
        case Ok(pair) =>
          match j.VerifyRefreshToken(pair.refreshToken, now)
          case Err(_) => (Err(TokenParseFailed), rows)
          case Ok(nc) =>
            var (s, rows') := Store(rows, c.userId, nc, userAgent, ip, recordId, now, storeFails);
            if s.Err? then (Err(s.error), rows)
            else if persist then (Ok(pair), ReplaceTokenId(rows', c.id, nc.id, now))
            else (Ok(pair), rows')
  }

  /**
   * `RevokeToken` (logout): revoke the row of a verified refresh token;
   * `fails` stands for a database error on the update.
   */
  function Logout(j: JwtService, rows: Rows, token: string, now: Time, fails: bool): (o: (Result<(), AuthError>, Rows))
    ensures o.0.Err? ==> o.1 == rows
    ensures var v := j.VerifyRefreshToken(token, now);
      (v.Err? ==> o.0 == Err(InvalidRefreshToken)) &&
      (v.Ok? && fails ==> o.0 == Err(RevokeFailed)) &&
      (v.Ok? && !fails ==> o.0.Ok? && o.1 == RevokeTokenId(rows, v.value.id, now))
  {
    match j.VerifyRefreshToken(token, now)
    case Err(_) => (Err(InvalidRefreshToken), rows)
    case Ok(c) => if fails then (Err(RevokeFailed), rows) else (Ok(()), RevokeTokenId(rows, c.id, now))
  }

  // ------------------------------------------------------------------ lemmas

  /**
   * As written, a successful rotation leaves the row of the refresh token it
   * consumed exactly as it was, so that token is still valid.
   */
  lemma RotationLeavesConsumedTokenValid(j: JwtService, rows: Rows, token: string, userAgent: string, ip: string, now: Time,
                                         accessId: Uuid, refreshId: Uuid, recordId: Uuid)
    requires Rotate(j, rows, token, userAgent, ip, now, false, false, accessId, refreshId, recordId, false).0.Ok?
    ensures var c := j.VerifyRefreshToken(token, now).value;
      var after := Rotate(j, rows, token, userAgent, ip, now, false, false, accessId, refreshId, recordId, false).1;
      c.id in after && after[c.id] == rows[c.id] && IsValidAt(after[c.id], now)
  {
  }

  /**
   * As written, the same refresh token can be exchanged a second time: the
   * replay succeeds whenever the new identifiers are unused.
   */
  lemma ReplayAccepted(j: JwtService, rows: Rows, token: string, userAgent: string, ip: string, now: Time,
                       a1: Uuid, r1: Uuid, rec1: Uuid, a2: Uuid, r2: Uuid, rec2: Uuid)
    requires Sound(j.codec)
    requires Rotate(j, rows, token, userAgent, ip, now, false, false, a1, r1, rec1, false).0.Ok?
    requires var after := Rotate(j, rows, token, userAgent, ip, now, false, false, a1, r1, rec1, false).1;
      UuidString(r2) !in after && forall t :: t in after ==> after[t].id != rec2
    ensures var after := Rotate(j, rows, token, userAgent, ip, now, false, false, a1, r1, rec1, false).1;
      Rotate(j, after, token, userAgent, ip, now, false, false, a2, r2, rec2, false).0.Ok?
  {
    var after := Rotate(j, rows, token, userAgent, ip, now, false, false, a1, r1, rec1, false).1;
    var c := j.VerifyRefreshToken(token, now).value;
    RotationLeavesConsumedTokenValid(j, rows, token, userAgent, ip, now, a1, r1, rec1);
    var p1 := j.GenerateTokenPair(c.userId, c.email, c.roles, now, a1, r1).value;
    var n1 := j.IssuedClaims(c.userId, c.email, c.roles, TokenTypeRefresh, UuidString(r1), now, j.refreshTtl);
    assert j.codec.decode(p1.refreshToken) == Some((AlgName(j.signingMethod), n1));
    assert j.refreshTtl > 0;
    var p2 := j.GenerateTokenPair(c.userId, c.email, c.roles, now, a2, r2).value;
    var n2 := j.IssuedClaims(c.userId, c.email, c.roles, TokenTypeRefresh, UuidString(r2), now, j.refreshTtl);
    IssuedTokensVerify(j, c.userId, c.email, c.roles, now, a2, r2, now);
    assert j.VerifyRefreshToken(p2.refreshToken, now) == Ok(n2);
    var rec := Stamped(Draft(c.userId, n2, userAgent, ip), rec2, now);
    assert rec.tokenId == UuidString(r2) && rec.id == rec2;
    assert Insertable(after, rec);
  }

  /**
   * With the revocation written back, a consumed refresh token is refused
   * from then on, whatever the time, identifiers or version of the rotation,
   * and its row names its successor.
   */
  lemma CorrectedRotationRefusesReplay(j: JwtService, rows: Rows, token: string, userAgent: string, ip: string, now: Time,
                                       a1: Uuid, r1: Uuid, rec1: Uuid,
                                       ua2: string, ip2: string, now2: Time, failure2: bool, storeFails2: bool, a2: Uuid, r2: Uuid, rec2: Uuid, persist2: bool)
    requires Rotate(j, rows, token, userAgent, ip, now, false, false, a1, r1, rec1, true).0.Ok?
    ensures var c := j.VerifyRefreshToken(token, now).value;
      var after := Rotate(j, rows, token, userAgent, ip, now, false, false, a1, r1, rec1, true).1;
      c.id in after && after[c.id].revoked &&
      after[c.id].replacedBy == Some(j.VerifyRefreshToken(Rotate(j, rows, token, userAgent, ip, now, false, false, a1, r1, rec1, true).0.value.refreshToken, now).value.id) &&
      Rotate(j, after, token, ua2, ip2, now2, failure2, storeFails2, a2, r2, rec2, persist2).0.Err?
  {
    var c := j.VerifyRefreshToken(token, now).value;
    var after := Rotate(j, rows, token, userAgent, ip, now, false, false, a1, r1, rec1, true).1;
    assert c.id in after && after[c.id].revoked;
    var v := j.VerifyRefreshToken(token, now2);
    if v.Ok? {
      assert v.value == c;
    }
  }

  /** After a successful logout the refresh token can no longer be exchanged. */
  lemma LogoutThenRefreshRefused(j: JwtService, rows: Rows, token: string, now: Time,
                                 userAgent: string, ip: string, now2: Time, failure: bool, storeFails: bool, a: Uuid, r: Uuid, rec: Uuid, persist: bool)
    requires Logout(j, rows, token, now, false).0.Ok?
    ensures Rotate(j, Logout(j, rows, token, now, false).1, token, userAgent, ip, now2, failure, storeFails, a, r, rec, persist).0.Err?
  {
    var c := j.VerifyRefreshToken(token, now).value;
    var v := j.VerifyRefreshToken(token, now2);
    if v.Ok? {
      assert v.value == c;
    }
  }

  /**
   * A refresh token just issued by `GenerateTokens` can be exchanged at once,
   * and the new pair carries the identity, email and roles of the old one.
   */
  lemma IssuedThenRotated(j: JwtService, rows: Rows, userId: Uuid, email: string, roles: seq<string>, userAgent: string, ip: string,
                          now: Time, a1: Uuid, r1: Uuid, rec1: Uuid, a2: Uuid, r2: Uuid, rec2: Uuid, persist: bool)
    requires Sound(j.codec)
    requires Issue(j, rows, userId, email, roles, userAgent, ip, now, a1, r1, rec1, false).0.Ok?
    requires var after := Issue(j, rows, userId, email, roles, userAgent, ip, now, a1, r1, rec1, false).1;
      UuidString(r2) !in after && forall t :: t in after ==> after[t].id != rec2
    ensures var o := Issue(j, rows, userId, email, roles, userAgent, ip, now, a1, r1, rec1, false);
      var rot := Rotate(j, o.1, o.0.value.refreshToken, userAgent, ip, now, false, false, a2, r2, rec2, persist);
      rot.0.Ok? && j.GenerateTokenPair(userId, email, roles, now, a2, r2) == Ok(rot.0.value)
  {
    var o := Issue(j, rows, userId, email, roles, userAgent, ip, now, a1, r1, rec1, false);
    var pair := o.0.value;
    var n1 := j.IssuedClaims(userId, email, roles, TokenTypeRefresh, UuidString(r1), now, j.refreshTtl);
    IssuedTokensVerify(j, userId, email, roles, now, a1, r1, now);
    assert j.refreshTtl > 0;
    assert j.VerifyRefreshToken(pair.refreshToken, now) == Ok(n1);
    var rec := Stamped(Draft(userId, n1, userAgent, ip), rec1, now);
    assert o.1 == rows[rec.tokenId := rec];
    assert n1.id in o.1 && IsValidAt(o.1[n1.id], now);
    var n2 := j.IssuedClaims(userId, email, roles, TokenTypeRefresh, UuidString(r2), now, j.refreshTtl);
    IssuedTokensVerify(j, userId, email, roles, now, a2, r2, now);
    var recB := Stamped(Draft(userId, n2, userAgent, ip), rec2, now);
    assert recB.tokenId == UuidString(r2) && recB.id == rec2;
    assert Insertable(o.1, recB);
  }

  class AuthService {
    const jwt: JwtService
    const repo: RefreshTokenRepository

    ghost predicate Valid()
      reads this, repo
    {
      repo.Valid()
    }

    constructor (jwt: JwtService, repo: RefreshTokenRepository)
      requires repo.Valid()
      ensures Valid()
      ensures this.jwt == jwt && this.repo == repo
    {
      this.jwt := jwt;
      this.repo := repo;
    }

    method GenerateTokens(userId: Uuid, email: string, roles: seq<string>, userAgent: string, ip: string,
                          now: Time, accessId: Uuid, refreshId: Uuid, recordId: Uuid, storeFails: bool) returns (r: Result<TokenPair, AuthError>)
      requires Valid()
      modifies repo
      ensures Valid()
      ensures (r, repo.rows) == Issue(jwt, old(repo.rows), userId, email, roles, userAgent, ip, now, accessId, refreshId, recordId, storeFails)
    {
      var pr := jwt.GenerateTokenPair(userId, email, roles, now, accessId, refreshId);
      if pr.Err? {
        return Err(TokenGenerationFailed);
      }
      var cr := jwt.VerifyRefreshToken(pr.value.refreshToken, now);
      if cr.Err? {
        return Err(TokenParseFailed);
      }
      var c := cr.value;
      if c.issuedAt.None? || c.expiresAt.None? {
        return Err(NilTimestamp);
      }
      var record := new RefreshToken(userId, c.id, c.issuedAt.value, c.expiresAt.value, userAgent, ip);
      var err := repo.Create(record, recordId, now, storeFails);
      if err.Some? {
        return Err(StoreFailed);
      }
      return Ok(pr.value);
    }

    /**
     * `RefreshTokens` as written; `lookupFailure` and `storeFails` stand for
     * database errors on the lookup and on the insert.
     */
    method RefreshTokens(token: string, userAgent: string, ip: string, now: Time, lookupFailure: bool, storeFails: bool,
                         accessId: Uuid, refreshId: Uuid, recordId: Uuid) returns (r: Result<TokenPair, AuthError>)
      requires Valid()
      modifies repo
      ensures Valid()
      ensures (r, repo.rows) == Rotate(jwt, old(repo.rows), token, userAgent, ip, now, lookupFailure, storeFails, accessId, refreshId, recordId, false)
    {
      r := RotateWith(token, userAgent, ip, now, lookupFailure, storeFails, accessId, refreshId, recordId, false);
    }

    /** The rotation with the consumed token's revocation written back. */
    method RefreshTokensCorrected(token: string, userAgent: string, ip: string, now: Time, lookupFailure: bool, storeFails: bool,
                                  accessId: Uuid, refreshId: Uuid, recordId: Uuid) returns (r: Result<TokenPair, AuthError>)
      requires Valid()
      modifies repo
      ensures Valid()
      ensures (r, repo.rows) == Rotate(jwt, old(repo.rows), token, userAgent, ip, now, lookupFailure, storeFails, accessId, refreshId, recordId, true)
    {
      r := RotateWith(token, userAgent, ip, now, lookupFailure, storeFails, accessId, refreshId, recordId, true);
    }

    method RotateWith(token: string, userAgent: string, ip: string, now: Time, lookupFailure: bool, storeFails: bool,
                      accessId: Uuid, refreshId: Uuid, recordId: Uuid, persist: bool) returns (r: Result<TokenPair, AuthError>)
      requires Valid()
      modifies repo
      ensures Valid()
      ensures (r, repo.rows) == Rotate(jwt, old(repo.rows), token, userAgent, ip, now, lookupFailure, storeFails, accessId, refreshId, recordId, persist)
    {
      var cr := jwt.VerifyRefreshToken(token, now);
      if cr.Err? {
        return Err(InvalidRefreshToken);
      }
      var c := cr.value;
      var stored, err := repo.GetByTokenId(c.id, lookupFailure);
      if err.Some? {
        if err.value == RecordNotFound {
          return Err(RefreshTokenNotFound);
        }
        return Err(LookupFailed);
      }
      if !stored.IsValid(now) {
        return Err(RevokedOrExpired);
      }
      var pr := jwt.GenerateTokenPair(c.userId, c.email, c.roles, now, accessId, refreshId);
      if pr.Err? {
        return Err(TokenGenerationFailed);
      }
      var nr := jwt.VerifyRefreshToken(pr.value.refreshToken, now);
      if nr.Err? {
        return Err(TokenParseFailed);
      }
      var nc := nr.value;
      stored.RevokeAndReplace(nc.id, now);
      if nc.issuedAt.None? || nc.expiresAt.None? {
        return Err(NilTimestamp);
      }
      var record := new RefreshToken(c.userId, nc.id, nc.issuedAt.value, nc.expiresAt.value, userAgent, ip);
      var e2 := repo.Create(record, recordId, now, storeFails);
      if e2.Some? {
        return Err(StoreFailed);
      }
      if persist {
        repo.SaveReplacement(c.id, nc.id, now);
      }
      return Ok(pr.value);
    }

    /** `RevokeToken`; `fails` stands for a database error on the update. */
    method RevokeToken(token: string, now: Time, fails: bool) returns (r: Result<(), AuthError>)
      requires Valid()
      modifies repo
      ensures Valid()
      ensures (r, repo.rows) == Logout(jwt, old(repo.rows), token, now, fails)
    {
      var cr := jwt.VerifyRefreshToken(token, now);
      if cr.Err? {
        return Err(InvalidRefreshToken);
      }
      var err := repo.RevokeByTokenId(cr.value.id, now, fails);
      if err.Some? {
        return Err(RevokeFailed);
      }
      return Ok(());
    }

    /** `RevokeAllUserTokens`; `fails` stands for a database error on the update. */
    method RevokeAllUserTokens(userId: Uuid, now: Time, fails: bool) returns (r: Result<(), AuthError>)
      requires Valid()
      modifies repo
      ensures Valid()
      ensures r == if fails then Err(RevokeFailed) else Ok(())
      ensures repo.rows == if fails then old(repo.rows) else RevokeUser(old(repo.rows), userId, now)
    {
      var err := repo.RevokeAllUserTokens(userId, now, fails);
      if err.Some? {
        return Err(RevokeFailed);
      }
      return Ok(());
    }

    /** `CleanupExpiredTokens`: the repository's error is passed on as it is. */
    method CleanupExpiredTokens(now: Time, fails: bool) returns (err: Option<DbError>)
      requires Valid()
      modifies repo
      ensures Valid()
      ensures err == if fails then Some(Unavailable) else None
      ensures repo.rows == if fails then old(repo.rows) else Cleaned(old(repo.rows), now)
    {
      err := repo.CleanExpiredTokens(now, fails);
    }
  }
}
