/**
 * The stored refresh-token record and the in-memory object the service
 * works on (`RefreshToken` with its hook and its methods on `*RefreshToken`).
 */
module RefreshTokens {
  import opened Wrappers
  import opened Ids

  /** One row of `refresh_tokens`. */
  datatype TokenRecord = TokenRecord(
    id: Uuid,
    userId: Uuid,
    tokenId: string,            // the `jti` of the refresh token
    issuedAt: Time,
    expiresAt: Time,
    revoked: bool,
    replacedBy: Option<string>,
    userAgent: Option<string>,
    ip: Option<string>,
    createdAt: Time,
    updatedAt: Time)

  /** `IsValid`: not revoked and expiring strictly after now. */
  predicate IsValidAt(r: TokenRecord, now: Time)
  {
    !r.revoked && r.expiresAt > now
  }

  /** `IsExpired`: expired strictly before now. */
  predicate IsExpiredAt(r: TokenRecord, now: Time)
  {
    r.expiresAt < now
  }

  /** A valid token is never expired; at the exact expiry instant a token is neither. */
  lemma ValidityAndExpiry(r: TokenRecord, now: Time)
    ensures IsValidAt(r, now) ==> !IsExpiredAt(r, now)
    ensures r.expiresAt == now ==> !IsValidAt(r, now) && !IsExpiredAt(r, now)
    ensures !r.revoked ==> (IsValidAt(r, now) || IsExpiredAt(r, now) || r.expiresAt == now)
  {
  }

  /** The effect of the `BeforeCreate` hook: a nil id and a zero issue time are filled in. */
  function AfterHook(r: TokenRecord, freshId: Uuid, now: Time): (s: TokenRecord)
    ensures s.id != NilUuid || freshId == NilUuid
    ensures r.id != NilUuid ==> s.id == r.id
    ensures s.issuedAt == (if r.issuedAt == ZeroTime then now else r.issuedAt)
    ensures s.userId == r.userId && s.tokenId == r.tokenId && s.expiresAt == r.expiresAt && s.revoked == r.revoked
    ensures s.replacedBy == r.replacedBy && s.userAgent == r.userAgent && s.ip == r.ip
    ensures s.createdAt == r.createdAt && s.updatedAt == r.updatedAt
  {
    var id := if r.id == NilUuid then freshId else r.id;
    var issued := if r.issuedAt == ZeroTime then now else r.issuedAt;
    TokenRecord(id, r.userId, r.tokenId, issued, r.expiresAt, r.revoked, r.replacedBy, r.userAgent, r.ip, r.createdAt, r.updatedAt)
  }

  class RefreshToken {
    var id: Uuid
    var userId: Uuid
    var tokenId: string
    var issuedAt: Time
    var expiresAt: Time
    var revoked: bool
    var replacedBy: Option<string>
    var userAgent: Option<string>
    var ip: Option<string>
    var createdAt: Time
    var updatedAt: Time

    function Snapshot(): TokenRecord
      reads this
    {
      TokenRecord(id, userId, tokenId, issuedAt, expiresAt, revoked, replacedBy, userAgent, ip, createdAt, updatedAt)
    }

    /** The struct literal the service builds before storing a token; the other fields are zero. */
    constructor (userId: Uuid, tokenId: string, issuedAt: Time, expiresAt: Time, userAgent: string, ip: string)
      ensures Snapshot() == TokenRecord(NilUuid, userId, tokenId, issuedAt, expiresAt, false, None,
                                        Some(userAgent), Some(ip), ZeroTime, ZeroTime)
    {
      this.id := NilUuid;
      this.userId := userId;
      this.tokenId := tokenId;
      this.issuedAt := issuedAt;
      this.expiresAt := expiresAt;
      this.revoked := false;
      this.replacedBy := None;
      this.userAgent := Some(userAgent);
      this.ip := Some(ip);
      this.createdAt := ZeroTime;
      this.updatedAt := ZeroTime;
    }

    /** A copy of a stored row, as gorm scans it into a new struct. */
    constructor Load(r: TokenRecord)
      ensures Snapshot() == r
    {
      id, userId, tokenId, issuedAt, expiresAt := r.id, r.userId, r.tokenId, r.issuedAt, r.expiresAt;
      revoked, replacedBy, userAgent, ip := r.revoked, r.replacedBy, r.userAgent, r.ip;
      createdAt, updatedAt := r.createdAt, r.updatedAt;
    }

    predicate IsValid(now: Time)
      reads this
    {
      IsValidAt(Snapshot(), now)
    }

    predicate IsExpired(now: Time)
      reads this
    {
      IsExpiredAt(Snapshot(), now)
    }

    /** `BeforeCreate`. */
    method BeforeCreate(freshId: Uuid, now: Time)
      modifies this
      ensures Snapshot() == AfterHook(old(Snapshot()), freshId, now)
    {
      if id == NilUuid {
        id := freshId;
      }
      if issuedAt == ZeroTime {
        issuedAt := now;
      }
    }

    /** `Revoke`. */
    method Revoke(now: Time)
      modifies this
      ensures Snapshot() == old(Snapshot()).(revoked := true, updatedAt := now)
      ensures !IsValid(now)
    {
      revoked := true;
      updatedAt := now;
    }

    /** `RevokeAndReplace`. */
    method RevokeAndReplace(replacement: string, now: Time)
      modifies this
      ensures Snapshot() == old(Snapshot()).(revoked := true, replacedBy := Some(replacement), updatedAt := now)
      ensures !IsValid(now)
    {
      revoked := true;
      replacedBy := Some(replacement);
      updatedAt := now;
    }
  }
}
