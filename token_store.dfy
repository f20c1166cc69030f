/**
 * The `refresh_tokens` table behind `refreshTokenRepository`: rows keyed by
 * their unique `token_id`, with unique primary keys.
 */
module TokenStore {
  import opened Wrappers
  import opened Ids
  import opened Storage
  import opened RefreshTokens

  type Rows = map<string, TokenRecord>

  /** The unique index on `token_id` and the primary key on `id`. */
  ghost predicate WellKeyed(rows: Rows)
  {
    (forall t :: t in rows ==> rows[t].tokenId == t) &&
    (forall t, u :: t in rows && u in rows && t != u ==> rows[t].id != rows[u].id)
  }

  /** Whether a row can be inserted without violating either key. */
  predicate Insertable(rows: Rows, r: TokenRecord)
  {
    r.tokenId !in rows && forall t :: t in rows ==> rows[t].id != r.id
  }

  /** What gorm stores on `Create`: the hook's effect, then zero timestamps set to now. */
  function Stamped(r: TokenRecord, freshId: Uuid, now: Time): (s: TokenRecord)
    ensures s.createdAt == (if r.createdAt == ZeroTime then now else r.createdAt)
    ensures s.updatedAt == (if r.updatedAt == ZeroTime then now else r.updatedAt)
    ensures s.tokenId == r.tokenId && s.userId == r.userId && s.expiresAt == r.expiresAt && s.revoked == r.revoked
  {
    var h := AfterHook(r, freshId, now);
    h.(createdAt := if h.createdAt == ZeroTime then now else h.createdAt,
       updatedAt := if h.updatedAt == ZeroTime then now else h.updatedAt)
  }

  /** The row after `Update("revoked", true)`: gorm also refreshes `updated_at`. */
  function Revoked(r: TokenRecord, now: Time): (s: TokenRecord)
  {
    r.(revoked := true, updatedAt := now)
  }

  /** `RevokeByTokenID`: at most the one row with that token id. */
  function RevokeTokenId(rows: Rows, tokenId: string, now: Time): (r: Rows)
  {
    if tokenId in rows then rows[tokenId := Revoked(rows[tokenId], now)] else rows
  }

  /** `RevokeAllUserTokens`: every row of the user. */
  function RevokeUser(rows: Rows, userId: Uuid, now: Time): (r: Rows)
  {
    map t | t in rows :: if rows[t].userId == userId then Revoked(rows[t], now) else rows[t]
  }

  /** `CleanExpiredTokens`: rows expiring strictly before now are deleted. */
  function Cleaned(rows: Rows, now: Time): (r: Rows)
  {
    map t | t in rows && !IsExpiredAt(rows[t], now) :: rows[t]
  }

  /**
   * The revocation of a consumed token together with its successor, as the
   * corrected rotation persists it (the source keeps it in memory only).
   */
  function ReplaceTokenId(rows: Rows, tokenId: string, replacement: string, now: Time): (r: Rows)
  {
    if tokenId in rows then rows[tokenId := rows[tokenId].(revoked := true, replacedBy := Some(replacement), updatedAt := now)]
    else rows
  }

  /** No operation ever clears a revocation. */
  predicate NeverUnrevoked(before: Rows, after: Rows)
  {
    forall t :: t in before && t in after && before[t].revoked ==> after[t].revoked
  }

  // ------------------------------------------------------------------ lemmas

  /** After revoking a token id no row with that id is valid at any time; every other row is as it was. */
  lemma RevokeTokenIdEffect(rows: Rows, tokenId: string, now: Time, later: Time)
    ensures var r := RevokeTokenId(rows, tokenId, now);
      r.Keys == rows.Keys && NeverUnrevoked(rows, r) &&
      (tokenId in r ==> !IsValidAt(r[tokenId], later)) &&
      (forall t :: t in rows && t != tokenId ==> r[t] == rows[t])
  {
  }

  /** After revoking a user's tokens none of them is valid, and other users' rows are untouched. */
  lemma RevokeUserEffect(rows: Rows, userId: Uuid, now: Time, later: Time)
    ensures var r := RevokeUser(rows, userId, now);
      r.Keys == rows.Keys && NeverUnrevoked(rows, r) &&
      (forall t :: t in r && r[t].userId == userId ==> !IsValidAt(r[t], later)) &&
      (forall t :: t in rows && rows[t].userId != userId ==> r[t] == rows[t])
  {
  }

  /** Cleaning keeps exactly the unexpired rows, unchanged; in particular every valid token survives. */
  lemma CleanedEffect(rows: Rows, now: Time)
    ensures var r := Cleaned(rows, now);
      (forall t :: t in r ==> t in rows && r[t] == rows[t] && !IsExpiredAt(r[t], now)) &&
      (forall t :: t in rows && !IsExpiredAt(rows[t], now) ==> t in r) &&
      (forall t :: t in rows && IsValidAt(rows[t], now) ==> t in r)
  {
  }

  lemma OperationsKeepKeys(rows: Rows, tokenId: string, userId: Uuid, now: Time)
    requires WellKeyed(rows)
    ensures WellKeyed(RevokeTokenId(rows, tokenId, now))
    ensures WellKeyed(RevokeUser(rows, userId, now))
    ensures WellKeyed(Cleaned(rows, now))
    ensures forall r: string :: WellKeyed(ReplaceTokenId(rows, tokenId, r, now))
  {
  }

  // -------------------------------------------------------------- repository

  class RefreshTokenRepository {
    var rows: Rows

    ghost predicate Valid()
      reads this
    {
      WellKeyed(rows)
    }

    constructor ()
      ensures Valid() && rows == map[]
    {
      rows := map[];
    }

    /**
     * `Create`: runs the hook and sets the timestamps on the object, then
     * inserts it unless the database fails (`fails`) or a key is taken.
     */
    method Create(token: RefreshToken, freshId: Uuid, now: Time, fails: bool) returns (err: Option<DbError>)
      requires Valid()
      modifies this, token
      ensures Valid()
      ensures token.Snapshot() == Stamped(old(token.Snapshot()), freshId, now)
      ensures err.None? <==> !fails && Insertable(old(rows), token.Snapshot())
      ensures err.Some? ==> err == Some(if fails then Unavailable else DuplicateKey)
      ensures rows == if err.None? then old(rows)[token.tokenId := token.Snapshot()] else old(rows)
    {
      token.BeforeCreate(freshId, now);
      if token.createdAt == ZeroTime {
        token.createdAt := now;
      }
      if token.updatedAt == ZeroTime {
        token.updatedAt := now;
      }
      var r := token.Snapshot();
      if fails {
        err := Some(Unavailable);
      } else if Insertable(rows, r) {
        rows := rows[r.tokenId := r];
        err := None;
      } else {
        err := Some(DuplicateKey);
      }
    }

    /** `GetByTokenID`: a new object holding a copy of the row; `failure` stands for a database error. */
    method GetByTokenId(tokenId: string, failure: bool) returns (t: RefreshToken?, err: Option<DbError>)
      ensures failure ==> t == null && err == Some(Unavailable)
      ensures !failure && tokenId !in rows ==> t == null && err == Some(RecordNotFound)
      ensures !failure && tokenId in rows ==> err.None? && t != null && fresh(t) && t.Snapshot() == rows[tokenId]
    {
      if failure {
        t, err := null, Some(Unavailable);
      } else if tokenId !in rows {
        t, err := null, Some(RecordNotFound);
      } else {
        t := new RefreshToken.Load(rows[tokenId]);
        err := None;
      }
    }

    /** `RevokeByTokenID`: no error when no row matches; `fails` stands for a database error. */
    method RevokeByTokenId(tokenId: string, now: Time, fails: bool) returns (err: Option<DbError>)
      requires Valid()
      modifies this
      ensures Valid()
      ensures err == if fails then Some(Unavailable) else None
      ensures rows == if fails then old(rows) else RevokeTokenId(old(rows), tokenId, now)
    {
      if fails {
        return Some(Unavailable);
      }
      OperationsKeepKeys(rows, tokenId, NilUuid, now);
      rows := RevokeTokenId(rows, tokenId, now);
      err := None;
    }

    /**
     * Persists the revocation and successor of a consumed token. This
     * operation belongs to the corrected rotation; the source's repository
     * has no counterpart.
     */
    method SaveReplacement(tokenId: string, replacement: string, now: Time)
      requires Valid()
      modifies this
      ensures Valid()
      ensures rows == ReplaceTokenId(old(rows), tokenId, replacement, now)
    {
      OperationsKeepKeys(rows, tokenId, NilUuid, now);
      rows := ReplaceTokenId(rows, tokenId, replacement, now);
    }

    /** `RevokeAllUserTokens`; `fails` stands for a database error. */
    method RevokeAllUserTokens(userId: Uuid, now: Time, fails: bool) returns (err: Option<DbError>)
      requires Valid()
      modifies this
      ensures Valid()
      ensures err == if fails then Some(Unavailable) else None
      ensures rows == if fails then old(rows) else RevokeUser(old(rows), userId, now)
    {
      if fails {
        return Some(Unavailable);
      }
      OperationsKeepKeys(rows, "", userId, now);
      rows := RevokeUser(rows, userId, now);
      err := None;
    }

    /** `CleanExpiredTokens`; `fails` stands for a database error. */
    method CleanExpiredTokens(now: Time, fails: bool) returns (err: Option<DbError>)
      requires Valid()
      modifies this
      ensures Valid()
      ensures err == if fails then Some(Unavailable) else None
      ensures rows == if fails then old(rows) else Cleaned(old(rows), now)
    {
      if fails {
        return Some(Unavailable);
      }
      OperationsKeepKeys(rows, "", NilUuid, now);
      rows := Cleaned(rows, now);
      err := None;
    }
  }
}
