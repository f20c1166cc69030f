/**
 * The user's library: favorites, listening history and downloads, three
 * tables of per-user rows, and the service that guards them (one favorite
 * per provider track, downloads created pending, owner-scoped removal).
 */
module Library {
  import opened Wrappers
  import opened Ids
  import opened Storage
  import opened Paging

  datatype TrackData = TrackData(
    provider: string, providerTrackId: string, title: string, artist: string, album: string,
    durationMs: int, artworkUrl: string)

  datatype Favorite = Favorite(id: Uuid, userId: Uuid, track: TrackData, addedAt: Time)

  datatype History = History(id: Uuid, userId: Uuid, track: TrackData, playedAt: Time)

  datatype Download = Download(
    id: Uuid, userId: Uuid, track: TrackData, state: string, localPath: Option<string>,
    fileSize: Option<int>, quality: string, createdAt: Time, updatedAt: Time)

  const StatePending := "pending"
  const StateDownloading := "downloading"
  const StateCompleted := "completed"
  const StateFailed := "failed"
  const StatePaused := "paused"

  datatype LibraryError =
    | InvalidUserId
    | InvalidFavoriteId
    | InvalidDownloadId
    | FavoriteExists
    | FavoriteNotFound
    | DownloadNotFound
    | Db(cause: DbError)

  // ------------------------------------------------------------------ table operations

  /** An INSERT: refused when the primary key is taken. */
  function Insert<T(==)>(rows: seq<T>, x: T, idOf: T -> Uuid, fails: bool): (r: (Option<DbError>, seq<T>))
    ensures fails ==> r == (Some(Unavailable), rows)
    ensures !fails && (exists y :: y in rows && idOf(y) == idOf(x)) ==> r == (Some(DuplicateKey), rows)
    ensures r.0.None? <==> !fails && forall y :: y in rows ==> idOf(y) != idOf(x)
    ensures r.0.None? ==> r.1 == rows + [x]
  {
    if fails then (Some(Unavailable), rows)
    else if exists y :: y in rows && idOf(y) == idOf(x) then (Some(DuplicateKey), rows)
    else (None, rows + [x])
  }

  /**
   * A DELETE ... WHERE `hit`. A delete that matches no row is not an error;
   * with `countRows` the caller treats zero affected rows as not found.
   */
  function DeleteWhere<T(==)>(rows: seq<T>, hit: T -> bool, fails: bool, countRows: bool): (r: (Option<DbError>, seq<T>))
    ensures fails ==> r == (Some(Unavailable), rows)
    ensures !fails ==> forall x :: x in r.1 ==> x in rows && !hit(x)
    ensures !fails ==> forall x :: x in rows && !hit(x) ==> x in r.1
    ensures !fails && !countRows ==> r.0 == None
    ensures !fails && countRows ==> (r.0 == Some(RecordNotFound) <==> forall x :: x in rows ==> !hit(x))
    ensures !fails && countRows ==> r.0.None? || r.0 == Some(RecordNotFound)
  {
    if fails then (Some(Unavailable), rows)
    else
      var kept := Filter(rows, (x: T) => !hit(x));
      if countRows && forall x :: x in rows ==> !hit(x) then (Some(RecordNotFound), kept)
      else (None, kept)
  }

  /** A `Save`: the row with the same primary key is replaced, or the row is appended. */
  function Upsert<T(==)>(rows: seq<T>, x: T, idOf: T -> Uuid): (r: seq<T>)
    ensures x in r
    ensures forall y :: y in r ==> y == x || y in rows
    ensures forall y :: y in rows && idOf(y) != idOf(x) ==> y in r
    ensures |r| == |rows| || r == rows + [x]
  {
    if rows == [] then [x]
    else if idOf(rows[0]) == idOf(x) then [x] + rows[1..]
    else
      assert forall y :: y in rows ==> y == rows[0] || y in rows[1..];
      var rest := Upsert(rows[1..], x, idOf);
      [rows[0]] + rest
  }

  function FavoriteId(): Favorite -> Uuid { (f: Favorite) => f.id }
  function HistoryId(): History -> Uuid { (h: History) => h.id }
  function DownloadId(): Download -> Uuid { (d: Download) => d.id }

  function FavoriteOf(userId: Uuid): Favorite -> bool { (f: Favorite) => f.userId == userId }
  function HistoryOf(userId: Uuid): History -> bool { (h: History) => h.userId == userId }

  /** The download listing's where-clause: the user's rows, restricted to one state when one is given. */
  function DownloadsWhere(userId: Uuid, state: Option<string>): Download -> bool
  {
    (d: Download) => d.userId == userId && (state.None? || d.state == state.value)
  }

  function AddedKey(): Favorite -> int { (f: Favorite) => f.addedAt }
  function PlayedKey(): History -> int { (h: History) => h.playedAt }
  function CreatedKey(): Download -> int { (d: Download) => d.createdAt }

  /** The removals' where-clause: both the owner and the row id must match. */
  function FavoriteHit(userId: Uuid, id: Uuid): Favorite -> bool { (f: Favorite) => f.userId == userId && f.id == id }
  function DownloadHit(userId: Uuid, id: Uuid): Download -> bool { (d: Download) => d.userId == userId && d.id == id }

  predicate SameTrack(f: Favorite, userId: Uuid, provider: string, providerTrackId: string)
  {
    f.userId == userId && f.track.provider == provider && f.track.providerTrackId == providerTrackId
  }

  /** `FindFavoriteByTrackID`: the user's favorite of that provider track, matched on all three columns. */
  function FindFavorite(favs: seq<Favorite>, userId: Uuid, provider: string, providerTrackId: string, fails: bool)
    : (r: Result<Favorite, DbError>)
    ensures fails ==> r == Err(Unavailable)
    ensures !fails ==> (r.Ok? <==> exists f :: f in favs && SameTrack(f, userId, provider, providerTrackId))
    ensures !fails && r.Err? ==> r.error == RecordNotFound
    ensures r.Ok? ==> r.value in favs && SameTrack(r.value, userId, provider, providerTrackId)
  {
    if fails then Err(Unavailable)
    else if favs == [] then Err(RecordNotFound)
    else if SameTrack(favs[0], userId, provider, providerTrackId) then Ok(favs[0])
    else
      assert forall f :: f in favs ==> f == favs[0] || f in favs[1..];
      FindFavorite(favs[1..], userId, provider, providerTrackId, false)
  }

  /** No user has two favorites of the same provider track. */
  ghost predicate NoDuplicateFavorites(favs: seq<Favorite>)
  {
    forall i, j :: 0 <= i < j < |favs| && favs[i].userId == favs[j].userId ==>
      favs[i].track.provider != favs[j].track.provider || favs[i].track.providerTrackId != favs[j].track.providerTrackId
  }

  // ------------------------------------------------------------------ service rules

  /**
   * `AddFavorite`: the user id is checked first; then an existing favorite of
   * the same provider track refuses the insert, and any lookup error other
   * than not-found is passed on.
   */
  function FavoriteAdded(favs: seq<Favorite>, userIdText: string, data: TrackData, freshId: Uuid, now: Time,
                         lookupFails: bool, insertFails: bool): (r: (Result<Favorite, LibraryError>, seq<Favorite>))
    ensures ParseUuid(userIdText).None? ==> r.0 == Err(InvalidUserId)
    ensures r.0.Err? ==> r.1 == favs
    ensures lookupFails && ParseUuid(userIdText).Some? ==> r.0 == Err(Db(Unavailable))
    ensures ParseUuid(userIdText).Some? && !lookupFails &&
            (exists f :: f in favs && SameTrack(f, ParseUuid(userIdText).value, data.provider, data.providerTrackId)) ==>
      r.0 == Err(FavoriteExists)
    ensures r.0.Ok? ==>
      ParseUuid(userIdText).Some? && r.0.value == Favorite(freshId, ParseUuid(userIdText).value, data, now) &&
      r.1 == favs + [r.0.value] &&
      forall f :: f in favs ==> !SameTrack(f, ParseUuid(userIdText).value, data.provider, data.providerTrackId)
    ensures r.0.Ok? <==>
      ParseUuid(userIdText).Some? && !lookupFails && !insertFails &&
      (forall f :: f in favs ==> !SameTrack(f, ParseUuid(userIdText).value, data.provider, data.providerTrackId)) &&
      (forall f :: f in favs ==> f.id != freshId)
    ensures ParseUuid(userIdText).Some? && !lookupFails && insertFails &&
            (forall f :: f in favs ==> !SameTrack(f, ParseUuid(userIdText).value, data.provider, data.providerTrackId)) ==>
      r.0 == Err(Db(Unavailable))
  {
    match ParseUuid(userIdText)
    case None => (Err(InvalidUserId), favs)
    case Some(uid) =>
      match FindFavorite(favs, uid, data.provider, data.providerTrackId, lookupFails)
      case Ok(_) => (Err(FavoriteExists), favs)
      case Err(e) =>
        if e != RecordNotFound then (Err(Db(e)), favs)
        else
          var f := Favorite(freshId, uid, data, now);
          var ins := Insert(favs, f, FavoriteId(), insertFails);
          if ins.0.Some? then (Err(Db(ins.0.value)), favs) else (Ok(f), ins.1)
  }

  /** `AddHistory`: every play is appended, the same track as often as it is played. */
  function HistoryAdded(hist: seq<History>, userIdText: string, data: TrackData, freshId: Uuid, now: Time, fails: bool)
    : (r: (Result<History, LibraryError>, seq<History>))
    ensures ParseUuid(userIdText).None? ==> r.0 == Err(InvalidUserId)
    ensures r.0.Err? ==> r.1 == hist
    ensures r.0.Ok? <==> ParseUuid(userIdText).Some? && !fails && forall h :: h in hist ==> h.id != freshId
    ensures r.0.Ok? ==> r.0.value == History(freshId, ParseUuid(userIdText).value, data, now) && r.1 == hist + [r.0.value]
  {
    match ParseUuid(userIdText)
    case None => (Err(InvalidUserId), hist)
    case Some(uid) =>
      var h := History(freshId, uid, data, now);
      var ins := Insert(hist, h, HistoryId(), fails);
      if ins.0.Some? then (Err(Db(ins.0.value)), hist) else (Ok(h), ins.1)
  }

  /** `AddDownload`: a new download starts pending, with the requested quality and no file yet. */
  function DownloadAdded(downloads: seq<Download>, userIdText: string, data: TrackData, quality: string,
                         freshId: Uuid, now: Time, fails: bool): (r: (Result<Download, LibraryError>, seq<Download>))
    ensures ParseUuid(userIdText).None? ==> r.0 == Err(InvalidUserId)
    ensures r.0.Err? ==> r.1 == downloads
    ensures r.0.Ok? <==> ParseUuid(userIdText).Some? && !fails && forall d :: d in downloads ==> d.id != freshId
    ensures r.0.Ok? ==>
      r.0.value.state == StatePending && r.0.value.quality == quality && r.0.value.localPath.None? &&
      r.0.value.fileSize.None? && r.0.value.userId == ParseUuid(userIdText).value && r.0.value.track == data &&
      r.1 == downloads + [r.0.value]
  {
    match ParseUuid(userIdText)
    case None => (Err(InvalidUserId), downloads)
    case Some(uid) =>
      var d := Download(freshId, uid, data, StatePending, None, None, quality, now, now);
      var ins := Insert(downloads, d, DownloadId(), fails);
      if ins.0.Some? then (Err(Db(ins.0.value)), downloads) else (Ok(d), ins.1)
  }

  /**
   * `RemoveFavorite`: both ids are checked, then the user's row with that id
   * is deleted; a not-found report from the delete becomes `FavoriteNotFound`.
   * `countRows` says whether the delete reports zero affected rows as not found.
   */
  function FavoriteRemoved(favs: seq<Favorite>, userIdText: string, favoriteIdText: string, fails: bool, countRows: bool)
    : (r: (Result<(), LibraryError>, seq<Favorite>))
    ensures ParseUuid(userIdText).None? ==> r == (Err(InvalidUserId), favs)
    ensures ParseUuid(userIdText).Some? && ParseUuid(favoriteIdText).None? ==> r == (Err(InvalidFavoriteId), favs)
    ensures fails ==> r.1 == favs
    ensures ParseUuid(userIdText).Some? && ParseUuid(favoriteIdText).Some? && fails ==> r.0 == Err(Db(Unavailable))
    ensures forall f :: f in r.1 ==> f in favs
    ensures ParseUuid(userIdText).Some? && ParseUuid(favoriteIdText).Some? && !fails ==>
      var uid, fid := ParseUuid(userIdText).value, ParseUuid(favoriteIdText).value;
      (forall f :: f in r.1 <==> f in favs && !(f.userId == uid && f.id == fid)) &&
      (!countRows ==> r.0 == Ok(())) &&
      (countRows ==> (r.0 == Err(FavoriteNotFound) <==> forall f :: f in favs ==> !(f.userId == uid && f.id == fid)) &&
                     (r.0.Ok? || r.0 == Err(FavoriteNotFound)))
  {
    match ParseUuid(userIdText)
    case None => (Err(InvalidUserId), favs)
    case Some(uid) =>
      match ParseUuid(favoriteIdText)
      case None => (Err(InvalidFavoriteId), favs)
      case Some(fid) =>
        var del := DeleteWhere(favs, FavoriteHit(uid, fid), fails, countRows);
        if del.0 == Some(RecordNotFound) then (Err(FavoriteNotFound), del.1)
        else if del.0.Some? then (Err(Db(del.0.value)), del.1)
        else (Ok(()), del.1)
  }

  /** `RemoveDownload`, the same as `FavoriteRemoved` on the downloads table. */
  function DownloadRemoved(downloads: seq<Download>, userIdText: string, downloadIdText: string, fails: bool, countRows: bool)
    : (r: (Result<(), LibraryError>, seq<Download>))
    ensures ParseUuid(userIdText).None? ==> r == (Err(InvalidUserId), downloads)
    ensures ParseUuid(userIdText).Some? && ParseUuid(downloadIdText).None? ==> r == (Err(InvalidDownloadId), downloads)
    ensures fails ==> r.1 == downloads
    ensures ParseUuid(userIdText).Some? && ParseUuid(downloadIdText).Some? && fails ==> r.0 == Err(Db(Unavailable))
    ensures forall d :: d in r.1 ==> d in downloads
    ensures ParseUuid(userIdText).Some? && ParseUuid(downloadIdText).Some? && !fails ==>
      var uid, did := ParseUuid(userIdText).value, ParseUuid(downloadIdText).value;
      (forall d :: d in r.1 <==> d in downloads && !(d.userId == uid && d.id == did)) &&
      (!countRows ==> r.0 == Ok(())) &&
      (countRows ==> (r.0 == Err(DownloadNotFound) <==> forall d :: d in downloads ==> !(d.userId == uid && d.id == did)) &&
                     (r.0.Ok? || r.0 == Err(DownloadNotFound)))
  {
    match ParseUuid(userIdText)
    case None => (Err(InvalidUserId), downloads)
    case Some(uid) =>
      match ParseUuid(downloadIdText)
      case None => (Err(InvalidDownloadId), downloads)
      case Some(did) =>
        var del := DeleteWhere(downloads, DownloadHit(uid, did), fails, countRows);
        if del.0 == Some(RecordNotFound) then (Err(DownloadNotFound), del.1)
        else if del.0.Some? then (Err(Db(del.0.value)), del.1)
        else (Ok(()), del.1)
  }

  // ------------------------------------------------------------------ lemmas

  /** Adding a favorite through the service never creates a second favorite of the same track for a user. */
  lemma AddFavoriteKeepsNoDuplicates(favs: seq<Favorite>, userIdText: string, data: TrackData, freshId: Uuid, now: Time,
                                     lookupFails: bool, insertFails: bool)
    requires NoDuplicateFavorites(favs)
    ensures NoDuplicateFavorites(FavoriteAdded(favs, userIdText, data, freshId, now, lookupFails, insertFails).1)
  {
    var r := FavoriteAdded(favs, userIdText, data, freshId, now, lookupFails, insertFails);
    if r.0.Ok? {
      var after := r.1;
      forall i, j | 0 <= i < j < |after| && after[i].userId == after[j].userId
        ensures after[i].track.provider != after[j].track.provider || after[i].track.providerTrackId != after[j].track.providerTrackId
      {
        if j == |favs| {
          assert after[i] in favs;
        }
      }
    }
  }

  /** Removal only ever deletes the caller's own row with that id: other users' rows, and the caller's other rows, stay. */
  lemma RemovalIsOwnerScoped(favs: seq<Favorite>, downloads: seq<Download>, userIdText: string, idText: string,
                             fails: bool, countRows: bool)
    ensures forall f :: f in favs && !(Some(f.userId) == ParseUuid(userIdText) && Some(f.id) == ParseUuid(idText)) ==>
      f in FavoriteRemoved(favs, userIdText, idText, fails, countRows).1
    ensures forall d :: d in downloads && !(Some(d.userId) == ParseUuid(userIdText) && Some(d.id) == ParseUuid(idText)) ==>
      d in DownloadRemoved(downloads, userIdText, idText, fails, countRows).1
  {
  }

  /**
   * As written, a delete matching no row is not an error, so removing a
   * favorite or download that does not exist, or belongs to someone else,
   * succeeds, and the not-found errors are never produced.
   */
  lemma MissingEntryRemovalSucceeds(favs: seq<Favorite>, downloads: seq<Download>, userIdText: string, idText: string)
    requires ParseUuid(userIdText).Some? && ParseUuid(idText).Some?
    requires forall f :: f in favs ==> !(f.userId == ParseUuid(userIdText).value && f.id == ParseUuid(idText).value)
    requires forall d :: d in downloads ==> !(d.userId == ParseUuid(userIdText).value && d.id == ParseUuid(idText).value)
    ensures FavoriteRemoved(favs, userIdText, idText, false, false).0 == Ok(())
    ensures DownloadRemoved(downloads, userIdText, idText, false, false).0 == Ok(())
    ensures forall fails :: FavoriteRemoved(favs, userIdText, idText, fails, false).0 != Err(FavoriteNotFound)
  {
  }

  /** When zero affected rows count as not found, the not-found errors mean exactly that no row of the caller's had that id. */
  lemma CountedRemovalReportsMissing(favs: seq<Favorite>, downloads: seq<Download>, userIdText: string, idText: string)
    requires ParseUuid(userIdText).Some? && ParseUuid(idText).Some?
    ensures FavoriteRemoved(favs, userIdText, idText, false, true).0 == Err(FavoriteNotFound) <==>
      forall f :: f in favs ==> !(f.userId == ParseUuid(userIdText).value && f.id == ParseUuid(idText).value)
    ensures DownloadRemoved(downloads, userIdText, idText, false, true).0 == Err(DownloadNotFound) <==>
      forall d :: d in downloads ==> !(d.userId == ParseUuid(userIdText).value && d.id == ParseUuid(idText).value)
    ensures FavoriteRemoved(favs, userIdText, idText, false, true).0 != Err(FavoriteNotFound) ==>
      FavoriteRemoved(favs, userIdText, idText, false, true).0 == Ok(())
  {
  }

  // ------------------------------------------------------------------ imperative shell

  class LibraryRepository {
    var favorites: seq<Favorite>
    var history: seq<History>
    var downloads: seq<Download>

    constructor ()
      ensures favorites == [] && history == [] && downloads == []
    {
      favorites, history, downloads := [], [], [];
    }

    method AddFavorite(f: Favorite, fails: bool) returns (err: Option<DbError>)
      modifies this
      ensures (err, favorites) == Insert(old(favorites), f, FavoriteId(), fails)
      ensures history == old(history) && downloads == old(downloads)
    {
      var ins := Insert(favorites, f, FavoriteId(), fails);
      err, favorites := ins.0, ins.1;
    }

    method GetFavorites(userId: Uuid, page: int, size: int, fails: bool) returns (r: Result<(seq<Favorite>, nat), DbError>)
      requires page >= 1 && size >= 1
      ensures r == if fails then Err(Unavailable) else Ok(Listing(favorites, FavoriteOf(userId), AddedKey(), page, size))
    {
      if fails {
        return Err(Unavailable);
      }
      return Ok(Listing(favorites, FavoriteOf(userId), AddedKey(), page, size));
    }

    /** As written: zero deleted rows is success. */
    method RemoveFavorite(userId: Uuid, id: Uuid, fails: bool) returns (err: Option<DbError>)
      modifies this
      ensures (err, favorites) == DeleteWhere(old(favorites), FavoriteHit(userId, id), fails, false)
      ensures history == old(history) && downloads == old(downloads)
    {
      var del := DeleteWhere(favorites, FavoriteHit(userId, id), fails, false);
      err, favorites := del.0, del.1;
    }

    /** The delete with its affected-row count checked: zero rows is reported as not found. */
    method RemoveFavoriteCounted(userId: Uuid, id: Uuid, fails: bool) returns (err: Option<DbError>)
      modifies this
      ensures (err, favorites) == DeleteWhere(old(favorites), FavoriteHit(userId, id), fails, true)
      ensures history == old(history) && downloads == old(downloads)
    {
      var del := DeleteWhere(favorites, FavoriteHit(userId, id), fails, true);
      err, favorites := del.0, del.1;
    }

    method FindFavoriteByTrackId(userId: Uuid, provider: string, providerTrackId: string, fails: bool)
      returns (r: Result<Favorite, DbError>)
      ensures r == FindFavorite(favorites, userId, provider, providerTrackId, fails)
    {
      r := FindFavorite(favorites, userId, provider, providerTrackId, fails);
    }

    method AddHistory(h: History, fails: bool) returns (err: Option<DbError>)
      modifies this
      ensures (err, history) == Insert(old(history), h, HistoryId(), fails)
      ensures favorites == old(favorites) && downloads == old(downloads)
    {
      var ins := Insert(history, h, HistoryId(), fails);
      err, history := ins.0, ins.1;
    }

    method GetHistory(userId: Uuid, page: int, size: int, fails: bool) returns (r: Result<(seq<History>, nat), DbError>)
      requires page >= 1 && size >= 1
      ensures r == if fails then Err(Unavailable) else Ok(Listing(history, HistoryOf(userId), PlayedKey(), page, size))
    {
      if fails {
        return Err(Unavailable);
      }
      return Ok(Listing(history, HistoryOf(userId), PlayedKey(), page, size));
    }

    method AddDownload(d: Download, fails: bool) returns (err: Option<DbError>)
      modifies this
      ensures (err, downloads) == Insert(old(downloads), d, DownloadId(), fails)
      ensures favorites == old(favorites) && history == old(history)
    {
      var ins := Insert(downloads, d, DownloadId(), fails);
      err, downloads := ins.0, ins.1;
    }

    method GetDownloads(userId: Uuid, page: int, size: int, state: Option<string>, fails: bool)
      returns (r: Result<(seq<Download>, nat), DbError>)
      requires page >= 1 && size >= 1
      ensures r == if fails then Err(Unavailable) else Ok(Listing(downloads, DownloadsWhere(userId, state), CreatedKey(), page, size))
    {
      if fails {
        return Err(Unavailable);
      }
      return Ok(Listing(downloads, DownloadsWhere(userId, state), CreatedKey(), page, size));
    }

    /** The user's download with that id; another user's download is not found. */
    method GetDownloadById(userId: Uuid, id: Uuid, fails: bool) returns (r: Result<Download, DbError>)
      ensures fails ==> r == Err(Unavailable)
      ensures !fails ==> (r.Ok? <==> exists d :: d in downloads && d.userId == userId && d.id == id)
      ensures !fails && r.Err? ==> r.error == RecordNotFound
      ensures r.Ok? ==> r.value in downloads && r.value.userId == userId && r.value.id == id
    {
      if fails {
        return Err(Unavailable);
      }
      var i := 0;
      while i < |downloads|
        invariant 0 <= i <= |downloads|
        invariant forall j :: 0 <= j < i ==> !(downloads[j].userId == userId && downloads[j].id == id)
      {
        if downloads[i].userId == userId && downloads[i].id == id {
          return Ok(downloads[i]);
        }
        i := i + 1;
      }
      return Err(RecordNotFound);
    }

    method UpdateDownload(d: Download, fails: bool) returns (err: Option<DbError>)
      modifies this
      ensures err == (if fails then Some(Unavailable) else None)
      ensures downloads == if fails then old(downloads) else Upsert(old(downloads), d, DownloadId())
      ensures favorites == old(favorites) && history == old(history)
    {
      if fails {
        return Some(Unavailable);
      }
      downloads := Upsert(downloads, d, DownloadId());
      return None;
    }

    /** As written: zero deleted rows is success. */
    method RemoveDownload(userId: Uuid, id: Uuid, fails: bool) returns (err: Option<DbError>)
      modifies this
      ensures (err, downloads) == DeleteWhere(old(downloads), DownloadHit(userId, id), fails, false)
      ensures favorites == old(favorites) && history == old(history)
    {
      var del := DeleteWhere(downloads, DownloadHit(userId, id), fails, false);
      err, downloads := del.0, del.1;
    }

    /** The delete with its affected-row count checked: zero rows is reported as not found. */
    method RemoveDownloadCounted(userId: Uuid, id: Uuid, fails: bool) returns (err: Option<DbError>)
      modifies this
      ensures (err, downloads) == DeleteWhere(old(downloads), DownloadHit(userId, id), fails, true)
      ensures favorites == old(favorites) && history == old(history)
    {
      var del := DeleteWhere(downloads, DownloadHit(userId, id), fails, true);
      err, downloads := del.0, del.1;
    }
  }

  class LibraryService {
    const repo: LibraryRepository

    constructor (repo: LibraryRepository)
      ensures this.repo == repo
    {
      this.repo := repo;
    }

    method AddFavorite(userIdText: string, data: TrackData, freshId: Uuid, now: Time, lookupFails: bool, insertFails: bool)
      returns (r: Result<Favorite, LibraryError>)
      modifies repo
      ensures (r, repo.favorites) == FavoriteAdded(old(repo.favorites), userIdText, data, freshId, now, lookupFails, insertFails)
      ensures repo.history == old(repo.history) && repo.downloads == old(repo.downloads)
    {
      var uid := ParseUuid(userIdText);
      if uid.None? {
        return Err(InvalidUserId);
      }
      var existing := repo.FindFavoriteByTrackId(uid.value, data.provider, data.providerTrackId, lookupFails);
      if existing.Ok? {
        return Err(FavoriteExists);
      }
      if existing.error != RecordNotFound {
        return Err(Db(existing.error));
      }
      var f := Favorite(freshId, uid.value, data, now);
      var err := repo.AddFavorite(f, insertFails);
      if err.Some? {
        return Err(Db(err.value));
      }
      return Ok(f);
    }

    /** A page of the user's favorites, newest first; page and size default to 1 and 20. */
    method GetFavorites(userIdText: string, page: int, size: int, fails: bool)
      returns (r: Result<(seq<Favorite>, nat), LibraryError>)
      ensures ParseUuid(userIdText).None? ==> r == Err(InvalidUserId)
      ensures ParseUuid(userIdText).Some? ==>
        var d := Defaulted(page, size, 20);
        r == if fails then Err(Db(Unavailable)) else Ok(Listing(repo.favorites, FavoriteOf(ParseUuid(userIdText).value), AddedKey(), d.0, d.1))
    {
      var uid := ParseUuid(userIdText);
      if uid.None? {
        return Err(InvalidUserId);
      }
      var p, s := page, size;
      if p <= 0 {
        p := 1;
      }
      if s <= 0 {
        s := 20;
      }
      var found := repo.GetFavorites(uid.value, p, s, fails);
      if found.Err? {
        return Err(Db(found.error));
      }
      return Ok(found.value);
    }

    /** As written: the not-found branch is unreachable because the delete never reports it. */
    method RemoveFavorite(userIdText: string, favoriteIdText: string, fails: bool) returns (r: Result<(), LibraryError>)
      modifies repo
      ensures (r, repo.favorites) == FavoriteRemoved(old(repo.favorites), userIdText, favoriteIdText, fails, false)
      ensures repo.history == old(repo.history) && repo.downloads == old(repo.downloads)
    {
      var uid := ParseUuid(userIdText);
      if uid.None? {
        return Err(InvalidUserId);
      }
      var fid := ParseUuid(favoriteIdText);
      if fid.None? {
        return Err(InvalidFavoriteId);
      }
      var err := repo.RemoveFavorite(uid.value, fid.value, fails);
      if err == Some(RecordNotFound) {
        return Err(FavoriteNotFound);
      }
      if err.Some? {
        return Err(Db(err.value));
      }
      return Ok(());
    }

    /** The removal with zero affected rows reported as `FavoriteNotFound`. */
    method RemoveFavoriteCorrected(userIdText: string, favoriteIdText: string, fails: bool) returns (r: Result<(), LibraryError>)
      modifies repo
      ensures (r, repo.favorites) == FavoriteRemoved(old(repo.favorites), userIdText, favoriteIdText, fails, true)
      ensures repo.history == old(repo.history) && repo.downloads == old(repo.downloads)
    {
      var uid := ParseUuid(userIdText);
      if uid.None? {
        return Err(InvalidUserId);
      }
      var fid := ParseUuid(favoriteIdText);
      if fid.None? {
        return Err(InvalidFavoriteId);
      }
      var err := repo.RemoveFavoriteCounted(uid.value, fid.value, fails);
      if err == Some(RecordNotFound) {
        return Err(FavoriteNotFound);
      }
      if err.Some? {
        return Err(Db(err.value));
      }
      return Ok(());
    }

    method AddHistory(userIdText: string, data: TrackData, freshId: Uuid, now: Time, fails: bool)
      returns (r: Result<History, LibraryError>)
      modifies repo
      ensures (r, repo.history) == HistoryAdded(old(repo.history), userIdText, data, freshId, now, fails)
      ensures repo.favorites == old(repo.favorites) && repo.downloads == old(repo.downloads)
    {
      var uid := ParseUuid(userIdText);
      if uid.None? {
        return Err(InvalidUserId);
      }
      var h := History(freshId, uid.value, data, now);
      var err := repo.AddHistory(h, fails);
      if err.Some? {
        return Err(Db(err.value));
      }
      return Ok(h);
    }

    /** A page of the user's plays, most recent first; page and size default to 1 and 50. */
    method GetUserHistory(userIdText: string, page: int, size: int, fails: bool)
      returns (r: Result<(seq<History>, nat), LibraryError>)
      ensures ParseUuid(userIdText).None? ==> r == Err(InvalidUserId)
      ensures ParseUuid(userIdText).Some? ==>
        var d := Defaulted(page, size, 50);
        r == if fails then Err(Db(Unavailable)) else Ok(Listing(repo.history, HistoryOf(ParseUuid(userIdText).value), PlayedKey(), d.0, d.1))
    {
      var uid := ParseUuid(userIdText);
      if uid.None? {
        return Err(InvalidUserId);
      }
      var p, s := page, size;
      if p <= 0 {
        p := 1;
      }
      if s <= 0 {
        s := 50;
      }
      var found := repo.GetHistory(uid.value, p, s, fails);
      if found.Err? {
        return Err(Db(found.error));
      }
      return Ok(found.value);
    }

    method AddDownload(userIdText: string, data: TrackData, quality: string, freshId: Uuid, now: Time, fails: bool)
      returns (r: Result<Download, LibraryError>)
      modifies repo
      ensures (r, repo.downloads) == DownloadAdded(old(repo.downloads), userIdText, data, quality, freshId, now, fails)
      ensures repo.favorites == old(repo.favorites) && repo.history == old(repo.history)
    {
      var uid := ParseUuid(userIdText);
      if uid.None? {
        return Err(InvalidUserId);
      }
      var d := Download(freshId, uid.value, data, StatePending, None, None, quality, now, now);
      var err := repo.AddDownload(d, fails);
      if err.Some? {
        return Err(Db(err.value));
      }
      return Ok(d);
    }

    /** A page of the user's downloads, newest first, optionally in one state; page and size default to 1 and 20. */
    method GetUserDownloads(userIdText: string, page: int, size: int, state: Option<string>, fails: bool)
      returns (r: Result<(seq<Download>, nat), LibraryError>)
      ensures ParseUuid(userIdText).None? ==> r == Err(InvalidUserId)
      ensures ParseUuid(userIdText).Some? ==>
        var d := Defaulted(page, size, 20);
        r == if fails then Err(Db(Unavailable))
             else Ok(Listing(repo.downloads, DownloadsWhere(ParseUuid(userIdText).value, state), CreatedKey(), d.0, d.1))
    {
      var uid := ParseUuid(userIdText);
      if uid.None? {
        return Err(InvalidUserId);
      }
      var p, s := page, size;
      if p <= 0 {
        p := 1;
      }
      if s <= 0 {
        s := 20;
      }
      var found := repo.GetDownloads(uid.value, p, s, state, fails);
      if found.Err? {
        return Err(Db(found.error));
      }
      return Ok(found.value);
    }

    /** As written: the not-found branch is unreachable because the delete never reports it. */
    method RemoveDownload(userIdText: string, downloadIdText: string, fails: bool) returns (r: Result<(), LibraryError>)
      modifies repo
      ensures (r, repo.downloads) == DownloadRemoved(old(repo.downloads), userIdText, downloadIdText, fails, false)
      ensures repo.favorites == old(repo.favorites) && repo.history == old(repo.history)
    {
      var uid := ParseUuid(userIdText);
      if uid.None? {
        return Err(InvalidUserId);
      }
      var did := ParseUuid(downloadIdText);
      if did.None? {
        return Err(InvalidDownloadId);
      }
      var err := repo.RemoveDownload(uid.value, did.value, fails);
      if err == Some(RecordNotFound) {
        return Err(DownloadNotFound);
      }
      if err.Some? {
        return Err(Db(err.value));
      }
      return Ok(());
    }

    /** The removal with zero affected rows reported as `DownloadNotFound`. */
    method RemoveDownloadCorrected(userIdText: string, downloadIdText: string, fails: bool) returns (r: Result<(), LibraryError>)
      modifies repo
      ensures (r, repo.downloads) == DownloadRemoved(old(repo.downloads), userIdText, downloadIdText, fails, true)
      ensures repo.favorites == old(repo.favorites) && repo.history == old(repo.history)
    {
      var uid := ParseUuid(userIdText);
      if uid.None? {
        return Err(InvalidUserId);
      }
      var did := ParseUuid(downloadIdText);
      if did.None? {
        return Err(InvalidDownloadId);
      }
      var err := repo.RemoveDownloadCounted(uid.value, did.value, fails);
      if err == Some(RecordNotFound) {
        return Err(DownloadNotFound);
      }
      if err.Some? {
        return Err(Db(err.value));
      }
      return Ok(());
    }
  }
}
