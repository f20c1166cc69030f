/**
 * Playlists: the `playlists` and `playlist_tracks` tables (a track belongs to
 * an existing playlist and is deleted with it) and the service that enforces
 * visibility and ownership and numbers tracks within a playlist.
 */
module Playlists {
  import opened Wrappers
  import opened Ids
  import opened Storage
  import opened Paging

  datatype Track = Track(
    id: Uuid, playlistId: Uuid, provider: string, providerTrackId: string, title: string, artist: string,
    album: string, durationMs: int, artworkUrl: string, trackNumber: int, position: int, addedAt: Time)

  /** A row of `playlists`. */
  datatype PlaylistRow = PlaylistRow(
    id: Uuid, userId: Uuid, title: string, description: string, coverUrl: Option<string>,
    isPublic: bool, shareCode: Option<string>, createdAt: Time, updatedAt: Time)

  /** A playlist as the service hands it out: its row and, when preloaded, its tracks. */
  datatype Playlist = Playlist(row: PlaylistRow, tracks: seq<Track>)

  datatype TrackData = TrackData(
    provider: string, providerTrackId: string, title: string, artist: string, album: string,
    durationMs: int, artworkUrl: string)

  datatype PlaylistError =
    | InvalidUserId
    | InvalidPlaylistId
    | InvalidTrackId
    | PlaylistNotFound
    | NotPlaylistOwner
    | ReorderNotImplemented
    | Db(cause: DbError)

  // ------------------------------------------------------------------ the tables

  predicate HasRow(rows: seq<PlaylistRow>, id: Uuid)
  {
    exists r :: r in rows && r.id == id
  }

  /** The first row with that id, or -1. */
  function RowIndex(rows: seq<PlaylistRow>, id: Uuid): (k: int)
    ensures -1 <= k < |rows|
    ensures k >= 0 ==> rows[k].id == id
    ensures k < 0 <==> !HasRow(rows, id)
  {
    if |rows| == 0 then -1
    else if rows[0].id == id then 0
    else
      var k := RowIndex(rows[1..], id);
      assert forall r :: r in rows[1..] ==> r in rows;
      assert forall r :: r in rows ==> r == rows[0] || r in rows[1..];
      if k < 0 then -1 else k + 1
  }

  function InPlaylist(pid: Uuid): Track -> bool { (t: Track) => t.playlistId == pid }
  function OwnedBy(userId: Uuid): PlaylistRow -> bool { (p: PlaylistRow) => p.userId == userId }
  function CreatedKey(): PlaylistRow -> int { (p: PlaylistRow) => p.createdAt }

  /** `GetByID` with `Preload("Tracks")`. */
  function Load(rows: seq<PlaylistRow>, tracks: seq<Track>, id: Uuid, fails: bool): (r: Result<Playlist, DbError>)
    ensures fails ==> r == Err(Unavailable)
    ensures !fails ==> (r.Ok? <==> HasRow(rows, id))
    ensures !fails && r.Err? ==> r.error == RecordNotFound
    ensures r.Ok? ==> r.value.row in rows && r.value.row.id == id && r.value.tracks == Filter(tracks, InPlaylist(id))
  {
    if fails then Err(Unavailable)
    else
      var k := RowIndex(rows, id);
      if k < 0 then Err(RecordNotFound) else Ok(Playlist(rows[k], Filter(tracks, InPlaylist(id))))
  }

  /** The largest position among a playlist's tracks, if it has any. */
  function MaxOf(tracks: seq<Track>, pid: Uuid): (m: Option<int>)
    ensures m.None? <==> forall t :: t in tracks ==> t.playlistId != pid
    ensures m.Some? ==> (exists t :: t in tracks && t.playlistId == pid && t.position == m.value) &&
                        forall t :: t in tracks && t.playlistId == pid ==> t.position <= m.value
  {
    if tracks == [] then None
    else
      assert forall t :: t in tracks ==> t == tracks[0] || t in tracks[1..];
      var rest := MaxOf(tracks[1..], pid);
      if tracks[0].playlistId != pid then rest
      else if rest.None? || tracks[0].position > rest.value then Some(tracks[0].position)
      else rest
  }

  /** `GetMaxPosition`: COALESCE(MAX(position), 0). */
  function MaxPosition(tracks: seq<Track>, pid: Uuid): (m: int)
    ensures forall t :: t in tracks && t.playlistId == pid ==> t.position <= m
    ensures (forall t :: t in tracks ==> t.playlistId != pid) ==> m == 0
    ensures (exists t :: t in tracks && t.playlistId == pid) ==> exists t :: t in tracks && t.playlistId == pid && t.position == m
  {
    match MaxOf(tracks, pid)
    case None => 0
    case Some(m) => m
  }

  /** Within one playlist no two tracks share a position. */
  ghost predicate DistinctPositions(tracks: seq<Track>)
  {
    forall a, b :: a in tracks && b in tracks && a != b && a.playlistId == b.playlistId ==> a.position != b.position
  }

  /** Every track belongs to a stored playlist. */
  ghost predicate TracksHaveOwners(rows: seq<PlaylistRow>, tracks: seq<Track>)
  {
    forall t :: t in tracks ==> HasRow(rows, t.playlistId)
  }

  function WithoutPlaylist(rows: seq<PlaylistRow>, id: Uuid): (r: seq<PlaylistRow>)
    ensures forall p :: p in r <==> p in rows && p.id != id
  {
    Filter(rows, (p: PlaylistRow) => p.id != id)
  }

  /** The cascade of deleting a playlist. */
  function WithoutTracksOf(tracks: seq<Track>, pid: Uuid): (r: seq<Track>)
    ensures forall t :: t in r <==> t in tracks && t.playlistId != pid
  {
    Filter(tracks, (t: Track) => t.playlistId != pid)
  }

  /** `RemoveTrack`: the rows matching both the playlist and the track id. */
  function WithoutTrack(tracks: seq<Track>, pid: Uuid, tid: Uuid): (r: seq<Track>)
    ensures forall t :: t in r <==> t in tracks && !(t.playlistId == pid && t.id == tid)
  {
    Filter(tracks, (t: Track) => !(t.playlistId == pid && t.id == tid))
  }

  /** `Save`: the first row with the same id is replaced; a row with a new id is appended. */
  function SavedRow(rows: seq<PlaylistRow>, p: PlaylistRow): (r: seq<PlaylistRow>)
    ensures HasRow(rows, p.id) ==> |r| == |rows| && r == rows[RowIndex(rows, p.id) := p]
    ensures !HasRow(rows, p.id) ==> r == rows + [p]
    ensures forall q :: q in r ==> q == p || q in rows
    ensures forall q :: q in rows && q.id != p.id ==> q in r
  {
    var k := RowIndex(rows, p.id);
    if k >= 0 then
      assert forall i :: 0 <= i < |rows| && i != k ==> rows[k := p][i] == rows[i];
      rows[k := p]
    else rows + [p]
  }

  // ------------------------------------------------------------------ service rules

  /** Who may read a playlist: anyone when it is public, else only a caller whose id parses to the owner's. */
  predicate Visible(p: PlaylistRow, callerId: string)
  {
    p.isPublic || (callerId != "" && ParseUuid(callerId) == Some(p.userId))
  }

  /**
   * `getAndVerifyOwner`: the caller's id is parsed first, then the
   * playlist's, then the playlist is fetched and its owner compared.
   */
  function OwnedPlaylist(rows: seq<PlaylistRow>, tracks: seq<Track>, playlistId: string, callerId: string, fails: bool)
    : (r: Result<Playlist, PlaylistError>)
    ensures ParseUuid(callerId).None? ==> r == Err(InvalidUserId)
    ensures ParseUuid(callerId).Some? && ParseUuid(playlistId).None? ==> r == Err(InvalidPlaylistId)
    ensures r.Ok? <==> ParseUuid(callerId).Some? && ParseUuid(playlistId).Some? &&
                       Load(rows, tracks, ParseUuid(playlistId).value, fails).Ok? &&
                       Load(rows, tracks, ParseUuid(playlistId).value, fails).value.row.userId == ParseUuid(callerId).value
    ensures r.Ok? ==> r.value == Load(rows, tracks, ParseUuid(playlistId).value, fails).value
    ensures ParseUuid(callerId).Some? && ParseUuid(playlistId).Some? && !fails && !HasRow(rows, ParseUuid(playlistId).value) ==>
      r == Err(PlaylistNotFound)
    ensures ParseUuid(callerId).Some? && ParseUuid(playlistId).Some? && fails ==> r == Err(Db(Unavailable))
    ensures ParseUuid(callerId).Some? && ParseUuid(playlistId).Some? &&
            Load(rows, tracks, ParseUuid(playlistId).value, fails).Ok? &&
            Load(rows, tracks, ParseUuid(playlistId).value, fails).value.row.userId != ParseUuid(callerId).value ==>
      r == Err(NotPlaylistOwner)
  {
    match ParseUuid(callerId)
    case None => Err(InvalidUserId)
    case Some(uid) =>
      match ParseUuid(playlistId)
      case None => Err(InvalidPlaylistId)
      case Some(pid) =>
        match Load(rows, tracks, pid, fails)
        case Err(e) => if e == RecordNotFound then Err(PlaylistNotFound) else Err(Db(e))
        case Ok(p) => if p.row.userId != uid then Err(NotPlaylistOwner) else Ok(p)
  }

  /** The row after `UpdatePlaylist`'s partial update; Save stamps `updated_at`. */
  function Updated(p: PlaylistRow, title: Option<string>, description: Option<string>, isPublic: Option<bool>, now: Time)
    : (q: PlaylistRow)
    ensures q.title == (if title.Some? then title.value else p.title)
    ensures q.description == (if description.Some? then description.value else p.description)
    ensures q.isPublic == (if isPublic.Some? then isPublic.value else p.isPublic)
    ensures q.(title := p.title, description := p.description, isPublic := p.isPublic, updatedAt := p.updatedAt) == p
  {
    p.(title := if title.Some? then title.value else p.title,
       description := if description.Some? then description.value else p.description,
       isPublic := if isPublic.Some? then isPublic.value else p.isPublic,
       updatedAt := now)
  }

  // ------------------------------------------------------------------ lemmas

  /** A private playlist is readable by its owner alone, and never anonymously. */
  lemma PrivatePlaylistOwnerOnly(p: PlaylistRow, callerId: string)
    requires !p.isPublic
    ensures Visible(p, callerId) <==> callerId != "" && ParseUuid(callerId) == Some(p.userId)
    ensures !Visible(p, "")
    ensures Visible(p, UuidString(p.userId))
  {
    ParseUuidString(p.userId);
  }

  /** Appending a track at the next position keeps positions distinct within every playlist. */
  lemma NextPositionKeepsDistinct(tracks: seq<Track>, t: Track)
    requires DistinctPositions(tracks)
    requires t.position == MaxPosition(tracks, t.playlistId) + 1
    ensures DistinctPositions(tracks + [t])
    ensures forall u :: u in tracks && u.playlistId == t.playlistId ==> u.position < t.position
  {
    forall a, b | a in tracks + [t] && b in tracks + [t] && a != b && a.playlistId == b.playlistId
      ensures a.position != b.position
    {
      if a == t && b in tracks {
        assert b.position <= MaxPosition(tracks, t.playlistId);
      } else if b == t && a in tracks {
        assert a.position <= MaxPosition(tracks, t.playlistId);
      }
    }
  }

  /** Deleting a playlist leaves no track of it and every other playlist's tracks in place, owners intact. */
  lemma DeleteCascades(rows: seq<PlaylistRow>, tracks: seq<Track>, id: Uuid)
    requires TracksHaveOwners(rows, tracks)
    ensures TracksHaveOwners(WithoutPlaylist(rows, id), WithoutTracksOf(tracks, id))
    ensures Filter(WithoutTracksOf(tracks, id), InPlaylist(id)) == []
    ensures forall t :: t in tracks && t.playlistId != id ==> t in WithoutTracksOf(tracks, id)
  {
    var rest := WithoutTracksOf(tracks, id);
    var kept := WithoutPlaylist(rows, id);
    forall t | t in rest
      ensures HasRow(kept, t.playlistId)
    {
      var r :| r in rows && r.id == t.playlistId;
      assert r in kept;
    }
    FilterNone(rest, InPlaylist(id));
  }

  // ------------------------------------------------------------------ imperative shell

  class PlaylistRepository {
    var rows: seq<PlaylistRow>
    var tracks: seq<Track>

    ghost predicate Valid()
      reads this
    {
      TracksHaveOwners(rows, tracks) && DistinctPositions(tracks)
    }

    constructor ()
      ensures Valid() && rows == [] && tracks == []
    {
      rows := [];
      tracks := [];
    }

    method Create(p: PlaylistRow, fails: bool) returns (err: Option<DbError>)
      requires Valid()
      modifies this
      ensures Valid() && tracks == old(tracks)
      ensures fails ==> err == Some(Unavailable)
      ensures !fails && HasRow(old(rows), p.id) ==> err == Some(DuplicateKey)
      ensures err.None? <==> !fails && !HasRow(old(rows), p.id)
      ensures rows == if err.None? then old(rows) + [p] else old(rows)
    {
      if fails {
        return Some(Unavailable);
      }
      if RowIndex(rows, p.id) >= 0 {
        return Some(DuplicateKey);
      }
      rows := rows + [p];
      return None;
    }

    method GetById(id: Uuid, fails: bool) returns (r: Result<Playlist, DbError>)
      ensures r == Load(rows, tracks, id, fails)
    {
      r := Load(rows, tracks, id, fails);
    }

    method GetUserPlaylists(userId: Uuid, page: int, size: int, fails: bool) returns (r: Result<(seq<PlaylistRow>, nat), DbError>)
      requires page >= 1 && size >= 1
      ensures r == if fails then Err(Unavailable) else Ok(Listing(rows, OwnedBy(userId), CreatedKey(), page, size))
    {
      if fails {
        return Err(Unavailable);
      }
      return Ok(Listing(rows, OwnedBy(userId), CreatedKey(), page, size));
    }

    method Update(p: PlaylistRow, fails: bool) returns (err: Option<DbError>)
      requires Valid()
      modifies this
      ensures Valid() && tracks == old(tracks)
      ensures err == (if fails then Some(Unavailable) else None)
      ensures rows == if fails then old(rows) else SavedRow(old(rows), p)
    {
      if fails {
        return Some(Unavailable);
      }
      forall t | t in tracks
        ensures HasRow(SavedRow(rows, p), t.playlistId)
      {
        var q :| q in rows && q.id == t.playlistId;
        if q.id == p.id {
          assert SavedRow(rows, p)[RowIndex(rows, p.id)] == p;
        }
      }
      rows := SavedRow(rows, p);
      return None;
    }

    method Delete(id: Uuid, fails: bool) returns (err: Option<DbError>)
      requires Valid()
      modifies this
      ensures Valid()
      ensures err == (if fails then Some(Unavailable) else None)
      ensures rows == (if fails then old(rows) else WithoutPlaylist(old(rows), id))
      ensures tracks == (if fails then old(tracks) else WithoutTracksOf(old(tracks), id))
    {
      if fails {
        return Some(Unavailable);
      }
      DeleteCascades(rows, tracks, id);
      rows, tracks := WithoutPlaylist(rows, id), WithoutTracksOf(tracks, id);
      return None;
    }

    method AddTrack(t: Track, fails: bool) returns (err: Option<DbError>)
      requires Valid()
      requires t.position == MaxPosition(tracks, t.playlistId) + 1
      modifies this
      ensures Valid() && rows == old(rows)
      ensures fails ==> err == Some(Unavailable)
      ensures !fails && !HasRow(rows, t.playlistId) ==> err == Some(ForeignKeyViolation)
      ensures err.None? <==> !fails && HasRow(rows, t.playlistId)
      ensures tracks == if err.None? then old(tracks) + [t] else old(tracks)
    {
      if fails {
        return Some(Unavailable);
      }
      if RowIndex(rows, t.playlistId) < 0 {
        return Some(ForeignKeyViolation);
      }
      NextPositionKeepsDistinct(tracks, t);
      tracks := tracks + [t];
      return None;
    }

    method RemoveTrack(pid: Uuid, tid: Uuid, fails: bool) returns (err: Option<DbError>)
      requires Valid()
      modifies this
      ensures Valid() && rows == old(rows)
      ensures err == (if fails then Some(Unavailable) else None)
      ensures tracks == if fails then old(tracks) else WithoutTrack(old(tracks), pid, tid)
    {
      if fails {
        return Some(Unavailable);
      }
      tracks := WithoutTrack(tracks, pid, tid);
      return None;
    }

    /** The track with that id in that playlist; a track of another playlist is not found. */
    method GetTrack(pid: Uuid, tid: Uuid, fails: bool) returns (r: Result<Track, DbError>)
      ensures fails ==> r == Err(Unavailable)
      ensures !fails ==> (r.Ok? <==> exists t :: t in tracks && t.playlistId == pid && t.id == tid)
      ensures r.Err? && !fails ==> r.error == RecordNotFound
      ensures r.Ok? ==> r.value in tracks && r.value.playlistId == pid && r.value.id == tid
    {
      if fails {
        return Err(Unavailable);
      }
      var i := 0;
      while i < |tracks|
        invariant 0 <= i <= |tracks|
        invariant forall j :: 0 <= j < i ==> !(tracks[j].playlistId == pid && tracks[j].id == tid)
      {
        if tracks[i].playlistId == pid && tracks[i].id == tid {
          return Ok(tracks[i]);
        }
        i := i + 1;
      }
      return Err(RecordNotFound);
    }

    method GetMaxPosition(pid: Uuid, fails: bool) returns (r: Result<int, DbError>)
      ensures r == if fails then Err(Unavailable) else Ok(MaxPosition(tracks, pid))
    {
      if fails {
        return Err(Unavailable);
      }
      return Ok(MaxPosition(tracks, pid));
    }
  }

  /** The playlist service; `fails` stands for the database being unavailable for the whole call. */
  class PlaylistService {
    const repo: PlaylistRepository

    constructor (repo: PlaylistRepository)
      ensures this.repo == repo
    {
      this.repo := repo;
    }

    /** New playlists are private and owned by the caller; a malformed caller id is refused before any write. */
    method CreatePlaylist(callerId: string, title: string, description: string, freshId: Uuid, now: Time, fails: bool)
      returns (r: Result<Playlist, PlaylistError>)
      requires repo.Valid()
      modifies repo
      ensures repo.Valid() && repo.tracks == old(repo.tracks)
      ensures ParseUuid(callerId).None? ==> r == Err(InvalidUserId) && repo.rows == old(repo.rows)
      ensures r.Err? ==> repo.rows == old(repo.rows)
      ensures r.Ok? <==> ParseUuid(callerId).Some? && !fails && !HasRow(old(repo.rows), freshId)
      ensures ParseUuid(callerId).Some? && fails ==> r == Err(Db(Unavailable))
      ensures ParseUuid(callerId).Some? && !fails && HasRow(old(repo.rows), freshId) ==> r == Err(Db(DuplicateKey))
      ensures r.Ok? ==>
        ParseUuid(callerId).Some? &&
        r.value == Playlist(PlaylistRow(freshId, ParseUuid(callerId).value, title, description, None, false, None, now, now), []) &&
        repo.rows == old(repo.rows) + [r.value.row]
    {
      var uid := ParseUuid(callerId);
      if uid.None? {
        return Err(InvalidUserId);
      }
      var p := PlaylistRow(freshId, uid.value, title, description, None, false, None, now, now);
      var err := repo.Create(p, fails);
      if err.Some? {
        return Err(Db(err.value));
      }
      return Ok(Playlist(p, []));
    }

    /** A public playlist is returned to anyone; a private one only to its owner. */
    method GetPlaylist(playlistId: string, callerId: string, fails: bool) returns (r: Result<Playlist, PlaylistError>)
      ensures ParseUuid(playlistId).None? ==> r == Err(InvalidPlaylistId)
      ensures ParseUuid(playlistId).Some? && !fails && !HasRow(repo.rows, ParseUuid(playlistId).value) ==> r == Err(PlaylistNotFound)
      ensures ParseUuid(playlistId).Some? && fails ==> r == Err(Db(Unavailable))
      ensures r.Ok? <==> ParseUuid(playlistId).Some? && Load(repo.rows, repo.tracks, ParseUuid(playlistId).value, fails).Ok? &&
                         Visible(Load(repo.rows, repo.tracks, ParseUuid(playlistId).value, fails).value.row, callerId)
      ensures r.Ok? ==> r.value == Load(repo.rows, repo.tracks, ParseUuid(playlistId).value, fails).value
      ensures r.Err? && ParseUuid(playlistId).Some? && Load(repo.rows, repo.tracks, ParseUuid(playlistId).value, fails).Ok? ==>
        r == Err(NotPlaylistOwner)
    {
      var pid := ParseUuid(playlistId);
      if pid.None? {
        return Err(InvalidPlaylistId);
      }
      var loaded := repo.GetById(pid.value, fails);
      if loaded.Err? {
        return if loaded.error == RecordNotFound then Err(PlaylistNotFound) else Err(Db(loaded.error));
      }
      var p := loaded.value;
      if !p.row.isPublic && callerId != "" {
        var uid := ParseUuid(callerId);
        if uid.None? || p.row.userId != uid.value {
          return Err(NotPlaylistOwner);
        }
      } else if !p.row.isPublic && callerId == "" {
        return Err(NotPlaylistOwner);
      }
      return Ok(p);
    }

    /** A page of the caller's playlists, page and size defaulting to 1 and 20. */
    method GetUserPlaylists(callerId: string, page: int, size: int, fails: bool)
      returns (r: Result<(seq<PlaylistRow>, nat), PlaylistError>)
      ensures ParseUuid(callerId).None? ==> r == Err(InvalidUserId)
      ensures fails ==> r.Err?
      ensures ParseUuid(callerId).Some? && !fails ==>
        var d := Defaulted(page, size, 20);
        r == Ok(Listing(repo.rows, OwnedBy(ParseUuid(callerId).value), CreatedKey(), d.0, d.1))
    {
      var uid := ParseUuid(callerId);
      if uid.None? {
        return Err(InvalidUserId);
      }
      var p, s := page, size;
      if p <= 0 {
        p := 1;
      }
      if s <= 0 {
        s := 20;
      }
      var found := repo.GetUserPlaylists(uid.value, p, s, fails);
      if found.Err? {
        return Err(Db(found.error));
      }
      return Ok(found.value);
    }

    /** Only the owner may update; only the supplied fields change. */
    method UpdatePlaylist(playlistId: string, callerId: string, title: Option<string>, description: Option<string>,
                          isPublic: Option<bool>, now: Time, lookupFails: bool, saveFails: bool)
      returns (r: Result<Playlist, PlaylistError>)
      requires repo.Valid()
      modifies repo
      ensures repo.Valid() && repo.tracks == old(repo.tracks)
      ensures OwnedPlaylist(old(repo.rows), old(repo.tracks), playlistId, callerId, lookupFails).Err? ==>
        r == Err(OwnedPlaylist(old(repo.rows), old(repo.tracks), playlistId, callerId, lookupFails).error) &&
        repo.rows == old(repo.rows)
      ensures OwnedPlaylist(old(repo.rows), old(repo.tracks), playlistId, callerId, lookupFails).Ok? ==>
        var before := OwnedPlaylist(old(repo.rows), old(repo.tracks), playlistId, callerId, lookupFails).value;
        var row := Updated(before.row, title, description, isPublic, now);
        if saveFails then r == Err(Db(Unavailable)) && repo.rows == old(repo.rows)
        else r == Ok(before.(row := row)) && repo.rows == SavedRow(old(repo.rows), row)
    {
      var owned := OwnedPlaylist(repo.rows, repo.tracks, playlistId, callerId, lookupFails);
      if owned.Err? {
        return Err(owned.error);
      }
      var p := owned.value;
      var row := p.row;
      if title.Some? {
        row := row.(title := title.value);
      }
      if description.Some? {
        row := row.(description := description.value);
      }
      if isPublic.Some? {
        row := row.(isPublic := isPublic.value);
      }
      row := row.(updatedAt := now);
      var err := repo.Update(row, saveFails);
      if err.Some? {
        return Err(Db(err.value));
      }
      return Ok(p.(row := row));
    }

    /** Only the owner may delete; the playlist goes with all its tracks. */
    method DeletePlaylist(playlistId: string, callerId: string, lookupFails: bool, deleteFails: bool)
      returns (r: Result<(), PlaylistError>)
      requires repo.Valid()
      modifies repo
      ensures repo.Valid()
      ensures OwnedPlaylist(old(repo.rows), old(repo.tracks), playlistId, callerId, lookupFails).Err? ==>
        r == Err(OwnedPlaylist(old(repo.rows), old(repo.tracks), playlistId, callerId, lookupFails).error) &&
        repo.rows == old(repo.rows) && repo.tracks == old(repo.tracks)
      ensures OwnedPlaylist(old(repo.rows), old(repo.tracks), playlistId, callerId, lookupFails).Ok? ==>
        var id := ParseUuid(playlistId).value;
        if deleteFails then r == Err(Db(Unavailable)) && repo.rows == old(repo.rows) && repo.tracks == old(repo.tracks)
        else r == Ok(()) && repo.rows == WithoutPlaylist(old(repo.rows), id) && repo.tracks == WithoutTracksOf(old(repo.tracks), id)
    {
      var owned := OwnedPlaylist(repo.rows, repo.tracks, playlistId, callerId, lookupFails);
      if owned.Err? {
        return Err(owned.error);
      }
      var err := repo.Delete(owned.value.row.id, deleteFails);
      if err.Some? {
        return Err(Db(err.value));
      }
      return Ok(());
    }

    /**
     * Only the owner may add; the track goes after the current last position
     * and the playlist is read back with its tracks.
     */
    method AddTrackToPlaylist(playlistId: string, callerId: string, data: TrackData, freshId: Uuid, now: Time,
                              lookupFails: bool, positionFails: bool, insertFails: bool, reloadFails: bool)
      returns (r: Result<Playlist, PlaylistError>)
      requires repo.Valid()
      modifies repo
      ensures repo.Valid() && repo.rows == old(repo.rows)
      ensures OwnedPlaylist(old(repo.rows), old(repo.tracks), playlistId, callerId, lookupFails).Err? ==>
        r == Err(OwnedPlaylist(old(repo.rows), old(repo.tracks), playlistId, callerId, lookupFails).error) &&
        repo.tracks == old(repo.tracks)
      ensures OwnedPlaylist(old(repo.rows), old(repo.tracks), playlistId, callerId, lookupFails).Ok? ==>
        var pid := ParseUuid(playlistId).value;
        var t := Track(freshId, pid, data.provider, data.providerTrackId, data.title, data.artist, data.album,
                       data.durationMs, data.artworkUrl, 0, MaxPosition(old(repo.tracks), pid) + 1, now);
        (positionFails || insertFails ==> r == Err(Db(Unavailable)) && repo.tracks == old(repo.tracks)) &&
        (!positionFails && !insertFails ==> repo.tracks == old(repo.tracks) + [t]) &&
        (!positionFails && !insertFails && reloadFails ==> r == Err(Db(Unavailable))) &&
        (!positionFails && !insertFails && !reloadFails ==>
           r.Ok? && r.value.row.id == pid && r.value.tracks == Filter(repo.tracks, InPlaylist(pid)) && t in r.value.tracks)
    {
      var owned := OwnedPlaylist(repo.rows, repo.tracks, playlistId, callerId, lookupFails);
      if owned.Err? {
        return Err(owned.error);
      }
      var pid := owned.value.row.id;
      assert pid == ParseUuid(playlistId).value;
      var maxPos := repo.GetMaxPosition(pid, positionFails);
      if maxPos.Err? {
        return Err(Db(maxPos.error));
      }
      var t := Track(freshId, pid, data.provider, data.providerTrackId, data.title, data.artist, data.album,
                     data.durationMs, data.artworkUrl, 0, maxPos.value + 1, now);
      var err := repo.AddTrack(t, insertFails);
      if err.Some? {
        return Err(Db(err.value));
      }
      assert t in repo.tracks && InPlaylist(pid)(t);
      var reloaded := repo.GetById(pid, reloadFails);
      if reloaded.Err? {
        return Err(Db(reloaded.error));
      }
      return Ok(reloaded.value);
    }

    /**
     * Only the owner may remove; the track id is checked after ownership, and
     * only the track with that id in that playlist goes.
     */
    method RemoveTrackFromPlaylist(playlistId: string, callerId: string, trackId: string,
                                   lookupFails: bool, deleteFails: bool, reloadFails: bool)
      returns (r: Result<Playlist, PlaylistError>)
      requires repo.Valid()
      modifies repo
      ensures repo.Valid() && repo.rows == old(repo.rows)
      ensures OwnedPlaylist(old(repo.rows), old(repo.tracks), playlistId, callerId, lookupFails).Err? ==>
        r == Err(OwnedPlaylist(old(repo.rows), old(repo.tracks), playlistId, callerId, lookupFails).error) &&
        repo.tracks == old(repo.tracks)
      ensures OwnedPlaylist(old(repo.rows), old(repo.tracks), playlistId, callerId, lookupFails).Ok? && ParseUuid(trackId).None? ==>
        r == Err(InvalidTrackId) && repo.tracks == old(repo.tracks)
      ensures OwnedPlaylist(old(repo.rows), old(repo.tracks), playlistId, callerId, lookupFails).Ok? && ParseUuid(trackId).Some? ==>
        var pid := ParseUuid(playlistId).value;
        (deleteFails ==> r == Err(Db(Unavailable)) && repo.tracks == old(repo.tracks)) &&
        (!deleteFails ==> repo.tracks == WithoutTrack(old(repo.tracks), pid, ParseUuid(trackId).value)) &&
        (!deleteFails && reloadFails ==> r == Err(Db(Unavailable))) &&
        (!deleteFails && !reloadFails ==> r.Ok? && r.value.row.id == pid && r.value.tracks == Filter(repo.tracks, InPlaylist(pid)))
    {
      var owned := OwnedPlaylist(repo.rows, repo.tracks, playlistId, callerId, lookupFails);
      if owned.Err? {
        return Err(owned.error);
      }
      var tid := ParseUuid(trackId);
      if tid.None? {
        return Err(InvalidTrackId);
      }
      var pid := owned.value.row.id;
      var err := repo.RemoveTrack(pid, tid.value, deleteFails);
      if err.Some? {
        return Err(Db(err.value));
      }
      var reloaded := repo.GetById(pid, reloadFails);
      if reloaded.Err? {
        return Err(Db(reloaded.error));
      }
      return Ok(reloaded.value);
    }

    /** Reordering is refused in every case: after the ownership check it reports that it is not implemented. */
    method ReorderPlaylistTracks(playlistId: string, callerId: string, fails: bool) returns (r: Result<(), PlaylistError>)
      ensures r.Err?
      ensures OwnedPlaylist(repo.rows, repo.tracks, playlistId, callerId, fails).Err? ==>
        r.error == OwnedPlaylist(repo.rows, repo.tracks, playlistId, callerId, fails).error
      ensures OwnedPlaylist(repo.rows, repo.tracks, playlistId, callerId, fails).Ok? ==> r.error == ReorderNotImplemented
    {
      var owned := OwnedPlaylist(repo.rows, repo.tracks, playlistId, callerId, fails);
      if owned.Err? {
        return Err(owned.error);
      }
      return Err(ReorderNotImplemented);
    }
  }
}
