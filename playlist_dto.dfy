/**
 * The playlist as the HTTP layer answers it: every field of the playlist
 * row, its tracks in order, and their count.
 */
module PlaylistDto {
  import opened Wrappers
  import opened Ids
  import opened Playlists

  datatype PlaylistTrackResponse = PlaylistTrackResponse(
    id: Uuid, provider: string, providerTrackId: string, title: string, artist: string, album: string,
    durationMs: int, artworkUrl: string, trackNumber: int, position: int, addedAt: Time)

  datatype PlaylistResponse = PlaylistResponse(
    id: Uuid, userId: Uuid, title: string, description: string, coverUrl: Option<string>, isPublic: bool,
    shareCode: Option<string>, trackCount: int, tracks: seq<PlaylistTrackResponse>, createdAt: Time, updatedAt: Time)

  /** One track of the answer: every column but the owning playlist's id, which is all it loses. */
  function TrackResponse(t: Track): (r: PlaylistTrackResponse)
    ensures TrackOf(r, t.playlistId) == t
  {
    PlaylistTrackResponse(
      t.id, t.provider, t.providerTrackId, t.title, t.artist, t.album, t.durationMs, t.artworkUrl,
      t.trackNumber, t.position, t.addedAt)
  }

  /** A track of an answer read back as a row of the playlist `playlistId`. */
  function TrackOf(t: PlaylistTrackResponse, playlistId: Uuid): (r: Track)
    ensures r.playlistId == playlistId && r.id == t.id && r.position == t.position
  {
    Track(t.id, playlistId, t.provider, t.providerTrackId, t.title, t.artist, t.album, t.durationMs, t.artworkUrl,
          t.trackNumber, t.position, t.addedAt)
  }

  /** The tracks of the answer, one per track of the playlist and in the same order. */
  function TrackResponses(tracks: seq<Track>): (r: seq<PlaylistTrackResponse>)
    ensures |r| == |tracks|
    ensures forall i :: 0 <= i < |tracks| ==> r[i] == TrackResponse(tracks[i])
  {
    if tracks == [] then [] else TrackResponses(tracks[..|tracks| - 1]) + [TrackResponse(tracks[|tracks| - 1])]
  }

  /** `mapPlaylistToResponse`. */
  function MapPlaylistToResponse(p: Playlist): (r: PlaylistResponse)
    ensures r.trackCount == |p.tracks| == |r.tracks|
    ensures forall i :: 0 <= i < |p.tracks| ==> r.tracks[i].id == p.tracks[i].id && r.tracks[i].position == p.tracks[i].position
  {
    var tracks := TrackResponses(p.tracks);
    PlaylistResponse(
      p.row.id, p.row.userId, p.row.title, p.row.description, p.row.coverUrl, p.row.isPublic, p.row.shareCode,
      |tracks|, tracks, p.row.createdAt, p.row.updatedAt)
  }

  /** Reading an answer back as the playlist it describes; each track belongs to the answer's playlist. */
  function PlaylistOf(r: PlaylistResponse): (p: Playlist)
    ensures |p.tracks| == |r.tracks|
    ensures p.row.id == r.id && p.row.userId == r.userId
    ensures forall i :: 0 <= i < |p.tracks| ==> p.tracks[i].playlistId == r.id
  {
    Playlist(
      PlaylistRow(r.id, r.userId, r.title, r.description, r.coverUrl, r.isPublic, r.shareCode, r.createdAt, r.updatedAt),
      seq(|r.tracks|, i requires 0 <= i < |r.tracks| => TrackOf(r.tracks[i], r.id)))
  }

  /** Every track of the playlist is one of its own rows, as the repository preloads them. */
  predicate OwnTracks(p: Playlist)
  {
    forall i :: 0 <= i < |p.tracks| ==> p.tracks[i].playlistId == p.row.id
  }

  /**
   * The answer loses nothing: a playlist whose tracks are its own is
   * recovered from its answer, so two such playlists with the same answer
   * are the same playlist.
   */
  lemma ResponseRoundTrip(p: Playlist)
    requires OwnTracks(p)
    ensures PlaylistOf(MapPlaylistToResponse(p)) == p
  {
    var q := PlaylistOf(MapPlaylistToResponse(p));
    assert q.tracks == p.tracks by {
      forall i | 0 <= i < |p.tracks|
        ensures q.tracks[i] == p.tracks[i]
      {
      }
    }
  }

  lemma ResponseInjective(p: Playlist, q: Playlist)
    requires OwnTracks(p) && OwnTracks(q)
    requires MapPlaylistToResponse(p) == MapPlaylistToResponse(q)
    ensures p == q
  {
    ResponseRoundTrip(p);
    ResponseRoundTrip(q);
  }

  /** Adding tracks to a playlist adds their answers at the end of the track list. */
  lemma {:induction false} TrackResponsesAppend(a: seq<Track>, b: seq<Track>)
    ensures TrackResponses(a + b) == TrackResponses(a) + TrackResponses(b)
    decreases |b|
  {
    if b != [] {
      var b' := b[..|b| - 1];
      TrackResponsesAppend(a, b');
      assert (a + b)[..|a + b| - 1] == a + b';
      assert b == b' + [b[|b| - 1]];
    }
  }
}
