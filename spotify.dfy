/**
 * The Spotify provider: a client-credentials token cached on the provider
 * and renewed shortly before it lapses, and the conversion of Spotify's
 * search, chart, category and playlist answers into the neutral types.
 */
module Spotify {
  import opened Wrappers
  import opened Ids
  import opened Text
  import opened Music

  datatype Image = Image(url: string, height: int, width: int)
  datatype Artist = Artist(id: string, name: string)
  datatype Album = Album(id: string, name: string, images: seq<Image>, releaseDate: string, totalTracks: int)

  datatype SpotifyTrack = SpotifyTrack(
    id: string, name: string, artists: seq<Artist>, album: Album, durationMs: int, explicit: bool,
    popularity: int, previewUrl: Option<string>, trackNumber: int, externalUrl: string)

  /** A page of tracks; `previous` and `next` are the links to the neighbouring pages, when there are any. */
  datatype TracksPage = TracksPage(
    items: seq<SpotifyTrack>, total: int, limit: int, offset: int, previous: Option<string>, next: Option<string>)

  datatype SpotifyCategory = SpotifyCategory(id: string, name: string, icons: seq<Image>)

  datatype SpotifyPlaylist = SpotifyPlaylist(
    id: string, name: string, description: string, images: seq<Image>, trackTotal: int,
    externalUrl: string, ownerName: string)

  datatype PlaylistsPage = PlaylistsPage(items: seq<SpotifyPlaylist>, total: int, limit: int, offset: int)

  datatype TokenGrant = TokenGrant(accessToken: string, tokenType: string, expiresIn: int)

  const Name := "spotify"
  const MaxLimit := 50
  /** The "Top 50" playlist used for every country. */
  const TopFifty := "37i9dQZEVXbLRQDuF5jeBp"
  /** A fetched token is treated as expired this many seconds before Spotify says. */
  const TokenMargin: Duration := 60

  // ------------------------------------------------------------------ conversions

  function ArtistNames(artists: seq<Artist>): (names: seq<string>)
    ensures |names| == |artists|
    ensures forall i :: 0 <= i < |artists| ==> names[i] == artists[i].name
  {
    if artists == [] then [] else [artists[0].name] + ArtistNames(artists[1..])
  }

  /** The URL of the first image, or "" when there is none. */
  function FirstUrl(images: seq<Image>): string
  {
    if images == [] then "" else images[0].url
  }

  /** `convertTrack`. */
  function ConvertTrack(t: SpotifyTrack): Track
  {
    Track(t.id, t.name, Join(ArtistNames(t.artists), ", "), t.album.name, t.durationMs, FirstUrl(t.album.images),
          if t.previewUrl.Some? then t.previewUrl.value else "", t.trackNumber, t.album.releaseDate, "", Name,
          t.externalUrl, t.explicit, t.popularity)
  }

  function ConvertTracks(items: seq<SpotifyTrack>): (r: seq<Track>)
    ensures |r| == |items|
    ensures forall i :: 0 <= i < |items| ==> r[i] == ConvertTrack(items[i])
  {
    if items == [] then [] else [ConvertTrack(items[0])] + ConvertTracks(items[1..])
  }

  function ConvertCategory(c: SpotifyCategory): Category
  {
    Category(c.id, c.name, "", FirstUrl(c.icons))
  }

  function ConvertCategories(items: seq<SpotifyCategory>): (r: seq<Category>)
    ensures |r| == |items|
    ensures forall i :: 0 <= i < |items| ==> r[i] == ConvertCategory(items[i])
  {
    if items == [] then [] else [ConvertCategory(items[0])] + ConvertCategories(items[1..])
  }

  function ConvertPlaylist(p: SpotifyPlaylist): PlaylistSummary
  {
    PlaylistSummary(p.id, p.name, p.description, FirstUrl(p.images), p.trackTotal, Name, p.externalUrl, p.ownerName)
  }

  function ConvertPlaylists(items: seq<SpotifyPlaylist>): (r: seq<PlaylistSummary>)
    ensures |r| == |items|
    ensures forall i :: 0 <= i < |items| ==> r[i] == ConvertPlaylist(items[i])
  {
    if items == [] then [] else [ConvertPlaylist(items[0])] + ConvertPlaylists(items[1..])
  }

  /** Each later name behind the space that follows its comma. */
  function Spaced(names: seq<string>): (r: seq<string>)
    ensures |r| == |names|
  {
    if names == [] then [] else [" " + names[0]] + Spaced(names[1..])
  }

  /** Splitting the joined artist names on commas gives the names back, each later one behind a space. */
  lemma {:induction false} ArtistsRecoverable(names: seq<string>)
    requires |names| >= 1
    requires forall k :: 0 <= k < |names| ==> ',' !in names[k]
    ensures Split(Join(names, ", "), ',') == [names[0]] + Spaced(names[1..])
  {
    if |names| == 1 {
      SplitWithout(names[0], ',');
    } else {
      var rest := Join(names[1..], ", ");
      ArtistsRecoverable(names[1..]);
      assert names[1..][1..] == names[2..];
      assert Join(names, ", ") == names[0] + [','] + (" " + rest);
      SplitAtFirst(names[0], ',', " " + rest);
      assert (" " + rest)[1..] == rest;
      assert Split(" " + rest, ',') == [" " + names[1]] + Spaced(names[2..]);
    }
  }

  /**
   * A converted track names every artist, in order, separated by ", ";
   * carries the first album image, or none; an absent preview becomes "";
   * and is labelled as a Spotify track.
   */
  lemma ConvertedTrack(t: SpotifyTrack)
    requires |t.artists| >= 1
    requires forall k :: 0 <= k < |t.artists| ==> ',' !in t.artists[k].name
    ensures Split(ConvertTrack(t).artist, ',') == [t.artists[0].name] + Spaced(ArtistNames(t.artists)[1..])
    ensures |Split(ConvertTrack(t).artist, ',')| == |t.artists|
    ensures ConvertTrack(t).artworkUrl == "" <==> t.album.images == [] || t.album.images[0].url == ""
    ensures t.previewUrl.None? ==> ConvertTrack(t).previewUrl == ""
    ensures ConvertTrack(t).provider == "spotify"
  {
    ArtistsRecoverable(ArtistNames(t.artists));
  }

  // ------------------------------------------------------------------ paging

  /** The `limit` sent: the requested size, capped at Spotify's maximum of 50. */
  function Limit(size: int): (limit: int)
    ensures limit <= MaxLimit
    ensures size <= MaxLimit ==> limit == size
  {
    if size > MaxLimit then MaxLimit else size
  }

  // ------------------------------------------------------------------ the token

  /** The token state after `ensureToken`: whether a token is ready, whether one was requested, and the cached token. */
  datatype TokenOutcome = TokenOutcome(ready: bool, requested: bool, token: string, expiry: Time)

  function TokenStep(token: string, expiry: Time, now: Time, grant: Response<TokenGrant>): (r: TokenOutcome)
    ensures token != "" && now < expiry ==> r == TokenOutcome(true, false, token, expiry)
    ensures !(token != "" && now < expiry) ==> r.requested && (r.ready <==> grant.Body?)
    ensures !r.ready ==> r.token == token && r.expiry == expiry
    ensures r.requested && r.ready ==>
      r.token == grant.value.accessToken && r.expiry == now + grant.value.expiresIn - TokenMargin
  {
    if token != "" && now < expiry then TokenOutcome(true, false, token, expiry)
    else if grant.Body? then TokenOutcome(true, true, grant.value.accessToken, now + grant.value.expiresIn - TokenMargin)
    else TokenOutcome(false, true, token, expiry)
  }

  /**
   * A token fetched at `now` that lasts longer than the margin is reused,
   * without a request, until the margin before its stated expiry, and
   * renewed from then on.
   */
  lemma FetchedTokenReused(now: Time, g: TokenGrant, later: Time, grant2: Response<TokenGrant>)
    requires g.accessToken != "" && now <= later
    ensures var first := TokenStep("", ZeroTime, now, Body(g));
      var second := TokenStep(first.token, first.expiry, later, grant2);
      (later < now + g.expiresIn - TokenMargin ==> !second.requested && second.token == g.accessToken) &&
      (later >= now + g.expiresIn - TokenMargin ==> second.requested)
  {
  }

  // ------------------------------------------------------------------ responses

  /** `makeRequest` followed by the status and decode checks, each failure with its own code. */
  function Exchange<T>(tokenReady: bool, response: Response<T>, failedMessage: string, failedCode: string)
    : (r: Result<T, ProviderError>)
    ensures r.Ok? <==> tokenReady && response.Body?
    ensures r.Ok? ==> r.value == response.value
    ensures !tokenReady || response.NoResponse? ==> r == Err(ProviderError(Name, failedMessage, failedCode))
    ensures tokenReady && response.Status? ==> r.Err? && r.error.code == "API_ERROR"
    ensures tokenReady && response.Undecodable? ==> r == Err(ProviderError(Name, "Failed to decode response", "DECODE_ERROR"))
  {
    if !tokenReady || response.NoResponse? then Err(ProviderError(Name, failedMessage, failedCode))
    else if response.Status? then Err(ProviderError(Name, "API error: " + IntString(response.code) + " " + response.body, "API_ERROR"))
    else if response.Undecodable? then Err(ProviderError(Name, "Failed to decode response", "DECODE_ERROR"))
    else Ok(response.value)
  }

  /** A page of tracks: converted in order, the links deciding HasNext and HasPrev. */
  function TracksResult(tokenReady: bool, response: Response<TracksPage>, page: int, limit: int,
                        failedMessage: string, failedCode: string): (r: Result<(seq<Track>, PageInfo), MusicError>)
    ensures r.Ok? ==>
      tokenReady && response.Body? &&
      var body := response.value;
      r.value.0 == ConvertTracks(body.items) &&
      r.value.1.page == page && r.value.1.size == limit && r.value.1.total == body.total &&
      r.value.1.hasNext == body.next.Some? && r.value.1.hasPrev == body.previous.Some? &&
      TotalPages(body.total, limit) == Ok(r.value.1.totalPages)
    ensures Exchange(tokenReady, response, failedMessage, failedCode).Err? ==>
      r == Err(Provider(Exchange(tokenReady, response, failedMessage, failedCode).error))
    ensures tokenReady && response.Body? && limit == 0 ==> r == Err(DivideByZero)
    ensures tokenReady && response.Body? && limit != 0 ==> r.Ok?
  {
    match Exchange(tokenReady, response, failedMessage, failedCode)
    case Err(e) => Err(Provider(e))
    case Ok(body) =>
      match TotalPages(body.total, limit)
      case Err(e) => Err(e)
      case Ok(n) => Ok((ConvertTracks(body.items), PageInfo(page, limit, body.total, body.next.Some?, body.previous.Some?, n)))
  }

  /** A single track; a 404 is reported as the track not being found. */
  function TrackResult(tokenReady: bool, response: Response<SpotifyTrack>): (r: Result<Track, MusicError>)
    ensures r.Ok? <==> tokenReady && response.Body?
    ensures r.Ok? ==> r.value == ConvertTrack(response.value)
    ensures tokenReady && response.Status? && response.code == 404 ==>
      r == Err(Provider(ProviderError(Name, "Track not found", "NOT_FOUND")))
    ensures !tokenReady || response.NoResponse? ==>
      r == Err(Provider(ProviderError(Name, "Get track failed", "GET_TRACK_ERROR")))
  {
    if tokenReady && response.Status? && response.code == 404 then
      Err(Provider(ProviderError(Name, "Track not found", "NOT_FOUND")))
    else
      match Exchange(tokenReady, response, "Get track failed", "GET_TRACK_ERROR")
      case Err(e) => Err(Provider(e))
      case Ok(t) => Ok(ConvertTrack(t))
  }

  /** The browse categories, in the order Spotify lists them; categories are never paged, so nothing here divides. */
  function CategoriesResult(tokenReady: bool, response: Response<seq<SpotifyCategory>>): (r: Result<seq<Category>, MusicError>)
    ensures r.Ok? <==> tokenReady && response.Body?
    ensures r.Ok? ==> |r.value| == |response.value|
    ensures r.Ok? ==> forall i :: 0 <= i < |r.value| ==>
      (r.value[i].id == response.value[i].id && r.value[i].name == response.value[i].name &&
       r.value[i].description == "" && r.value[i].iconUrl == FirstUrl(response.value[i].icons))
    ensures r.Err? ==> r == Err(Provider(Exchange(tokenReady, response, "Get categories failed", "CATEGORIES_ERROR").error))
  {
    match Exchange(tokenReady, response, "Get categories failed", "CATEGORIES_ERROR")
    case Err(e) => Err(Provider(e))
    case Ok(items) => Ok(ConvertCategories(items))
  }

  /**
   * A page of a category's playlists; unlike the track pages, HasNext and
   * HasPrev come from the offset, limit and total Spotify reports.
   */
  function PlaylistsResult(tokenReady: bool, response: Response<PlaylistsPage>, page: int, limit: int)
    : (r: Result<(seq<PlaylistSummary>, PageInfo), MusicError>)
    ensures r.Ok? ==>
      tokenReady && response.Body? &&
      var body := response.value;
      r.value.0 == ConvertPlaylists(body.items) &&
      (forall i :: 0 <= i < |body.items| ==> r.value.0[i].provider == Name && r.value.0[i].trackCount == body.items[i].trackTotal) &&
      r.value.1.page == page && r.value.1.size == limit && r.value.1.total == body.total &&
      (r.value.1.hasNext <==> body.offset + body.limit < body.total) && (r.value.1.hasPrev <==> body.offset > 0) &&
      TotalPages(body.total, limit) == Ok(r.value.1.totalPages)
    ensures Exchange(tokenReady, response, "Get category playlists failed", "CATEGORY_PLAYLISTS_ERROR").Err? ==>
      r == Err(Provider(Exchange(tokenReady, response, "Get category playlists failed", "CATEGORY_PLAYLISTS_ERROR").error))
    ensures tokenReady && response.Body? && limit == 0 ==> r == Err(DivideByZero)
    ensures tokenReady && response.Body? && limit != 0 ==> r.Ok?
  {
    match Exchange(tokenReady, response, "Get category playlists failed", "CATEGORY_PLAYLISTS_ERROR")
    case Err(e) => Err(Provider(e))
    case Ok(body) =>
      match TotalPages(body.total, limit)
      case Err(e) => Err(e)
      case Ok(n) =>
        Ok((ConvertPlaylists(body.items),
            PageInfo(page, limit, body.total, body.offset + body.limit < body.total, body.offset > 0, n)))
  }

  /** The playlist the charts are read from, whatever the country asked for. */
  function ChartPlaylist(country: string): (id: string)
  {
    if country == "US" then TopFifty else TopFifty
  }

  /** Every country gets the same global chart. */
  lemma ChartsIgnoreCountry(a: string, b: string)
    ensures ChartPlaylist(a) == ChartPlaylist(b) == TopFifty
  {
  }

  // ------------------------------------------------------------------ conversion loops

  method ConvertAll(items: seq<SpotifyTrack>) returns (tracks: seq<Track>)
    ensures tracks == ConvertTracks(items)
  {
    tracks := [];
    var i := 0;
    while i < |items|
      invariant 0 <= i <= |items|
      invariant |tracks| == i
      invariant forall k :: 0 <= k < i ==> tracks[k] == ConvertTrack(items[k])
    {
      tracks := tracks + [ConvertTrack(items[i])];
      i := i + 1;
    }
  }

  method ConvertAllCategories(items: seq<SpotifyCategory>) returns (categories: seq<Category>)
    ensures categories == ConvertCategories(items)
  {
    categories := [];
    var i := 0;
    while i < |items|
      invariant 0 <= i <= |items|
      invariant |categories| == i
      invariant forall k :: 0 <= k < i ==> categories[k] == ConvertCategory(items[k])
    {
      var icon := if |items[i].icons| > 0 then items[i].icons[0].url else "";
      categories := categories + [Category(items[i].id, items[i].name, "", icon)];
      i := i + 1;
    }
  }

  method ConvertAllPlaylists(items: seq<SpotifyPlaylist>) returns (playlists: seq<PlaylistSummary>)
    ensures playlists == ConvertPlaylists(items)
  {
    playlists := [];
    var i := 0;
    while i < |items|
      invariant 0 <= i <= |items|
      invariant |playlists| == i
      invariant forall k :: 0 <= k < i ==> playlists[k] == ConvertPlaylist(items[k])
    {
      var p := items[i];
      var cover := if |p.images| > 0 then p.images[0].url else "";
      playlists := playlists + [PlaylistSummary(p.id, p.name, p.description, cover, p.trackTotal, Name, p.externalUrl, p.ownerName)];
      i := i + 1;
    }
  }

  // ------------------------------------------------------------------ the provider

  /**
   * The provider object. Each operation takes the time `now`, the token
   * endpoint's answer `grant` (used only if a new token is needed) and the
   * API's answer `response` (used only once a token is ready).
   */
  class SpotifyProvider {
    var accessToken: string
    var tokenExpiry: Time
    const clientId: string
    const clientSecret: string

    constructor (clientId: string, clientSecret: string)
      ensures this.clientId == clientId && this.clientSecret == clientSecret
      ensures accessToken == "" && tokenExpiry == ZeroTime
    {
      this.clientId := clientId;
      this.clientSecret := clientSecret;
      accessToken := "";
      tokenExpiry := ZeroTime;
    }

    function GetName(): (name: string)
    {
      Name
    }

    method EnsureToken(now: Time, grant: Response<TokenGrant>) returns (ready: bool, requested: bool)
      modifies this
      ensures var step := TokenStep(old(accessToken), old(tokenExpiry), now, grant);
        ready == step.ready && requested == step.requested && accessToken == step.token && tokenExpiry == step.expiry
    {
      if accessToken != "" && now < tokenExpiry {
        return true, false;
      }
      requested := true;
      match grant
      case Body(g) =>
        accessToken := g.accessToken;
        tokenExpiry := now + g.expiresIn - TokenMargin;
        ready := true;
      case _ =>
        ready := false;
    }

    method SearchTracks(query: string, page: int, size: int, now: Time, grant: Response<TokenGrant>, response: Response<TracksPage>)
      returns (limit: int, offset: int, r: Result<(seq<Track>, PageInfo), MusicError>)
      modifies this
      ensures limit == Limit(size) && offset == (page - 1) * limit
      ensures var step := TokenStep(old(accessToken), old(tokenExpiry), now, grant);
        accessToken == step.token && tokenExpiry == step.expiry &&
        r == TracksResult(step.ready, response, page, limit, "Search failed", "SEARCH_ERROR")
    {
      limit := Limit(size);
      offset := (page - 1) * limit;
      var ready, _ := EnsureToken(now, grant);
      var fetched := Exchange(ready, response, "Search failed", "SEARCH_ERROR");
      if fetched.Err? {
        return limit, offset, Err(Provider(fetched.error));
      }
      var tracks := ConvertAll(fetched.value.items);
      var pages := TotalPages(fetched.value.total, limit);
      if pages.Err? {
        return limit, offset, Err(pages.error);
      }
      var body := fetched.value;
      r := Ok((tracks, PageInfo(page, limit, body.total, body.next.Some?, body.previous.Some?, pages.value)));
    }

    method GetTrack(trackId: string, now: Time, grant: Response<TokenGrant>, response: Response<SpotifyTrack>)
      returns (r: Result<Track, MusicError>)
      modifies this
      ensures var step := TokenStep(old(accessToken), old(tokenExpiry), now, grant);
        accessToken == step.token && tokenExpiry == step.expiry && r == TrackResult(step.ready, response)
    {
      var ready, _ := EnsureToken(now, grant);
      if ready && response.Status? && response.code == 404 {
        return Err(Provider(ProviderError(Name, "Track not found", "NOT_FOUND")));
      }
      var fetched := Exchange(ready, response, "Get track failed", "GET_TRACK_ERROR");
      if fetched.Err? {
        return Err(Provider(fetched.error));
      }
      r := Ok(ConvertTrack(fetched.value));
    }

    method GetTopCharts(country: string, page: int, size: int, now: Time, grant: Response<TokenGrant>, response: Response<TracksPage>)
      returns (playlistId: string, limit: int, offset: int, r: Result<(seq<Track>, PageInfo), MusicError>)
      modifies this
      ensures playlistId == TopFifty
      ensures limit == Limit(size) && offset == (page - 1) * limit
      ensures var step := TokenStep(old(accessToken), old(tokenExpiry), now, grant);
        accessToken == step.token && tokenExpiry == step.expiry &&
        r == TracksResult(step.ready, response, page, limit, "Top charts failed", "TOP_CHARTS_ERROR")
    {
      limit := Limit(size);
      offset := (page - 1) * limit;
      playlistId := ChartPlaylist(country);
      var ready, _ := EnsureToken(now, grant);
      var fetched := Exchange(ready, response, "Top charts failed", "TOP_CHARTS_ERROR");
      if fetched.Err? {
        return playlistId, limit, offset, Err(Provider(fetched.error));
      }
      var tracks := ConvertAll(fetched.value.items);
      var pages := TotalPages(fetched.value.total, limit);
      if pages.Err? {
        return playlistId, limit, offset, Err(pages.error);
      }
      var body := fetched.value;
      r := Ok((tracks, PageInfo(page, limit, body.total, body.next.Some?, body.previous.Some?, pages.value)));
    }

    method GetCategories(now: Time, grant: Response<TokenGrant>, response: Response<seq<SpotifyCategory>>)
      returns (r: Result<seq<Category>, MusicError>)
      modifies this
      ensures var step := TokenStep(old(accessToken), old(tokenExpiry), now, grant);
        accessToken == step.token && tokenExpiry == step.expiry && r == CategoriesResult(step.ready, response)
    {
      var ready, _ := EnsureToken(now, grant);
      var fetched := Exchange(ready, response, "Get categories failed", "CATEGORIES_ERROR");
      if fetched.Err? {
        return Err(Provider(fetched.error));
      }
      var categories := ConvertAllCategories(fetched.value);
      r := Ok(categories);
    }

    method GetPlaylistsByCategory(categoryId: string, page: int, size: int, now: Time, grant: Response<TokenGrant>,
                                  response: Response<PlaylistsPage>)
      returns (limit: int, offset: int, r: Result<(seq<PlaylistSummary>, PageInfo), MusicError>)
      modifies this
      ensures limit == Limit(size) && offset == (page - 1) * limit
      ensures var step := TokenStep(old(accessToken), old(tokenExpiry), now, grant);
        accessToken == step.token && tokenExpiry == step.expiry && r == PlaylistsResult(step.ready, response, page, limit)
    {
      limit := Limit(size);
      offset := (page - 1) * limit;
      var ready, _ := EnsureToken(now, grant);
      var fetched := Exchange(ready, response, "Get category playlists failed", "CATEGORY_PLAYLISTS_ERROR");
      if fetched.Err? {
        return limit, offset, Err(Provider(fetched.error));
      }
      var playlists := ConvertAllPlaylists(fetched.value.items);
      var body := fetched.value;
      var pages := TotalPages(body.total, limit);
      if pages.Err? {
        return limit, offset, Err(pages.error);
      }
      r := Ok((playlists, PageInfo(page, limit, body.total, body.offset + body.limit < body.total, body.offset > 0, pages.value)));
    }
  }
}
