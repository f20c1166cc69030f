/**
 * The iTunes Search API provider: song searches (also used for the charts),
 * single-track lookups, a fixed list of categories, and no playlists. The
 * provider keeps no state between calls.
 */
module ITunes {
  import opened Wrappers
  import opened Text
  import opened Music

  /** The fields of an iTunes result that the conversion reads. */
  datatype ITunesTrack = ITunesTrack(
    trackId: int, artistName: string, collectionName: string, trackName: string, trackViewUrl: string,
    previewUrl: string, artworkUrl30: string, artworkUrl60: string, artworkUrl100: string,
    releaseDate: string, trackExplicitness: string, trackNumber: int, trackTimeMillis: int,
    primaryGenreName: string, kind: string)

  datatype SearchResponse = SearchResponse(resultCount: int, results: seq<ITunesTrack>)

  const Name := "itunes"
  const SmallArtwork := "100x100bb"
  const LargeArtwork := "600x600bb"
  const IndexOutOfRange := Panicked("index out of range [0] with length 0")

  // ------------------------------------------------------------------ conversion

  /** The largest artwork iTunes sent, rewritten to name the 600x600 rendition. */
  function Artwork(d: ITunesTrack): string
  {
    var url := if d.artworkUrl100 != "" then d.artworkUrl100
               else if d.artworkUrl60 != "" then d.artworkUrl60
               else d.artworkUrl30;
    if url != "" then ReplaceFirst(url, SmallArtwork, LargeArtwork) else url
  }

  /** Replacing a pattern by one of the same length keeps the length. */
  lemma ReplaceSameLength(s: string, pattern: string, replacement: string)
    requires |pattern| == |replacement|
    ensures |ReplaceFirst(s, pattern, replacement)| == |s|
  {
    var i := IndexOf(s, pattern);
    if i >= 0 {
      assert OccursAt(s, pattern, i);
    }
  }

  /**
   * There is artwork exactly when iTunes sent one of the three sizes; the
   * 100-pixel URL is preferred, and its first "100x100bb" becomes
   * "600x600bb" and nothing else changes.
   */
  lemma ArtworkChoice(d: ITunesTrack)
    ensures Artwork(d) == "" <==> d.artworkUrl100 == "" && d.artworkUrl60 == "" && d.artworkUrl30 == ""
    ensures d.artworkUrl100 != "" ==> |Artwork(d)| == |d.artworkUrl100|
    ensures d.artworkUrl100 != "" && IndexOf(d.artworkUrl100, SmallArtwork) == -1 ==> Artwork(d) == d.artworkUrl100
    ensures d.artworkUrl100 != "" && IndexOf(d.artworkUrl100, SmallArtwork) >= 0 ==>
      var i := IndexOf(d.artworkUrl100, SmallArtwork);
      OccursAt(Artwork(d), LargeArtwork, i) && Artwork(d)[..i] == d.artworkUrl100[..i] &&
      Artwork(d)[i + 9..] == d.artworkUrl100[i + 9..]
  {
    var url := if d.artworkUrl100 != "" then d.artworkUrl100
               else if d.artworkUrl60 != "" then d.artworkUrl60
               else d.artworkUrl30;
    ReplaceSameLength(url, SmallArtwork, LargeArtwork);
    if d.artworkUrl100 != "" && IndexOf(d.artworkUrl100, SmallArtwork) >= 0 {
      var i := IndexOf(d.artworkUrl100, SmallArtwork);
      assert OccursAt(d.artworkUrl100, SmallArtwork, i);
      var r := Artwork(d);
      assert r == d.artworkUrl100[..i] + LargeArtwork + d.artworkUrl100[i + 9..];
      assert r[i..i + 9] == LargeArtwork;
    }
  }

  /** `convertToTrack`. */
  function ConvertToTrack(d: ITunesTrack): Track
  {
    Track(IntString(d.trackId), d.trackName, d.artistName, d.collectionName, d.trackTimeMillis, Artwork(d),
          d.previewUrl, d.trackNumber, d.releaseDate, d.primaryGenreName, Name, d.trackViewUrl,
          d.trackExplicitness == "explicit", 0)
  }

  /**
   * The track id is the decimal iTunes id, so tracks with different iTunes
   * ids never share an id; a track is explicit exactly when iTunes marks it
   * "explicit" (not "cleaned" or "notExplicit"); iTunes reports no popularity.
   */
  lemma ConvertedTrack(a: ITunesTrack, b: ITunesTrack)
    ensures ConvertToTrack(a).id == ConvertToTrack(b).id <==> a.trackId == b.trackId
    ensures ConvertToTrack(a).explicit <==> a.trackExplicitness == "explicit"
    ensures ConvertToTrack(a).provider == "itunes" && ConvertToTrack(a).popularity == 0
    ensures a.trackId >= 0 ==> DigitsValue(ConvertToTrack(a).id) == a.trackId
  {
    if ConvertToTrack(a).id == ConvertToTrack(b).id {
      IntStringInjective(a.trackId, b.trackId);
    }
    if a.trackId >= 0 {
      DigitsValueOfNatString(a.trackId);
    }
  }

  function ConvertTracks(items: seq<ITunesTrack>): (r: seq<Track>)
    ensures |r| == |items|
    ensures forall i :: 0 <= i < |items| ==> r[i] == ConvertToTrack(items[i])
  {
    if items == [] then [] else [ConvertToTrack(items[0])] + ConvertTracks(items[1..])
  }

  /** The results whose kind is "song", in the order iTunes sent them. */
  function Songs(results: seq<ITunesTrack>): (r: seq<ITunesTrack>)
    ensures |r| <= |results|
    ensures forall x :: x in r ==> x in results && x.kind == "song"
    ensures forall x :: x in results && x.kind == "song" ==> x in r
  {
    if results == [] then []
    else
      var last := results[|results| - 1];
      assert results == results[..|results| - 1] + [last];
      Songs(results[..|results| - 1]) + (if last.kind == "song" then [last] else [])
  }

  // ------------------------------------------------------------------ search

  /** The query parameters of a search. */
  function SearchParams(query: string, page: int, size: int, filters: Option<SearchFilters>): (m: map<string, string>)
    ensures m.Keys <= {"term", "media", "entity", "limit", "offset", "genreId", "explicit"}
    ensures "term" in m && m["term"] == query && "media" in m && m["media"] == "music"
    ensures "entity" in m && m["entity"] == "song"
    ensures "limit" in m && m["limit"] == IntString(size) && "offset" in m && m["offset"] == IntString((page - 1) * size)
    ensures "genreId" in m <==> filters.Some? && filters.value.genre != ""
    ensures "genreId" in m ==> m["genreId"] == filters.value.genre
    ensures "explicit" in m <==> filters.Some? && filters.value.explicit.Some?
    ensures "explicit" in m ==> (m["explicit"] == "Yes" <==> filters.value.explicit.value)
  {
    var base := map["term" := query, "media" := "music", "entity" := "song",
                    "limit" := IntString(size), "offset" := IntString((page - 1) * size)];
    if filters.None? then base
    else
      var withGenre := if filters.value.genre != "" then base["genreId" := filters.value.genre] else base;
      match filters.value.explicit
      case None => withGenre
      case Some(e) => withGenre["explicit" := if e then "Yes" else "No"]
  }

  /**
   * What a search answers: the songs among the results, converted in order,
   * with HasNext guessed from whether a full page of songs came back.
   */
  function SearchResult(response: Response<SearchResponse>, page: int, size: int)
    : (r: Result<(seq<Track>, PageInfo), MusicError>)
    ensures r.Ok? ==>
      response.Body? &&
      r.value.0 == ConvertTracks(Songs(response.value.results)) &&
      r.value.1.page == page && r.value.1.size == size && r.value.1.total == response.value.resultCount &&
      (r.value.1.hasNext <==> |r.value.0| == size) && (r.value.1.hasPrev <==> page > 1) &&
      TotalPages(response.value.resultCount, size) == Ok(r.value.1.totalPages)
    ensures response.NoResponse? ==> r == Err(Provider(ProviderError(Name, "Failed to search tracks", "SEARCH_ERROR")))
    ensures response.Status? ==> r == Err(Provider(ProviderError(Name, "API request failed", "API_ERROR")))
    ensures response.Undecodable? ==> r == Err(Provider(ProviderError(Name, "Failed to parse response", "PARSE_ERROR")))
    ensures response.Body? && size == 0 ==> r == Err(DivideByZero)
    ensures response.Body? && size != 0 ==> r.Ok?
  {
    match response
    case NoResponse => Err(Provider(ProviderError(Name, "Failed to search tracks", "SEARCH_ERROR")))
    case Status(_, _) => Err(Provider(ProviderError(Name, "API request failed", "API_ERROR")))
    case Undecodable => Err(Provider(ProviderError(Name, "Failed to parse response", "PARSE_ERROR")))
    case Body(body) =>
      var tracks := ConvertTracks(Songs(body.results));
      match TotalPages(body.resultCount, size)
      case Err(e) => Err(e)
      case Ok(n) => Ok((tracks, PageInfo(page, size, body.resultCount, |tracks| == size, page > 1, n)))
  }

  /** A search never returns more tracks than iTunes sent results, and every one is an iTunes song. */
  lemma SearchKeepsSongsOnly(response: Response<SearchResponse>, page: int, size: int)
    requires SearchResult(response, page, size).Ok?
    ensures var tracks := SearchResult(response, page, size).value.0;
      |tracks| <= |response.value.results| &&
      forall i :: 0 <= i < |tracks| ==>
        (tracks[i].provider == "itunes" &&
         exists x :: x in response.value.results && x.kind == "song" && tracks[i] == ConvertToTrack(x))
  {
    var songs := Songs(response.value.results);
    var tracks := SearchResult(response, page, size).value.0;
    forall i | 0 <= i < |tracks|
      ensures tracks[i].provider == "itunes"
      ensures exists x :: x in response.value.results && x.kind == "song" && tracks[i] == ConvertToTrack(x)
    {
      assert songs[i] in songs;
    }
  }

  lemma {:induction false} ConvertTracksAppend(items: seq<ITunesTrack>, x: ITunesTrack)
    ensures ConvertTracks(items + [x]) == ConvertTracks(items) + [ConvertToTrack(x)]
  {
    if items != [] {
      assert (items + [x])[1..] == items[1..] + [x];
      ConvertTracksAppend(items[1..], x);
    }
  }

  /** The search loop: keep the songs, converting each. */
  method SongTracks(results: seq<ITunesTrack>) returns (tracks: seq<Track>)
    ensures tracks == ConvertTracks(Songs(results))
  {
    tracks := [];
    var i := 0;
    while i < |results|
      invariant 0 <= i <= |results|
      invariant tracks == ConvertTracks(Songs(results[..i]))
    {
      assert results[..i + 1][..i] == results[..i];
      if results[i].kind == "song" {
        ConvertTracksAppend(Songs(results[..i]), results[i]);
        tracks := tracks + [ConvertToTrack(results[i])];
      }
      i := i + 1;
    }
    assert results[..i] == results;
  }

  /** `SearchTracks`: the parameters sent, and what comes of iTunes' answer. */
  method SearchTracks(query: string, page: int, size: int, filters: Option<SearchFilters>, response: Response<SearchResponse>)
    returns (params: map<string, string>, r: Result<(seq<Track>, PageInfo), MusicError>)
    ensures params == SearchParams(query, page, size, filters)
    ensures r == SearchResult(response, page, size)
  {
    params := SearchParams(query, page, size, filters);
    match response
    case NoResponse =>
      return params, Err(Provider(ProviderError(Name, "Failed to search tracks", "SEARCH_ERROR")));
    case Status(_, _) =>
      return params, Err(Provider(ProviderError(Name, "API request failed", "API_ERROR")));
    case Undecodable =>
      return params, Err(Provider(ProviderError(Name, "Failed to parse response", "PARSE_ERROR")));
    case Body(body) =>
      var tracks := SongTracks(body.results);
      var pages := TotalPages(body.resultCount, size);
      if pages.Err? {
        return params, Err(pages.error);
      }
      r := Ok((tracks, PageInfo(page, size, body.resultCount, |tracks| == size, page > 1, pages.value)));
  }

  /** `GetTopCharts`: a search for "pop", whatever the country. */
  method GetTopCharts(country: string, page: int, size: int, response: Response<SearchResponse>)
    returns (params: map<string, string>, r: Result<(seq<Track>, PageInfo), MusicError>)
    ensures params == SearchParams("pop", page, size, None)
    ensures r == SearchResult(response, page, size)
  {
    params, r := SearchTracks("pop", page, size, None, response);
  }

  // ------------------------------------------------------------------ lookup

  /** `GetTrack`: a lookup by id; a lookup counting no results is "not found". */
  function LookupResult(response: Response<SearchResponse>): (r: Result<Track, MusicError>)
    ensures r.Ok? <==> response.Body? && response.value.resultCount != 0 && response.value.results != []
    ensures r.Ok? ==> r.value == ConvertToTrack(response.value.results[0])
    ensures response.NoResponse? ==> r == Err(Provider(ProviderError(Name, "Failed to get track", "GET_ERROR")))
    ensures response.Body? && response.value.resultCount == 0 ==>
      r == Err(Provider(ProviderError(Name, "Track not found", "NOT_FOUND")))
    ensures response.Body? && response.value.resultCount != 0 && response.value.results == [] ==> r == Err(IndexOutOfRange)
  {
    match response
    case NoResponse => Err(Provider(ProviderError(Name, "Failed to get track", "GET_ERROR")))
    case Status(_, _) => Err(Provider(ProviderError(Name, "API request failed", "API_ERROR")))
    case Undecodable => Err(Provider(ProviderError(Name, "Failed to parse response", "PARSE_ERROR")))
    case Body(body) =>
      if body.resultCount == 0 then Err(Provider(ProviderError(Name, "Track not found", "NOT_FOUND")))
      else if body.results == [] then Err(IndexOutOfRange)
      else Ok(ConvertToTrack(body.results[0]))
  }

  // ------------------------------------------------------------------ categories and playlists

  /** The eight predefined genres; iTunes has no categories endpoint. */
  function Categories(): (r: seq<Category>)
  {
    [ Category("1", "Pop", "Popular music", ""),
      Category("2", "Rock", "Rock music", ""),
      Category("3", "Hip-Hop", "Hip-Hop music", ""),
      Category("4", "R&B", "R&B music", ""),
      Category("5", "Country", "Country music", ""),
      Category("6", "Electronic", "Electronic music", ""),
      Category("7", "Jazz", "Jazz music", ""),
      Category("8", "Classical", "Classical music", "") ]
  }

  /**
   * The categories are numbered 1 to 8 in order, so their ids are distinct;
   * each is described as "<name> music" except Pop, "Popular music"; none
   * has an icon.
   */
  lemma CategoriesNumbered()
    ensures |Categories()| == 8
    ensures forall i :: 0 <= i < 8 ==> Categories()[i].id == IntString(i + 1) && Categories()[i].iconUrl == ""
    ensures forall i, j :: 0 <= i < j < 8 ==> Categories()[i].id != Categories()[j].id
    ensures Categories()[0].description == "Popular music"
    ensures forall i :: 1 <= i < 8 ==> Categories()[i].description == Categories()[i].name + " music"
  {
    CategoryIds();
    CategoryDescriptions();
  }

  lemma CategoryIds()
    ensures |Categories()| == 8
    ensures forall i :: 0 <= i < 8 ==> Categories()[i].id == IntString(i + 1) && Categories()[i].iconUrl == ""
    ensures forall i, j :: 0 <= i < j < 8 ==> Categories()[i].id != Categories()[j].id
  {
    var c := Categories();
    forall i | 0 <= i < 8
      ensures c[i].id == IntString(i + 1) && c[i].id == [DigitChar(i + 1)]
    {
      assert IntString(i + 1) == [DigitChar(i + 1)];
    }
  }

  lemma CategoryDescriptions()
    ensures |Categories()| == 8
    ensures Categories()[0].description == "Popular music"
    ensures forall i :: 1 <= i < 8 ==> Categories()[i].description == Categories()[i].name + " music"
  {
    var c := Categories();
    forall i | 1 <= i < 8
      ensures c[i].description == c[i].name + " music"
    {
      if i == 1 { assert c[1].description == "Rock" + " music"; }
      else if i == 2 { assert c[2].description == "Hip-Hop" + " music"; }
      else if i == 3 { assert c[3].description == "R&B" + " music"; }
      else if i == 4 { assert c[4].description == "Country" + " music"; }
      else if i == 5 { assert c[5].description == "Electronic" + " music"; }
      else if i == 6 { assert c[6].description == "Jazz" + " music"; }
      else { assert c[7].description == "Classical" + " music"; }
    }
  }

  /** `GetPlaylistsByCategory`: never supported by iTunes. */
  function PlaylistsByCategory(categoryId: string, page: int, size: int): (r: Result<(seq<PlaylistSummary>, PageInfo), MusicError>)
    ensures r.Err? && r.error.Provider? && r.error.failure.code == "NOT_SUPPORTED"
  {
    Err(Provider(ProviderError(Name, "Playlists not supported", "NOT_SUPPORTED")))
  }
}
