/**
 * The provider registry and the music service on top of it. The registry
 * maps provider names to the providers the configuration enables; the
 * service dispatches to one provider by name, or fans a search out to all
 * of them and merges what comes back.
 *
 * Calls into a provider are represented by what that provider answers,
 * given as a function of the provider's name; the providers themselves are
 * modelled in the ITunes and Spotify modules. Go's map iteration order and
 * the order in which concurrent searches finish are left open: the methods
 * pick the next name with `:|`, so their contracts hold for every order.
 */
module Registry {
  import opened Wrappers
  import opened Music
  import opened Paging
  import ITunes
  import Spotify

  /** The providers a registry can hold: iTunes, or Spotify with its client credentials. */
  datatype ProviderKind = ITunesProvider | SpotifyProvider(clientId: string, clientSecret: string)

  /** `GetName`. */
  function NameOf(p: ProviderKind): string
  {
    match p
    case ITunesProvider => ITunes.Name
    case SpotifyProvider(_, _) => Spotify.Name
  }

  type SearchOutcome = Result<(seq<Track>, PageInfo), MusicError>

  /** The page size the music handlers use when none is given. */
  const DefaultSize := 20

  // ------------------------------------------------------------------ sums over provider names

  ghost function Pick(names: set<string>): (n: string)
    requires names != {}
    ensures n in names
  {
    var n :| n in names; n
  }

  /** The sum of the totals reported for `names`. */
  ghost function SumOver(names: set<string>, infos: map<string, PageInfo>): int
    requires names <= infos.Keys
    decreases |names|
  {
    if names == {} then 0
    else var n := Pick(names); infos[n].total + SumOver(names - {n}, infos)
  }

  /** All tracks returned for `names`, counted with multiplicity. */
  ghost function BagOver(names: set<string>, results: map<string, seq<Track>>): multiset<Track>
    requires names <= results.Keys
    decreases |names|
  {
    if names == {} then multiset{}
    else var n := Pick(names); multiset(results[n]) + BagOver(names - {n}, results)
  }

  /** The sum does not depend on which name is taken first. */
  lemma {:induction false} SumOverPick(names: set<string>, infos: map<string, PageInfo>, x: string)
    requires names <= infos.Keys && x in names
    ensures SumOver(names, infos) == infos[x].total + SumOver(names - {x}, infos)
    decreases |names|
  {
    var n := Pick(names);
    if n != x {
      SumOverPick(names - {n}, infos, x);
      SumOverPick(names - {x}, infos, n);
      assert names - {n} - {x} == names - {x} - {n};
    }
  }

  /** Nor does the collection of tracks. */
  lemma {:induction false} BagOverPick(names: set<string>, results: map<string, seq<Track>>, x: string)
    requires names <= results.Keys && x in names
    ensures BagOver(names, results) == multiset(results[x]) + BagOver(names - {x}, results)
    decreases |names|
  {
    var n := Pick(names);
    if n != x {
      BagOverPick(names - {n}, results, x);
      BagOverPick(names - {x}, results, n);
      assert names - {n} - {x} == names - {x} - {n};
    }
  }

  /** The tracks of the providers among `names` whose search succeeded. */
  function SuccessTracks(names: set<string>, outcome: string -> SearchOutcome): (m: map<string, seq<Track>>)
    ensures forall n :: n in m <==> n in names && outcome(n).Ok?
  {
    map n | n in names && outcome(n).Ok? :: outcome(n).value.0
  }

  /** Their page information. */
  function SuccessInfos(names: set<string>, outcome: string -> SearchOutcome): (m: map<string, PageInfo>)
    ensures m.Keys == SuccessTracks(names, outcome).Keys
  {
    map n | n in names && outcome(n).Ok? :: outcome(n).value.1
  }

  /** The errors among the outcomes, in the order the providers finished. */
  function ErrorsIn(arrival: seq<string>, outcome: string -> SearchOutcome): (r: seq<MusicError>)
    ensures |r| <= |arrival|
  {
    if arrival == [] then []
    else
      var last := arrival[|arrival| - 1];
      assert arrival == arrival[..|arrival| - 1] + [last];
      ErrorsIn(arrival[..|arrival| - 1], outcome) + (if outcome(last).Err? then [outcome(last).error] else [])
  }

  /**
   * No error is collected exactly when every search succeeded; otherwise the
   * first one collected is the error of a provider that was asked.
   */
  lemma {:induction false} ErrorsFromProviders(arrival: seq<string>, outcome: string -> SearchOutcome)
    ensures ErrorsIn(arrival, outcome) == [] <==> forall k :: 0 <= k < |arrival| ==> outcome(arrival[k]).Ok?
    ensures ErrorsIn(arrival, outcome) != [] ==>
      exists k :: 0 <= k < |arrival| && outcome(arrival[k]) == Err(ErrorsIn(arrival, outcome)[0])
  {
    if arrival != [] {
      var init := arrival[..|arrival| - 1];
      ErrorsFromProviders(init, outcome);
      if ErrorsIn(init, outcome) != [] {
        var k :| 0 <= k < |init| && outcome(init[k]) == Err(ErrorsIn(init, outcome)[0]);
        assert arrival[k] == init[k];
      }
    }
  }

  lemma ErrorsInSnoc(arrival: seq<string>, n: string, outcome: string -> SearchOutcome)
    ensures ErrorsIn(arrival + [n], outcome) == ErrorsIn(arrival, outcome) + (if outcome(n).Err? then [outcome(n).error] else [])
  {
    assert (arrival + [n])[..|arrival|] == arrival;
  }

  /** The name each provider reports, in list order. */
  function Names(ps: seq<ProviderKind>): (r: seq<string>)
    ensures |r| == |ps| && forall i :: 0 <= i < |ps| ==> r[i] == NameOf(ps[i])
  {
    seq(|ps|, i requires 0 <= i < |ps| => NameOf(ps[i]))
  }

  /** `s` lists every element of `names` exactly once. */
  predicate Lists(s: seq<string>, names: set<string>)
  {
    |s| == |names| && (forall i :: 0 <= i < |s| ==> s[i] in names) &&
    (forall n :: n in names ==> n in s) &&
    (forall i, j :: 0 <= i < j < |s| ==> s[i] != s[j])
  }

  /** Taking names out of a set one at a time lists it. */
  lemma ListsGrow(s: seq<string>, done: set<string>, n: string)
    requires Lists(s, done) && n !in done
    ensures Lists(s + [n], done + {n})
  {
    assert |done + {n}| == |done| + 1;
  }

  /** Moving one name from the pending set to the done set keeps them a partition of `all`. */
  lemma TakeOne(pending: set<string>, done: set<string>, all: set<string>, n: string)
    requires pending !! done && pending + done == all && n in pending
    ensures (pending - {n}) !! (done + {n}) && (pending - {n}) + (done + {n}) == all
    ensures |pending - {n}| < |pending|
  {
  }

  /** Appending a name and its provider keeps the two lists aligned. */
  lemma AlignedGrow(ps: seq<ProviderKind>, names: seq<string>, m: map<string, ProviderKind>, n: string)
    requires |ps| == |names| && (forall i :: 0 <= i < |names| ==> names[i] in m && ps[i] == m[names[i]]) && n in m
    ensures var ps', names' := ps + [m[n]], names + [n];
      |ps'| == |names'| && forall i :: 0 <= i < |names'| ==> names'[i] in m && ps'[i] == m[names'[i]]
  {
  }

  // ------------------------------------------------------------------ the registry

  class ProviderRegistry {
    var providers: map<string, ProviderKind>
    const enabledOnly: seq<string>

    /** Only enabled providers are registered, each under its own name. */
    ghost predicate Valid()
      reads this
    {
      forall name :: name in providers ==> name in enabledOnly && NameOf(providers[name]) == name
    }

    constructor (enabledProviders: seq<string>)
      ensures Valid()
      ensures providers == map[] && enabledOnly == enabledProviders
    {
      providers := map[];
      enabledOnly := enabledProviders;
    }

    /** `Register`: adds or replaces the provider under its name, if that name is enabled. */
    method Register(p: ProviderKind) returns (err: Option<MusicError>)
      requires Valid()
      modifies this
      ensures Valid()
      ensures NameOf(p) in enabledOnly ==> err == None && providers == old(providers)[NameOf(p) := p]
      ensures NameOf(p) !in enabledOnly ==> err == Some(NotEnabled(NameOf(p))) && providers == old(providers)
    {
      var name := NameOf(p);
      var enabled := false;
      var i := 0;
      while i < |enabledOnly|
        invariant 0 <= i <= |enabledOnly|
        invariant name !in enabledOnly[..i]
      {
        if enabledOnly[i] == name {
          enabled := true;
          break;
        }
        i := i + 1;
      }
      if !enabled {
        assert enabledOnly[..i] == enabledOnly;
        return Some(NotEnabled(name));
      }
      providers := providers[name := p];
      err := None;
    }

    /** `GetProvider`. */
    function GetProvider(name: string): (r: Result<ProviderKind, MusicError>)
      requires Valid()
      reads this
      ensures r.Ok? <==> name in providers
      ensures r.Ok? ==> r.value == providers[name] && NameOf(r.value) == name && name in enabledOnly
      ensures r.Err? ==> r.error == NotRegistered(name)
    {
      if name in providers then Ok(providers[name]) else Err(NotRegistered(name))
    }

    /** `GetEnabledProviders`, in map iteration order: every registered provider once. */
    method GetEnabledProviders() returns (ps: seq<ProviderKind>)
      requires Valid()
      ensures Lists(Names(ps), providers.Keys)
      ensures forall i :: 0 <= i < |ps| ==> NameOf(ps[i]) in providers && ps[i] == providers[NameOf(ps[i])]
    {
      ps := [];
      ghost var names: seq<string> := [];
      var pending := providers.Keys;
      ghost var done: set<string> := {};
      while pending != {}
        invariant pending !! done && pending + done == providers.Keys
        invariant Lists(names, done)
        invariant |ps| == |names| && forall i :: 0 <= i < |names| ==> names[i] in providers && ps[i] == providers[names[i]]
        decreases |pending|
      {
        var n :| n in pending;
        ListsGrow(names, done, n);
        TakeOne(pending, done, providers.Keys, n);
        AlignedGrow(ps, names, providers, n);
        ps := ps + [providers[n]];
        names := names + [n];
        done := done + {n};
        pending := pending - {n};
      }
      assert Names(ps) == names;
    }

    /** `GetProviderNames`, in map iteration order: every registered name once. */
    method GetProviderNames() returns (names: seq<string>)
      ensures Lists(names, providers.Keys)
    {
      names := [];
      var pending := providers.Keys;
      ghost var done: set<string> := {};
      while pending != {}
        invariant pending !! done && pending + done == providers.Keys
        invariant Lists(names, done)
        decreases |pending|
      {
        var n :| n in pending;
        ListsGrow(names, done, n);
        TakeOne(pending, done, providers.Keys, n);
        names := names + [n];
        done := done + {n};
        pending := pending - {n};
      }
    }

    /**
     * `SearchAllProviders`: every registered provider is asked; the
     * successes are keyed by provider, and the errors kept in the order
     * the searches finished (`arrival`).
     */
    method SearchAllProviders(outcome: string -> SearchOutcome)
      returns (results: map<string, seq<Track>>, pageInfos: map<string, PageInfo>, errors: seq<MusicError>,
               ghost arrival: seq<string>)
      ensures forall n :: n in arrival <==> n in providers
      ensures results.Keys == pageInfos.Keys
      ensures forall n :: n in results <==> n in providers && outcome(n).Ok?
      ensures forall n :: n in results ==> results[n] == outcome(n).value.0 && pageInfos[n] == outcome(n).value.1
      ensures errors == ErrorsIn(arrival, outcome)
    {
      results, pageInfos, errors, arrival := map[], map[], [], [];
      var pending := providers.Keys;
      while pending != {}
        invariant pending <= providers.Keys
        invariant forall n :: n in providers ==> (n in arrival <==> n !in pending)
        invariant forall n :: n in arrival ==> n in providers
        invariant results.Keys == pageInfos.Keys
        invariant forall n :: n in results <==> n in arrival && outcome(n).Ok?
        invariant forall n :: n in results ==> results[n] == outcome(n).value.0 && pageInfos[n] == outcome(n).value.1
        invariant errors == ErrorsIn(arrival, outcome)
        decreases |pending|
      {
        var n :| n in pending;
        var res := outcome(n);
        if res.Err? {
          errors := errors + [res.error];
        } else {
          results := results[n := res.value.0];
          pageInfos := pageInfos[n := res.value.1];
        }
        ErrorsInSnoc(arrival, n, outcome);
        arrival := arrival + [n];
        pending := pending - {n};
      }
    }
  }

  // ------------------------------------------------------------------ the service

  /** The providers `initializeProviders` registers for a list of enabled names. */
  function Initialized(enabled: seq<string>, clientId: string, clientSecret: string): (m: map<string, ProviderKind>)
    ensures m.Keys <= {ITunes.Name, Spotify.Name}
    ensures ITunes.Name in m <==> ITunes.Name in enabled
    ensures Spotify.Name in m <==> Spotify.Name in enabled && clientId != "" && clientSecret != ""
    ensures ITunes.Name in m ==> m[ITunes.Name] == ITunesProvider
    ensures Spotify.Name in m ==> m[Spotify.Name] == SpotifyProvider(clientId, clientSecret)
  {
    if enabled == [] then map[]
    else
      var last := enabled[|enabled| - 1];
      var before := Initialized(enabled[..|enabled| - 1], clientId, clientSecret);
      assert enabled == enabled[..|enabled| - 1] + [last];
      if last == ITunes.Name then before[ITunes.Name := ITunesProvider]
      else if last == Spotify.Name && clientId != "" && clientSecret != "" then
        before[Spotify.Name := SpotifyProvider(clientId, clientSecret)]
      else before
  }

  /** The combined page for a merged search; the division panics for a zero size. */
  function CombinedPage(page: int, size: int, count: int, total: int): (r: Result<PageInfo, MusicError>)
    ensures r.Err? <==> size == 0
    ensures r.Ok? ==>
      r.value.page == page && r.value.size == size && r.value.total == total &&
      (r.value.hasNext <==> count == size) && (r.value.hasPrev <==> page > 1) &&
      TotalPages(total, size) == Ok(r.value.totalPages)
  {
    match TotalPages(total, size)
    case Err(e) => Err(e)
    case Ok(n) => Ok(PageInfo(page, size, total, count == size, page > 1, n))
  }

  /**
   * `r` merges the successful searches, `tracks` and `infos` keyed by
   * provider: for a zero size the page arithmetic panics; otherwise every
   * track of every success appears, as often as it was returned, and the
   * total is the sum of their totals.
   */
  ghost predicate Merged(r: SearchOutcome, tracks: map<string, seq<Track>>, infos: map<string, PageInfo>, page: int, size: int)
    requires tracks.Keys == infos.Keys
  {
    (size == 0 ==> r == Err(DivideByZero)) &&
    (size != 0 ==>
      (r.Ok? && multiset(r.value.0) == BagOver(tracks.Keys, tracks) &&
       Ok(r.value.1) == CombinedPage(page, size, |r.value.0|, SumOver(tracks.Keys, infos))))
  }

  /**
   * HasNext compares the merged count with the page size, so once two
   * providers each return a full page the merged page claims there is
   * nothing more, although both have further results.
   */
  lemma FullPagesHideNext(r: SearchOutcome, tracks: map<string, seq<Track>>, infos: map<string, PageInfo>,
                          page: int, size: int, a: string, b: string)
    requires tracks.Keys == infos.Keys && Merged(r, tracks, infos, page, size)
    requires size > 0 && a != b && a in tracks && b in tracks && |tracks[a]| == size && |tracks[b]| == size
    ensures r.Ok? && !r.value.1.hasNext
  {
    BagOverPick(tracks.Keys, tracks, a);
    BagOverPick(tracks.Keys - {a}, tracks, b);
    assert |multiset(r.value.0)| >= |multiset(tracks[a])| + |multiset(tracks[b])|;
  }

  /** The maps the fan-out collects are the successes. */
  lemma SuccessMaps(results: map<string, seq<Track>>, pageInfos: map<string, PageInfo>, names: set<string>,
                    outcome: string -> SearchOutcome)
    requires results.Keys == pageInfos.Keys
    requires forall n :: n in results <==> n in names && outcome(n).Ok?
    requires forall n :: n in results ==> results[n] == outcome(n).value.0 && pageInfos[n] == outcome(n).value.1
    ensures results == SuccessTracks(names, outcome) && pageInfos == SuccessInfos(names, outcome)
  {
  }

  class MusicService {
    const registry: ProviderRegistry

    /** `NewMusicService`: registers each enabled provider it knows; Spotify only with both credentials. */
    constructor (enabledProviders: seq<string>, spotifyClientId: string, spotifyClientSecret: string)
      ensures fresh(registry) && registry.Valid() && registry.enabledOnly == enabledProviders
      ensures registry.providers == Initialized(enabledProviders, spotifyClientId, spotifyClientSecret)
    {
      registry := new ProviderRegistry(enabledProviders);
      new;
      var i := 0;
      while i < |enabledProviders|
        invariant 0 <= i <= |enabledProviders|
        invariant registry.Valid() && registry.enabledOnly == enabledProviders
        invariant registry.providers == Initialized(enabledProviders[..i], spotifyClientId, spotifyClientSecret)
        modifies registry
      {
        var name := enabledProviders[i];
        assert enabledProviders[..i + 1][..i] == enabledProviders[..i];
        if name == ITunes.Name {
          var _ := registry.Register(ITunesProvider);
        } else if name == Spotify.Name && spotifyClientId != "" && spotifyClientSecret != "" {
          var _ := registry.Register(SpotifyProvider(spotifyClientId, spotifyClientSecret));
        }
        i := i + 1;
      }
      assert enabledProviders[..i] == enabledProviders;
    }

    ghost predicate Valid()
      reads this, registry
    {
      registry.Valid()
    }

    /** The merge step of `SearchTracks`, over the successes in map iteration order. */
    method Combine(results: map<string, seq<Track>>, pageInfos: map<string, PageInfo>)
      returns (combined: seq<Track>, total: int)
      requires results.Keys == pageInfos.Keys
      ensures multiset(combined) == BagOver(results.Keys, results)
      ensures total == SumOver(results.Keys, pageInfos)
    {
      combined, total := [], 0;
      var pending := results.Keys;
      while pending != {}
        invariant pending <= results.Keys
        invariant multiset(combined) + BagOver(pending, results) == BagOver(results.Keys, results)
        invariant total + SumOver(pending, pageInfos) == SumOver(results.Keys, pageInfos)
        decreases |pending|
      {
        var n :| n in pending;
        BagOverPick(pending, results, n);
        SumOverPick(pending, pageInfos, n);
        combined := combined + results[n];
        total := total + pageInfos[n].total;
        pending := pending - {n};
      }
    }

    /**
     * The merged search of `SearchTracks`, when no provider is named: every
     * provider is searched and the successes merged, their totals summed.
     * If none succeeded, the first error to arrive is returned, or an empty
     * page when no provider is registered. A zero size reaches the
     * division and panics.
     */
    method SearchEveryProvider(page: int, size: int, outcome: string -> SearchOutcome) returns (r: SearchOutcome)
      requires Valid()
      ensures registry.providers == map[] ==> r == Ok(([], PageInfo(page, size, 0, false, false, 0)))
      ensures registry.providers != map[] && SuccessTracks(registry.providers.Keys, outcome) == map[] ==>
        exists n :: n in registry.providers && outcome(n).Err? && r == outcome(n)
      ensures SuccessTracks(registry.providers.Keys, outcome) != map[] ==>
        Merged(r, SuccessTracks(registry.providers.Keys, outcome), SuccessInfos(registry.providers.Keys, outcome), page, size)
    {
      var results, pageInfos, errors, arrival := registry.SearchAllProviders(outcome);
      ErrorsFromProviders(arrival, outcome);
      if |results| == 0 {
        if |errors| > 0 {
          ghost var k :| 0 <= k < |arrival| && outcome(arrival[k]) == Err(errors[0]);
          assert arrival[k] in arrival;
          return Err(errors[0]);
        }
        assert forall n :: n !in registry.providers;
        return Ok(([], PageInfo(page, size, 0, false, false, 0)));
      }
      SuccessMaps(results, pageInfos, registry.providers.Keys, outcome);
      r := Merge(results, pageInfos, page, size);
    }

    /** The merge step of `SearchTracks`: the successes concatenated, and the combined page. */
    method Merge(results: map<string, seq<Track>>, pageInfos: map<string, PageInfo>, page: int, size: int)
      returns (r: SearchOutcome)
      requires results.Keys == pageInfos.Keys
      ensures Merged(r, results, pageInfos, page, size)
    {
      var combined, total := Combine(results, pageInfos);
      var info := CombinedPage(page, size, |combined|, total);
      if info.Err? {
        return Err(info.error);
      }
      r := Ok((combined, info.value));
    }

    /** `SearchTracks` as written: the named provider's search, or the merged search when no name is given. */
    method SearchTracks(provider: string, page: int, size: int, outcome: string -> SearchOutcome)
      returns (r: SearchOutcome)
      requires Valid()
      ensures provider != "" ==>
        r == (if provider in registry.providers then outcome(provider) else Err(NotRegistered(provider)))
      ensures provider == "" && registry.providers == map[] ==> r == Ok(([], PageInfo(page, size, 0, false, false, 0)))
      ensures provider == "" && registry.providers != map[] && SuccessTracks(registry.providers.Keys, outcome) == map[] ==>
        exists n :: n in registry.providers && outcome(n).Err? && r == outcome(n)
      ensures provider == "" && SuccessTracks(registry.providers.Keys, outcome) != map[] ==>
        Merged(r, SuccessTracks(registry.providers.Keys, outcome), SuccessInfos(registry.providers.Keys, outcome), page, size)
    {
      if provider != "" {
        var p := registry.GetProvider(provider);
        if p.Err? {
          return Err(p.error);
        }
        return outcome(provider);
      }
      r := SearchEveryProvider(page, size, outcome);
    }

    /**
     * The corrected search: a page or size that is not positive is replaced
     * by the handlers' defaults (1 and 20) before any provider is asked.
     * `outcome` answers for the corrected page and size.
     */
    method SearchTracksCorrected(provider: string, page: int, size: int, outcome: string -> SearchOutcome)
      returns (requested: (int, int), r: SearchOutcome)
      requires Valid()
      ensures requested == Defaulted(page, size, DefaultSize)
      ensures requested.0 >= 1 && requested.1 >= 1
      ensures provider != "" ==>
        r == (if provider in registry.providers then outcome(provider) else Err(NotRegistered(provider)))
      ensures provider == "" && (forall n :: n in registry.providers ==> outcome(n) != Err(DivideByZero)) ==>
        r != Err(DivideByZero)
      ensures provider == "" && SuccessTracks(registry.providers.Keys, outcome) != map[] ==>
        r.Ok? &&
        Merged(r, SuccessTracks(registry.providers.Keys, outcome), SuccessInfos(registry.providers.Keys, outcome),
               requested.0, requested.1)
    {
      requested := Defaulted(page, size, DefaultSize);
      r := SearchTracks(provider, requested.0, requested.1, outcome);
    }

    /** `GetTrack`: the named provider's answer. */
    function GetTrack(provider: string, outcome: string -> Result<Track, MusicError>): (r: Result<Track, MusicError>)
      requires Valid()
      reads this, registry
      ensures provider in registry.providers ==> r == outcome(provider)
      ensures provider !in registry.providers ==> r == Err(NotRegistered(provider))
    {
      match registry.GetProvider(provider)
      case Err(e) => Err(e)
      case Ok(_) => outcome(provider)
    }

    /** `GetTopCharts`: the named provider's charts. */
    function GetTopCharts(provider: string, outcome: string -> SearchOutcome): (r: SearchOutcome)
      requires Valid()
      reads this, registry
      ensures provider in registry.providers ==> r == outcome(provider)
      ensures provider !in registry.providers ==> r == Err(NotRegistered(provider))
    {
      match registry.GetProvider(provider)
      case Err(e) => Err(e)
      case Ok(_) => outcome(provider)
    }

    /** `GetPlaylistsByCategory`: the named provider's playlists. */
    function GetPlaylistsByCategory(provider: string, outcome: string -> Result<(seq<PlaylistSummary>, PageInfo), MusicError>)
      : (r: Result<(seq<PlaylistSummary>, PageInfo), MusicError>)
      requires Valid()
      reads this, registry
      ensures provider in registry.providers ==> r == outcome(provider)
      ensures provider !in registry.providers ==> r == Err(NotRegistered(provider))
    {
      match registry.GetProvider(provider)
      case Err(e) => Err(e)
      case Ok(_) => outcome(provider)
    }

    /** `GetCategories`: the categories of every provider that answered; failures are dropped, never reported. */
    method GetCategories(outcome: string -> Result<seq<Category>, MusicError>) returns (r: map<string, seq<Category>>)
      requires Valid()
      ensures forall n :: n in r <==> n in registry.providers && outcome(n).Ok?
      ensures forall n :: n in r ==> r[n] == outcome(n).value
    {
      var ps := registry.GetEnabledProviders();
      ghost var names := Names(ps);
      r := map[];
      var i := 0;
      while i < |ps|
        invariant 0 <= i <= |ps|
        invariant forall n :: n in r <==> n in names[..i] && outcome(n).Ok?
        invariant forall n :: n in r ==> r[n] == outcome(n).value
      {
        var name := NameOf(ps[i]);
        var categories := outcome(name);
        if categories.Ok? {
          r := r[name := categories.value];
        }
        assert names[..i + 1] == names[..i] + [names[i]];
        i := i + 1;
      }
      assert names[..i] == names;
    }

    /** `GetProviderNames`. */
    method GetProviderNames() returns (names: seq<string>)
      requires Valid()
      ensures Lists(names, registry.providers.Keys)
    {
      names := registry.GetProviderNames();
    }
  }

  // ------------------------------------------------------------------ page size zero

  /** As written, a search with size 0 fails in the provider itself: iTunes answers with a panic. */
  lemma ZeroSizeSearchPanics()
    ensures ITunes.SearchResult(Body(ITunes.SearchResponse(0, [])), 1, 0) == Err(DivideByZero)
    ensures Spotify.TracksResult(true, Body(Spotify.TracksPage([], 0, 0, 0, None, None)), 1, Spotify.Limit(0),
                                 "Search failed", "SEARCH_ERROR") == Err(DivideByZero)
  {
  }

  /** With the corrected page and size, no provider's page arithmetic divides by zero. */
  lemma CorrectedSizeNeverDividesByZero(page: int, size: int, itunes: Response<ITunes.SearchResponse>, ready: bool,
                                        tracks: Response<Spotify.TracksPage>, playlists: Response<Spotify.PlaylistsPage>)
    ensures var (p, s) := Defaulted(page, size, DefaultSize);
      ITunes.SearchResult(itunes, p, s) != Err(DivideByZero) &&
      Spotify.TracksResult(ready, tracks, p, Spotify.Limit(s), "Search failed", "SEARCH_ERROR") != Err(DivideByZero) &&
      Spotify.PlaylistsResult(ready, playlists, p, Spotify.Limit(s)) != Err(DivideByZero) &&
      CombinedPage(p, s, 0, 0).Ok?
  {
  }
}
