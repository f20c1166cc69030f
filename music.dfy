/**
 * The provider-neutral music types every provider converts into, the
 * provider error, and the page arithmetic they share.
 */
module Music {
  import opened Wrappers
  import opened Ids

  datatype Track = Track(
    id: string, title: string, artist: string, album: string, durationMs: int, artworkUrl: string,
    previewUrl: string, trackNumber: int, releaseDate: string, genre: string, provider: string,
    externalUrl: string, explicit: bool, popularity: int)

  datatype PlaylistSummary = PlaylistSummary(
    id: string, title: string, description: string, coverUrl: string, trackCount: int,
    provider: string, externalUrl: string, creator: string)

  datatype Category = Category(id: string, name: string, description: string, iconUrl: string)

  datatype PageInfo = PageInfo(page: int, size: int, total: int, hasNext: bool, hasPrev: bool, totalPages: int)

  datatype SearchFilters = SearchFilters(
    genre: string, year: string, explicit: Option<bool>, duration: string, sortBy: string, sortOrder: string)

  /** A `ProviderError`; the wrapped cause is not kept. */
  datatype ProviderError = ProviderError(provider: string, message: string, code: string)

  datatype MusicError =
    | Provider(failure: ProviderError)
    | NotRegistered(name: string)        // "provider <name> not found"
    | NotEnabled(name: string)           // "provider <name> is not enabled"
    | Panicked(reason: string)           // a Go runtime panic

  const DivideByZero := Panicked("integer divide by zero")

  /** What a provider's HTTP exchange came back with, once the request was made. */
  datatype Response<T> =
    | NoResponse                          // the request failed before any status arrived
    | Status(code: int, body: string)     // a status other than 200
    | Undecodable                         // 200 with a body that is not the expected JSON
    | Body(value: T)                      // 200 with the decoded body

  /** Go's `(total + size - 1) / size`, which panics for a zero size. */
  function TotalPages(total: int, size: int): (r: Result<int, MusicError>)
    ensures r.Err? <==> size == 0
    ensures r.Err? ==> r.error == DivideByZero
  {
    if size == 0 then Err(DivideByZero) else Ok(GoDiv(total + size - 1, size))
  }

  /** For a positive size, TotalPages is the number of pages of `size` needed to hold `total` items. */
  lemma TotalPagesIsCeiling(total: nat, size: int)
    requires size > 0
    ensures TotalPages(total, size).Ok?
    ensures var n := TotalPages(total, size).value; n >= 0 && (n - 1) * size < total <= n * size
  {
    var q := (total + size - 1) / size;
    var m := (total + size - 1) % size;
    assert total + size - 1 == q * size + m;
    assert (q - 1) * size == q * size - size;
  }
}
