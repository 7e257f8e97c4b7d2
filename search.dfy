/** SearchViewModel from SearchUtils.kt: every query change is stored; a
    query of at least three characters runs a search (Loading, then the
    settled result), a shorter one only reports that more is needed. The
    search helper is abstracted to what it got back. The ghost `trace` holds
    every value `searchState` was assigned, in order. */
module Search {
  import opened Common
  import opened FetchStates

  datatype Artist = Artist(title: string, id: string, thumbnail: Option<string>)

  const MinQueryLength := 3
  const TooShort := "Type at least 3 characters"

  class SearchViewModel {
    var searchState: FetchState<Artist>
    var searchQuery: string
    ghost var trace: seq<FetchState<Artist>>

    constructor()
      ensures searchState == Loading && searchQuery == "" && trace == [Loading]
    {
      searchState := Loading;
      searchQuery := "";
      trace := [Loading];
    }

    /** Returns whether a search was performed. `fetched` is what the search
      request would get; it is consulted only when a search runs. */
    method OnSearchQueryChange(newQuery: string, fetched: Fetched<ListResponse<Artist>>) returns (searched: bool)
      modifies this
      ensures searchQuery == newQuery
      ensures searched <==> |newQuery| >= MinQueryLength
      ensures !searched ==> searchState == Error(TooShort) && trace == old(trace) + [searchState]
      ensures searched ==> searchState == Settle(DataOrEmpty(fetched))
                           && trace == old(trace) + [Loading, searchState]
    {
      searchQuery := newQuery;
      if |newQuery| >= MinQueryLength {
        PerformSearch(newQuery, fetched);
        searched := true;
      } else {
        searchState := Error(TooShort);
        trace := trace + [searchState];
        searched := false;
      }
    }

    method PerformSearch(query: string, fetched: Fetched<ListResponse<Artist>>)
      modifies this`searchState, this`trace
      ensures searchState == Settle(DataOrEmpty(fetched))
      ensures trace == old(trace) + [Loading, searchState]
    {
      searchState := Loading;
      trace := trace + [Loading];
      var results := DataOrEmpty(fetched);
      searchState := if results != [] then Success(results) else Error(NoResults);
      trace := trace + [searchState];
    }
  }
}
