/** SimilarArtistsViewModel from SimilarArtistsUtils.kt: Loading, then
    Success with the decoded artists if there are any, else
    Error("No results found"). The ghost `trace` holds every value
    `similarArtistState` was assigned. */
module SimilarArtists {
  import opened Common
  import opened FetchStates

  datatype SimilarArtist = SimilarArtist(id: string, name: string, thumbnail: Option<string>)

  class SimilarArtistsViewModel {
    var similarArtistState: FetchState<SimilarArtist>
    ghost var trace: seq<FetchState<SimilarArtist>>

    constructor()
      ensures similarArtistState == Loading && trace == [Loading]
    {
      similarArtistState := Loading;
      trace := [Loading];
    }

    method FetchSimilarArtists(fetched: Fetched<ListResponse<SimilarArtist>>)
      modifies this
      ensures similarArtistState == Settle(DataOrEmpty(fetched))
      ensures trace == old(trace) + [Loading, similarArtistState]
    {
      similarArtistState := Loading;
      trace := trace + [Loading];
      var results := DataOrEmpty(fetched);
      similarArtistState := if results != [] then Success(results) else Error(NoResults);
      trace := trace + [similarArtistState];
    }
  }
}
