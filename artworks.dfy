/** ArtworksViewModel from ArtworksUtils.kt: Loading, then Success with the
    decoded artworks if there are any, else Error("No results found"). The
    ghost `trace` holds every value `artworksState` was assigned. */
module Artworks {
  import opened Common
  import opened FetchStates

  datatype Artwork = Artwork(id: string, title: string, date: string, thumbnail: Option<string>)

  class ArtworksViewModel {
    var artworksState: FetchState<Artwork>
    ghost var trace: seq<FetchState<Artwork>>

    constructor()
      ensures artworksState == Loading && trace == [Loading]
    {
      artworksState := Loading;
      trace := [Loading];
    }

    method FetchArtworks(fetched: Fetched<ListResponse<Artwork>>)
      modifies this
      ensures artworksState == Settle(DataOrEmpty(fetched))
      ensures trace == old(trace) + [Loading, artworksState]
    {
      artworksState := Loading;
      trace := trace + [Loading];
      var results := DataOrEmpty(fetched);
      artworksState := if results != [] then Success(results) else Error(NoResults);
      trace := trace + [artworksState];
    }
  }
}
