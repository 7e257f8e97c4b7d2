/** ArtistDetailsViewModel from ArtistDetailsUtils.kt. The helper catches
    every failure itself and answers null, and a decoded response with
    `success = false` is null too, so the view model always ends in
    Success, carrying the details or null; its Error state is unreachable.
    The ghost `trace` holds every value the state was assigned. */
module ArtistDetails {
  import opened Common

  datatype ArtistDetails = ArtistDetails(
    title: string,
    id: string,
    thumbnail: Option<string>,
    birthyear: Option<string>,
    nationality: Option<string>,
    biography: Option<string>,
    deathyear: Option<string>)

  datatype ArtistDetailsResponse = ArtistDetailsResponse(
    statusCode: int,
    data: ArtistDetails,
    message: string,
    success: bool)

  datatype ArtistDetailsState = Loading | Success(artistDetails: Option<ArtistDetails>) | Error(message: string)

  /** `fetchArtistDetailsFromAPI`: the details when the response decoded and
      says `success`, otherwise null. */
  function FetchArtistDetailsFromAPI(fetched: Fetched<ArtistDetailsResponse>): (r: Option<ArtistDetails>)
    ensures r.Some? <==> fetched.Fetched? && fetched.value.success
    ensures r.Some? ==> r.value == fetched.value.data
  {
    match fetched
    case Fetched(response) => if response.success then Some(response.data) else None
    case FetchFailed => None
  }

  class ArtistDetailsViewModel {
    var state: ArtistDetailsState
    ghost var trace: seq<ArtistDetailsState>

    constructor()
      ensures state == Loading && trace == [Loading]
    {
      state := Loading;
      trace := [Loading];
    }

    /** The launched block of `fetchArtistDetails`. */
    method FetchArtistDetails(fetched: Fetched<ArtistDetailsResponse>)
      modifies this
      ensures state == Success(FetchArtistDetailsFromAPI(fetched))
      ensures trace == old(trace) + [Loading, state]
      ensures forall i :: |old(trace)| <= i < |trace| ==> !trace[i].Error?
    {
      state := Loading;
      trace := trace + [Loading];
      var result := FetchArtistDetailsFromAPI(fetched);
      state := Success(result);
      trace := trace + [state];
    }
  }
}
