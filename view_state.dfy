/** The Loading/Success/Error pattern every list-fetching view model
    repeats (search, favourites, categories, artworks, similar artists). */
module FetchStates {
  import opened Common

  datatype FetchState<+T> = Loading | Success(results: seq<T>) | Error(message: string)

  const NoResults := "No results found"

  /** `if (results.isNotEmpty()) Success(results) else Error("No results found")`. */
  function Settle<T>(results: seq<T>): (s: FetchState<T>)
    ensures s.Success? <==> results != []
    ensures s.Success? ==> s.results == results
    ensures s.Error? ==> s.message == NoResults
    ensures !s.Loading?
  {
    if results != [] then Success(results) else Error(NoResults)
  }

  /** The list a fetch helper hands back: the response's `data`, or an empty
      list when the request or its decoding threw. */
  function DataOrEmpty<T>(fetched: Fetched<ListResponse<T>>): (r: seq<T>)
    ensures fetched.FetchFailed? ==> r == []
    ensures fetched.Fetched? ==> r == fetched.value.data
  {
    match fetched
    case Fetched(response) => response.data
    case FetchFailed => []
  }

  /** What a fetch ends in, as a function of what the helper got. Success
      carries the decoded list unchanged; a failure is reported exactly as
      an empty answer is. */
  lemma SettleFetched<T>(fetched: Fetched<ListResponse<T>>)
    ensures var s := Settle(DataOrEmpty(fetched));
            && (s.Success? <==> fetched.Fetched? && fetched.value.data != [])
            && (s.Success? ==> s.results == fetched.value.data)
            && (fetched.FetchFailed? ==> s == Error(NoResults))
  {
  }

}

/** The Idle/Loading/Success/Error pattern of the account actions (login,
    logout, register, delete account). */
module ActionStates {
  import opened Common

  datatype ActionState = Idle | Loading | Success(message: string) | Error(error: string)

  /** `result.fold(onSuccess = { Success(done) }, onFailure = { Error(it.message ?: unknown) })`. */
  function Fold(result: Result<()>, done: string, unknown: string): (s: ActionState)
    ensures s.Success? <==> result.Ok?
    ensures s.Success? ==> s.message == done
    ensures result.Err? && result.message.Some? ==> s == Error(result.message.value)
    ensures result.Err? && result.message.None? ==> s == Error(unknown)
  {
    match result
    case Ok(_) => Success(done)
    case Err(message) => Error(message.GetOr(unknown))
  }
}
