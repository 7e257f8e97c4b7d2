/** Values shared by the whole model: optional values, Kotlin's Result, the
    abstract shape of a network call, and the list filter used by the cookie
    jar (expiry pruning) and the favourites list (removal by favourite id). */
module Common {
  import opened Text

  datatype Option<+T> = None | Some(value: T) {
    function GetOr(default: T): T {
      match this
      case Some(v) => v
      case None => default
    }
  }

  /** Kotlin's Result<T>: a value, or a thrown exception whose message may be null. */
  datatype Result<+T> = Ok(value: T) | Err(message: Option<string>)

  /** What a helper that catches every exception got from the backend: the
      decoded response, or a network or decode failure (only logged). */
  datatype Fetched<+T> = Fetched(value: T) | FetchFailed

  /** A body that decoded, or the exception its decoding threw. */
  datatype Decoded<+T> = Decoded(value: T) | Undecodable(message: Option<string>)

  /** An HTTP status as Ktor's HttpStatusCode carries it: equality between
      statuses compares `value` only, and it prints as "value description". */
  datatype Status = Status(value: nat, description: string)

  /** `"${response.status}"`. */
  function StatusText(status: Status): (s: string)
    ensures var code := DecimalString(status.value);
            |s| > |code| && s[..|code|] == code && s[|code|] == ' ' && s[|code| + 1..] == status.description
  {
    DecimalString(status.value) + " " + status.description
  }

  /** The `Result<Unit>` a repository returns: its outcome, without the value. */
  function Discard<T>(r: Result<T>): (d: Result<()>)
    ensures d.Ok? <==> r.Ok?
    ensures r.Err? ==> d.message == r.message
  {
    match r
    case Ok(_) => Ok(())
    case Err(message) => Err(message)
  }

  /** One HTTP exchange: a status with a body still to be decoded, or the
      exception the call itself threw. */
  datatype Response<+B> = Response(status: Status, body: Decoded<B>) | NetworkFailure(message: Option<string>)

  /** The envelope every list endpoint of the backend answers with. */
  datatype ListResponse<+T> = ListResponse(statusCode: int, data: seq<T>, message: string, success: bool)

  /** Kotlin's `filter { keep(it) }`: the elements that pass, in their original order. */
  function Filter<T(!new)>(s: seq<T>, keep: T -> bool): (r: seq<T>)
    ensures |r| <= |s|
    ensures forall x :: x in r <==> x in s && keep(x)
  {
    if s == [] then []
    else if keep(s[0]) then [s[0]] + Filter(s[1..], keep)
    else Filter(s[1..], keep)
  }

  /** Filtering a concatenation filters each part: the relative order of the
      kept elements is the order they had. */
  lemma {:induction false} FilterConcat<T(!new)>(a: seq<T>, b: seq<T>, keep: T -> bool)
    ensures Filter(a + b, keep) == Filter(a, keep) + Filter(b, keep)
  {
    if a == [] {
      assert a + b == b;
    } else {
      assert (a + b)[0] == a[0];
      assert (a + b)[1..] == a[1..] + b;
      FilterConcat(a[1..], b, keep);
    }
  }

  /** A list whose every element passes comes back unchanged. */
  lemma {:induction false} FilterAllKept<T(!new)>(s: seq<T>, keep: T -> bool)
    requires forall i :: 0 <= i < |s| ==> keep(s[i])
    ensures Filter(s, keep) == s
  {
    if s != [] {
      FilterAllKept(s[1..], keep);
    }
  }

  /** Filtering twice with the same test is filtering once. */
  lemma FilterIdempotent<T(!new)>(s: seq<T>, keep: T -> bool)
    ensures Filter(Filter(s, keep), keep) == Filter(s, keep)
  {
    var r := Filter(s, keep);
    forall i | 0 <= i < |r| ensures keep(r[i]) {
      assert r[i] in r;
    }
    FilterAllKept(r, keep);
  }
}
