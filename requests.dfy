/** What LoginUtils.kt and RegisterUtils.kt do alike: the status check
    each repository starts with, the session checks of a signed action
    (logout, account deletion), its outcome, the clearing of session and
    cookies that follows it, and the messages both files spell the same. */
module Requests {
  import opened Common
  import opened UserSession
  import CookieJar

  /** The request a logout or account deletion sends: the stored user's
      email in the body, the stored access token in the Cookie header. */
  datatype SignedRequest = SignedRequest(email: string, accessToken: string)

  const OkStatus: nat := 200
  const InvalidResponse := "Invalid response"
  const NoUserFound := "No user found"
  const UnknownError := "Unknown error"

  /** The status check every repository starts with: the body still to be
      decoded when the status is the expected one, else the failure the
      repository throws. A request that threw fails with its own message. */
  function CheckStatus<B>(response: Response<B>, expected: nat, failure: string): (r: Result<Decoded<B>>)
    ensures r.Ok? <==> response.Response? && response.status.value == expected
    ensures r.Ok? ==> r.value == response.body
    ensures response.NetworkFailure? ==> r == Err(response.message)
    ensures response.Response? && response.status.value != expected ==>
              r == Err(Some(failure + StatusText(response.status)))
  {
    match response
    case NetworkFailure(message) => Err(message)
    case Response(status, body) =>
      if status.value != expected then Err(Some(failure + StatusText(status))) else Ok(body)
  }

  /** The checks `logoutUser` and `deleteUserAccount` share: a stored user
      that decodes, then a stored access token; only then the request. */
  function SessionRequest(user: Option<User>, accessToken: Option<string>, noToken: string): (r: Result<SignedRequest>)
    ensures user.None? ==> r == Err(Some(NoUserFound))
    ensures user.Some? && accessToken.None? ==> r == Err(Some(noToken))
    ensures r.Ok? <==> user.Some? && accessToken.Some?
    ensures r.Ok? ==> r.value == SignedRequest(user.value.email, accessToken.value)
  {
    match user
    case None => Err(Some(NoUserFound))
    case Some(u) =>
      match accessToken
      case None => Err(Some(noToken))
      case Some(t) => Ok(SignedRequest(u.email, t))
  }

  /** The outcome of a signed action (logout, account deletion): the session
      checks, then the status of the answer, whose body is never read. */
  function CheckSignedAction(user: Option<User>, accessToken: Option<string>, response: Response<()>,
                             noToken: string, failure: string): (r: Result<()>)
    ensures SessionRequest(user, accessToken, noToken).Err? ==>
              r == Discard(SessionRequest(user, accessToken, noToken))
    ensures r.Ok? <==> && SessionRequest(user, accessToken, noToken).Ok?
                       && response.Response? && response.status.value == OkStatus
    ensures (SessionRequest(user, accessToken, noToken).Ok? && response.Response?
             && response.status.value != OkStatus) ==> r == Err(Some(failure + StatusText(response.status)))
    ensures SessionRequest(user, accessToken, noToken).Ok? && response.NetworkFailure? ==>
              r == Err(response.message)
  {
    match SessionRequest(user, accessToken, noToken)
    case Err(message) => Err(message)
    case Ok(_) => Discard(CheckStatus(response, OkStatus, failure))
  }

  /** Clears the cookie store (through a fresh jar on the same store, as the
      source does) and the session. */
  method ClearAccount(session: UserSessionManager, cookiePrefs: CookieJar.CookiePrefs, cookieCodec: CookieJar.CookieCodec)
    requires CookieJar.RoundTrips(cookieCodec)
    modifies session, cookiePrefs
    ensures session.preferences == map[] && !session.IsLoggedIn()
    ensures cookiePrefs.entries == old(cookiePrefs.entries) - {CookieJar.SnapshotKey}
  {
    var cookieJar := new CookieJar.PersistentCookieJar(cookiePrefs, cookieCodec);
    cookieJar.ClearCookies();
    session.ClearSession();
  }
}
