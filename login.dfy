/** LoginUtils.kt: LoginRepository.loginUser and LogoutRepository.logoutUser
    as check sequences over an abstract response, ending in a session (and
    cookie store) update; LoginViewModel and LogoutViewModel as state
    machines. The synchronous part of `login`/`logout` (the guard and the
    switch to Loading) and the launched block that follows (Run...) are two
    steps, so that a second `login` can arrive while the first is Loading. */
module Login {
  import opened Common
  import opened ActionStates
  import opened UserSession
  import CookieJar
  import opened Requests

  /** The `data` object of a login answer: the `user` element (missing, or
      decoded as a User or not) and the `accessToken` primitive. */
  datatype LoginData = LoginData(user: Option<Decoded<User>>, accessToken: Option<string>)

  /** The JSON object of a login answer; `data` is absent when it has no
      `data` object. */
  datatype LoginBody = LoginBody(data: Option<LoginData>)

  /** What a successful login stores. */
  datatype Credentials = Credentials(user: User, accessToken: string)

  const UserNotFound := "User not found"
  const NoLogoutToken := "No tokens available for logout"
  const LoggedIn := "Logged in successfully!"
  const LoggedOut := "Logged out successfully!"
  const UnknownLogoutError := "Unknown error during logout"

  /** `loginUser` up to the point where it saves the session. */
  function CheckLogin(response: Response<LoginBody>): (r: Result<Credentials>)
    ensures r.Ok? ==> && response.Response? && response.status.value == OkStatus
                      && response.body.Decoded? && response.body.value.data.Some?
                      && response.body.value.data.value.user == Some(Decoded(r.value.user))
                      && r.value.accessToken == response.body.value.data.value.accessToken.GetOr("")
    ensures response.Response? && response.status.value != OkStatus ==>
              r == Err(Some("Login failed with status: " + StatusText(response.status)))
    ensures (response.Response? && response.status.value == OkStatus && response.body.Decoded?
             && response.body.value.data.None?) ==> r == Err(Some(InvalidResponse))
    ensures (response.Response? && response.status.value == OkStatus && response.body.Decoded?
             && response.body.value.data.Some? && response.body.value.data.value.user.None?) ==>
              r == Err(Some(UserNotFound))
    ensures (response.Response? && response.status.value == OkStatus && response.body.Undecodable?) ==>
              r == Err(response.body.message)
    ensures (response.Response? && response.status.value == OkStatus && response.body.Decoded?
             && response.body.value.data.Some? && response.body.value.data.value.user.Some?
             && response.body.value.data.value.user.value.Undecodable?) ==>
              r == Err(response.body.value.data.value.user.value.message)
    ensures (response.Response? && response.status.value == OkStatus && response.body.Decoded?
             && response.body.value.data.Some? && response.body.value.data.value.user.Some?
             && response.body.value.data.value.user.value.Decoded?) ==>
              r == Ok(Credentials(response.body.value.data.value.user.value.value,
                                  response.body.value.data.value.accessToken.GetOr("")))
    ensures response.NetworkFailure? ==> r == Err(response.message)
  {
    match CheckStatus(response, OkStatus, "Login failed with status: ")
    case Err(message) => Err(message)
    case Ok(body) =>
      match body
      case Undecodable(message) => Err(message)
      case Decoded(loginBody) =>
        match loginBody.data
        case None => Err(Some(InvalidResponse))
        case Some(data) =>
          match data.user
          case None => Err(Some(UserNotFound))
          case Some(Undecodable(message)) => Err(message)
          case Some(Decoded(u)) => Ok(Credentials(u, data.accessToken.GetOr("")))
  }

  /** A login answer that decodes with a user but no `accessToken` still logs
      the user in, with the empty token. */
  lemma LoginWithoutToken(status: Status, user: User)
    requires status.value == OkStatus
    ensures CheckLogin(Response(status, Decoded(LoginBody(Some(LoginData(Some(Decoded(user)), None))))))
            == Ok(Credentials(user, ""))
  {
  }

  /** `LoginRepository.loginUser`: the session is saved only after every
      check has passed; the refresh token is not passed, so it is removed. */
  method LoginUser(session: UserSessionManager, response: Response<LoginBody>) returns (r: Result<()>)
    requires session.Valid()
    modifies session
    ensures session.Valid()
    ensures r == Discard(CheckLogin(response))
    ensures CheckLogin(response).Ok? ==>
              && session.GetUser() == Some(CheckLogin(response).value.user)
              && session.GetAccessToken() == Some(CheckLogin(response).value.accessToken)
              && session.GetRefreshToken() == None
              && session.IsLoggedIn()
    ensures CheckLogin(response).Err? ==> unchanged(session)
  {
    var checked := CheckLogin(response);
    match checked
    case Err(message) =>
      r := Err(message);
    case Ok(Credentials(user, accessToken)) =>
      session.SaveSession(user, accessToken, None);
      r := Ok(());
  }

  /** `LogoutRepository.logoutUser`. `sent` is the request made, if any:
      none when the session checks fail. Session and cookies are cleared
      only after a 200 answer. */
  method LogoutUser(session: UserSessionManager, cookiePrefs: CookieJar.CookiePrefs,
                    cookieCodec: CookieJar.CookieCodec, response: Response<()>)
    returns (r: Result<()>, sent: Option<SignedRequest>)
    requires CookieJar.RoundTrips(cookieCodec)
    modifies session, cookiePrefs
    ensures var checked := SessionRequest(old(session.GetUser()), old(session.GetAccessToken()), NoLogoutToken);
            sent == if checked.Ok? then Some(checked.value) else None
    ensures r == CheckSignedAction(old(session.GetUser()), old(session.GetAccessToken()), response,
                                   NoLogoutToken, "Logout failed with status: ")
    ensures r.Ok? ==> session.preferences == map[] && !session.IsLoggedIn()
                      && cookiePrefs.entries == old(cookiePrefs.entries) - {CookieJar.SnapshotKey}
    ensures r.Err? ==> unchanged(session) && unchanged(cookiePrefs)
  {
    var checked := SessionRequest(session.GetUser(), session.GetAccessToken(), NoLogoutToken);
    if checked.Err? {
      return Err(checked.message), None;
    }
    sent := Some(checked.value);
    r := Discard(CheckStatus(response, OkStatus, "Logout failed with status: "));
    if r.Ok? {
      ClearAccount(session, cookiePrefs, cookieCodec);
    }
  }

  class LoginViewModel {
    var loginState: ActionState
    ghost var trace: seq<ActionState>

    constructor()
      ensures loginState == Idle && trace == [Idle]
    {
      loginState := Idle;
      trace := [Idle];
    }

    /** The synchronous part of `login`: ignored while Loading, otherwise
      Loading and the request is launched. */
    method Login() returns (launched: bool)
      modifies this
      ensures launched <==> !old(loginState).Loading?
      ensures !launched ==> loginState == old(loginState) && trace == old(trace)
      ensures launched ==> loginState == Loading && trace == old(trace) + [Loading]
    {
      if loginState.Loading? {
        return false;
      }
      loginState := Loading;
      trace := trace + [Loading];
      launched := true;
    }

    /** The block `login` launches. */
    method RunLogin(session: UserSessionManager, response: Response<LoginBody>)
      requires session.Valid()
      modifies this, session
      ensures session.Valid()
      ensures loginState == Fold(Discard(CheckLogin(response)), LoggedIn, UnknownError)
      ensures trace == old(trace) + [loginState]
      ensures CheckLogin(response).Ok? ==>
                && session.GetUser() == Some(CheckLogin(response).value.user)
                && session.GetAccessToken() == Some(CheckLogin(response).value.accessToken)
                && session.GetRefreshToken() == None
                && session.IsLoggedIn()
      ensures CheckLogin(response).Err? ==> unchanged(session)
    {
      var result := LoginUser(session, response);
      loginState := Fold(result, LoggedIn, UnknownError);
      trace := trace + [loginState];
    }

    method ResetState()
      modifies this
      ensures loginState == Idle && trace == old(trace) + [Idle]
    {
      loginState := Idle;
      trace := trace + [Idle];
    }
  }

  class LogoutViewModel {
    var logoutState: ActionState
    ghost var trace: seq<ActionState>

    constructor()
      ensures logoutState == Idle && trace == [Idle]
    {
      logoutState := Idle;
      trace := [Idle];
    }

    /** The synchronous part of `logout`: Loading, without a guard. */
    method Logout()
      modifies this
      ensures logoutState == Loading && trace == old(trace) + [Loading]
    {
      logoutState := Loading;
      trace := trace + [Loading];
    }

    /** The block `logout` launches. */
    method RunLogout(session: UserSessionManager, cookiePrefs: CookieJar.CookiePrefs,
                     cookieCodec: CookieJar.CookieCodec, response: Response<()>)
      requires CookieJar.RoundTrips(cookieCodec)
      modifies this, session, cookiePrefs
      ensures logoutState ==
                Fold(CheckSignedAction(old(session.GetUser()), old(session.GetAccessToken()), response,
                                       NoLogoutToken, "Logout failed with status: "),
                     LoggedOut, UnknownLogoutError)
      ensures trace == old(trace) + [logoutState]
      ensures logoutState.Success? ==> !session.IsLoggedIn()
      ensures !logoutState.Success? ==> unchanged(session) && unchanged(cookiePrefs)
    {
      var result, _ := LogoutUser(session, cookiePrefs, cookieCodec, response);
      logoutState := Fold(result, LoggedOut, UnknownLogoutError);
      trace := trace + [logoutState];
    }
  }
}
