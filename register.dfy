/** RegisterUtils.kt: RegisterRepository.registerUser and
    DeleteAccountRepository.deleteUserAccount over an abstract response;
    RegisterViewModel and DeleteAccountViewModel as state machines. */
module Register {
  import opened Common
  import opened Text
  import opened ActionStates
  import opened UserSession
  import CookieJar
  import opened Requests

  /** The `data` object of a registration answer: each field's primitive
      content, when present. */
  datatype RegisterData = RegisterData(id: Option<string>, name: Option<string>,
                                       email: Option<string>, avatar: Option<string>)

  datatype RegisterBody = RegisterBody(data: Option<RegisterData>)

  const CreatedStatus: nat := 201
  const ConflictStatus: nat := 409
  /** The access token stored after a registration: the backend sends none. */
  const PlaceholderToken := "dummy-token-if-not-returned"
  const Registered := "Registered successfully!"
  const AccountDeleted := "Account deleted successfully"
  const NoDeletionToken := "No tokens available for account deletion"
  const DeletionFailed := "Account deletion failed: "

  /** `registerUser` up to the point where it saves the session: the user
      built from `data`, a missing field read as "". */
  function CheckRegister(response: Response<RegisterBody>): (r: Result<User>)
    ensures r.Ok? ==> && response.Response? && response.status.value == CreatedStatus
                      && response.body.Decoded? && response.body.value.data.Some?
    ensures r.Ok? ==> var d := response.body.value.data.value;
                      r.value == User(d.id.GetOr(""), d.name.GetOr(""), d.email.GetOr(""), d.avatar.GetOr(""))
    ensures (response.Response? && response.status.value == CreatedStatus && response.body.Decoded?)
            ==> (r.Ok? <==> response.body.value.data.Some?)
    ensures response.Response? && response.status.value != CreatedStatus ==>
              r == Err(Some("Registration failed with status: " + StatusText(response.status)))
    ensures (response.Response? && response.status.value == CreatedStatus && response.body.Decoded?
             && response.body.value.data.None?) ==> r == Err(Some(InvalidResponse))
    ensures (response.Response? && response.status.value == CreatedStatus && response.body.Undecodable?) ==>
              r == Err(response.body.message)
    ensures response.NetworkFailure? ==> r == Err(response.message)
  {
    match CheckStatus(response, CreatedStatus, "Registration failed with status: ")
    case Err(message) => Err(message)
    case Ok(body) =>
      match body
      case Undecodable(message) => Err(message)
      case Decoded(registerBody) =>
        match registerBody.data
        case None => Err(Some(InvalidResponse))
        case Some(d) => Ok(User(d.id.GetOr(""), d.name.GetOr(""), d.email.GetOr(""), d.avatar.GetOr("")))
  }

  /** An existing email is answered 409; the message carries the status
      code, which is what the registration screen looks for. */
  lemma ConflictMentions409(response: Response<RegisterBody>)
    requires response.Response? && response.status.value == ConflictStatus
    ensures CheckRegister(response).Err?
    ensures CheckRegister(response).message.Some?
    ensures Contains(CheckRegister(response).message.value, "409")
  {
    assert DecimalString(409) == "409" by {
      assert DecimalString(40) == "40";
    }
    ContainsMiddle("Registration failed with status: ", "409",
                   " " + response.status.description);
    assert CheckRegister(response).message.value ==
           "Registration failed with status: " + "409" + (" " + response.status.description);
  }

  /** `RegisterRepository.registerUser`: saves the new user with the
      placeholder token once every check has passed. */
  method RegisterNewUser(session: UserSessionManager, response: Response<RegisterBody>) returns (r: Result<()>)
    requires session.Valid()
    modifies session
    ensures session.Valid()
    ensures r == Discard(CheckRegister(response))
    ensures CheckRegister(response).Ok? ==>
              && session.GetUser() == Some(CheckRegister(response).value)
              && session.GetAccessToken() == Some(PlaceholderToken)
              && session.GetRefreshToken() == None
              && session.IsLoggedIn()
    ensures CheckRegister(response).Err? ==> unchanged(session)
  {
    var checked := CheckRegister(response);
    match checked
    case Err(message) =>
      r := Err(message);
    case Ok(user) =>
      session.SaveSession(user, PlaceholderToken, None);
      r := Ok(());
  }

  /** `DeleteAccountRepository.deleteUserAccount`: the checks of a logout,
      its own messages, then session and cookies cleared after a 200. */
  method DeleteUserAccount(session: UserSessionManager, cookiePrefs: CookieJar.CookiePrefs,
                           cookieCodec: CookieJar.CookieCodec, response: Response<()>)
    returns (r: Result<()>, sent: Option<SignedRequest>)
    requires CookieJar.RoundTrips(cookieCodec)
    modifies session, cookiePrefs
    ensures var checked := SessionRequest(old(session.GetUser()), old(session.GetAccessToken()), NoDeletionToken);
            sent == if checked.Ok? then Some(checked.value) else None
    ensures r == CheckSignedAction(old(session.GetUser()), old(session.GetAccessToken()), response,
                                         NoDeletionToken, DeletionFailed)
    ensures r.Ok? ==> session.preferences == map[] && !session.IsLoggedIn()
                      && cookiePrefs.entries == old(cookiePrefs.entries) - {CookieJar.SnapshotKey}
    ensures r.Err? ==> unchanged(session) && unchanged(cookiePrefs)
  {
    var checked := SessionRequest(session.GetUser(), session.GetAccessToken(), NoDeletionToken);
    if checked.Err? {
      return Err(checked.message), None;
    }
    sent := Some(checked.value);
    r := Discard(CheckStatus(response, OkStatus, DeletionFailed));
    if r.Ok? {
      ClearAccount(session, cookiePrefs, cookieCodec);
    }
  }

  class RegisterViewModel {
    var registerState: ActionState
    ghost var trace: seq<ActionState>

    constructor()
      ensures registerState == Idle && trace == [Idle]
    {
      registerState := Idle;
      trace := [Idle];
    }

    /** `registerUser`: the state goes straight from what it was to the
      outcome; it never passes through Loading. */
    method RegisterUser(session: UserSessionManager, response: Response<RegisterBody>)
      requires session.Valid()
      modifies this, session
      ensures session.Valid()
      ensures registerState == Fold(Discard(CheckRegister(response)), Registered, UnknownError)
      ensures trace == old(trace) + [registerState]
      ensures !registerState.Loading?
      ensures CheckRegister(response).Ok? ==>
                && session.GetUser() == Some(CheckRegister(response).value)
                && session.GetAccessToken() == Some(PlaceholderToken)
                && session.GetRefreshToken() == None
                && session.IsLoggedIn()
      ensures CheckRegister(response).Err? ==> unchanged(session)
    {
      var result := RegisterNewUser(session, response);
      registerState := Fold(result, Registered, UnknownError);
      trace := trace + [registerState];
    }

    method ResetState()
      modifies this
      ensures registerState == Idle && trace == old(trace) + [Idle]
    {
      registerState := Idle;
      trace := trace + [Idle];
    }
  }

  class DeleteAccountViewModel {
    var deleteState: ActionState
    ghost var trace: seq<ActionState>

    constructor()
      ensures deleteState == Idle && trace == [Idle]
    {
      deleteState := Idle;
      trace := [Idle];
    }

    /** The synchronous part of `deleteAccount`: Loading, without a guard. */
    method DeleteAccount()
      modifies this
      ensures deleteState == Loading && trace == old(trace) + [Loading]
    {
      deleteState := Loading;
      trace := trace + [Loading];
    }

    /** The block `deleteAccount` launches. */
    method RunDeleteAccount(session: UserSessionManager, cookiePrefs: CookieJar.CookiePrefs,
                            cookieCodec: CookieJar.CookieCodec, response: Response<()>)
      requires CookieJar.RoundTrips(cookieCodec)
      modifies this, session, cookiePrefs
      ensures deleteState ==
                Fold(CheckSignedAction(old(session.GetUser()), old(session.GetAccessToken()), response,
                                             NoDeletionToken, DeletionFailed),
                     AccountDeleted, UnknownError)
      ensures trace == old(trace) + [deleteState]
      ensures deleteState.Success? ==> !session.IsLoggedIn()
      ensures !deleteState.Success? ==> unchanged(session) && unchanged(cookiePrefs)
    {
      var result, _ := DeleteUserAccount(session, cookiePrefs, cookieCodec, response);
      deleteState := Fold(result, AccountDeleted, UnknownError);
      trace := trace + [deleteState];
    }
  }
}
