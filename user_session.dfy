/** UserSessionManager from UserSession.kt: the "user_session" store holding
    three string keys. The user is kept as JSON text; its codec is an
    abstract encode/decode pair whose decode may fail. Being logged in means
    that an access token is stored, whatever its text. */
module UserSession {
  import opened Common

  datatype User = User(id: string, name: string, email: string, avatar: string)

  const KeyUser := "user"
  const KeyAccessToken := "access_token"
  const KeyRefreshToken := "refresh_token"

  /** kotlinx.serialization for User: `decode` is partial (None stands for a
      thrown exception, caught by runCatching). */
  datatype UserCodec = UserCodec(encode: User -> string, decode: string -> Option<User>)

  ghost predicate RoundTrips(codec: UserCodec) {
    forall u :: codec.decode(codec.encode(u)) == Some(u)
  }

  /** SharedPreferences' `putString(key, value)`: a null value removes the key. */
  function Put(prefs: map<string, string>, key: string, value: Option<string>): (r: map<string, string>)
    ensures value.Some? ==> key in r && r[key] == value.value
    ensures value.None? ==> key !in r
    ensures forall k :: k != key ==> (k in r <==> k in prefs) && (k in r ==> r[k] == prefs[k])
  {
    match value
    case Some(v) => prefs[key := v]
    case None => prefs - {key}
  }

  class UserSessionManager {
    const codec: UserCodec
    var preferences: map<string, string>

    ghost predicate Valid() {
      RoundTrips(codec)
    }

    /** `init(context)` binds the manager to whatever the store already holds. */
    constructor(codec: UserCodec, stored: map<string, string>)
      requires RoundTrips(codec)
      ensures Valid() && this.codec == codec && preferences == stored
    {
      this.codec := codec;
      preferences := stored;
    }

    /** Overwrites all three keys. The refresh token is optional because the
      callers pass only two arguments; an absent one removes the key, as
      `putString(key, null)` does. */
    method SaveSession(user: User, accessToken: string, refreshToken: Option<string>)
      requires Valid()
      modifies this
      ensures Valid()
      ensures preferences ==
        Put(Put(Put(old(preferences), KeyUser, Some(codec.encode(user))),
                KeyAccessToken, Some(accessToken)),
            KeyRefreshToken, refreshToken)
      ensures GetUser() == Some(user)
      ensures GetAccessToken() == Some(accessToken)
      ensures GetRefreshToken() == refreshToken
      ensures IsLoggedIn()
    {
      preferences := Put(preferences, KeyUser, Some(codec.encode(user)));
      preferences := Put(preferences, KeyAccessToken, Some(accessToken));
      preferences := Put(preferences, KeyRefreshToken, refreshToken);
    }

    /** The stored user, or None when none is stored or it does not decode. */
    function GetUser(): (u: Option<User>)
      reads this
      ensures KeyUser !in preferences ==> u == None
      ensures KeyUser in preferences ==> u == codec.decode(preferences[KeyUser])
    {
      if KeyUser in preferences then codec.decode(preferences[KeyUser]) else None
    }

    function GetAccessToken(): (t: Option<string>)
      reads this
      ensures t.Some? <==> KeyAccessToken in preferences
      ensures t.Some? ==> t.value == preferences[KeyAccessToken]
    {
      if KeyAccessToken in preferences then Some(preferences[KeyAccessToken]) else None
    }

    function GetRefreshToken(): (t: Option<string>)
      reads this
      ensures t.Some? <==> KeyRefreshToken in preferences
      ensures t.Some? ==> t.value == preferences[KeyRefreshToken]
    {
      if KeyRefreshToken in preferences then Some(preferences[KeyRefreshToken]) else None
    }

    /** `edit { clear() }`. */
    method ClearSession()
      modifies this
      ensures preferences == map[]
      ensures GetUser() == None && GetAccessToken() == None && GetRefreshToken() == None
      ensures !IsLoggedIn()
    {
      preferences := map[];
    }

    /** True exactly when some access token is stored, the empty one included. */
    function IsLoggedIn(): (b: bool)
      reads this
      ensures b <==> KeyAccessToken in preferences
      ensures b <==> GetAccessToken().Some?
    {
      GetAccessToken() != None
    }
  }
}
