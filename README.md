# artsy-mobile-app: a verified model of its sequential core

This Dafny project models the logic underneath the Artsy Android client's
Compose screens. Each network call or decoder result is an input to the
model: an HTTP status with a decoded body, or a failure.

- **Elapsed-time label** (`formatElapsedTime`). A bucket `(unit, count)` plus
  its rendering, with a parser that reads the text back.
- **Host-keyed cookie jar** (`PersistentCookieJar`). A class over a map from
  host to cookies, mirrored into a key-value store through an abstract codec.
  The clock is a parameter.
- **User session store** (`UserSessionManager`). A class over a string map
  with three keys.
- **View models.**
  - Login, logout, register and delete-account use Idle/Loading/Success/Error.
  - Search, favourites, categories, artworks and similar artists use
    Loading/Success/Error.
  - Artist details use Loading/Success(details or null)/Error.
  - Each class keeps a ghost `trace` of every value its state field took, so
    "Loading is set before the fetch" can be stated.
- **Repositories** (login, logout, register, delete account). Each is a
  function from the response to a `Result`, followed by a method that applies
  the session and cookie update.
- **Login and registration forms.** Their field errors, click handlers and
  reactions to the view-model state. The email pattern is an uninterpreted
  predicate.
- **Categories carousel.** The clamping of the pager's Previous/Next arrows.

Modules:

| module | file | content |
|---|---|---|
| `Common` | `common.dfy` | Option, Result, responses, an order-keeping `Filter` |
| `Text` | `text.dfy` | decimal rendering and parsing, `isBlank`, `contains` |
| `FetchStates` | `view_state.dfy` | the Loading/Success/Error pattern |
| `ActionStates` | `view_state.dfy` | the Idle/Loading/Success/Error pattern |
| `ElapsedTime` | `elapsed_time.dfy` | the elapsed-time label |
| `CookieJar` | `cookie_jar.dfy` | the cookie jar |
| `UserSession` | `user_session.dfy` | the session store |
| `Requests` | `requests.dfy` | what the login and registration repositories share: the status check, the session checks and outcome of a signed action, clearing the account |
| `Login` | `login.dfy` | login and logout |
| `Register` | `register.dfy` | registration and account deletion |
| `Favorites` | `favorites.dfy` | the favourites view model |
| `Search` | `search.dfy` | the search view model |
| `Categories` | `categories.dfy` | categories and the carousel pager |
| `Artworks` | `artworks.dfy` | the artworks view model |
| `SimilarArtists` | `similar_artists.dfy` | the similar-artists view model |
| `ArtistDetails` | `artist_details.dfy` | the artist-details view model |
| `FormRules` | `form_rules.dfy` | field checks shared by both forms |
| `LoginScreen` | `login_screen.dfy` | the login form |
| `RegisterScreen` | `register_screen.dfy` | the registration form |

Two places in the source need interpretation; the model follows the code:

- `UserSessionManager.saveSession` is declared with a non-null refresh token
  but is called with two arguments. The model takes an optional refresh
  token, and an absent one removes the key, as `putString(key, null)` does.
  So after a login or registration no refresh token is stored.
- Status comparisons follow Ktor's `HttpStatusCode`, which compares only the
  numeric value. A status prints as "value description", which is why a 409
  answer yields a message containing "409".

All source paths below are under `app/src/main/java/com/example/artsy_mobile_app/`.

## Model

| member | source | states |
|---|---|---|
| ElapsedTime.Bucket | app/src/main/java/com/example/artsy_mobile_app/utils.kt:118-128 | Each of the seven units is chosen exactly on its range (negative, under a minute, ..., a year or more). The count is the truncated quotient by the unit's length. Its bounds are secs 0..59, min 1..59, hours 1..23, days 1..29, months (30 days) 1..12, and years (365 days) at least 1. |
| ElapsedTime.BucketMonotonic | app/src/main/java/com/example/artsy_mobile_app/utils.kt:119-127 | A larger difference never lands in a smaller unit. Within one unit it never shows a smaller count. |
| ElapsedTime.FormatElapsedTime | app/src/main/java/com/example/artsy_mobile_app/utils.kt:118-128 | The exact text for each range: "just now", or the decimal count followed by " secs ago", " min ago", " hours ago", " days ago", " months ago" or " years ago". |
| ElapsedTime.ParseRender | app/src/main/java/com/example/artsy_mobile_app/utils.kt:120-127 | Every bucket reads back from its rendered text. |
| ElapsedTime.FormatElapsedTimeReadsBack | app/src/main/java/com/example/artsy_mobile_app/utils.kt:118-128 | The label determines the bucket: no two buckets print alike. |
| CookieJar.Restore | app/src/main/java/com/example/artsy_mobile_app/PersistentCookie.kt:38-45 | A missing or undecodable snapshot restores nothing. A decodable one restores exactly the decoded map. |
| CookieJar.Unexpired | app/src/main/java/com/example/artsy_mobile_app/PersistentCookie.kt:26 | A cookie is kept exactly when it is the host's and `expiresAt > now`. |
| CookieJar.UnexpiredKeepsOrder | app/src/main/java/com/example/artsy_mobile_app/PersistentCookie.kt:26 | Pruning keeps stored order: it distributes over concatenation. |
| CookieJar.LoadForRequestStable | app/src/main/java/com/example/artsy_mobile_app/PersistentCookie.kt:25-29 | Two loads for the same host with the same clock return the same list and leave the same map. |
| CookieJar.RestorePersisted | app/src/main/java/com/example/artsy_mobile_app/PersistentCookie.kt:31-45 | With a round-tripping codec, restoring after persisting yields the persisted map. |
| CookieJar.PersistentCookieJar.constructor | app/src/main/java/com/example/artsy_mobile_app/PersistentCookie.kt:11-18 | A new jar holds exactly what the store's snapshot restores to. |
| CookieJar.PersistentCookieJar.SaveFromResponse | app/src/main/java/com/example/artsy_mobile_app/PersistentCookie.kt:20-23 | Replaces the host's list wholesale and leaves other hosts untouched. The snapshot then restores to the whole in-memory map. |
| CookieJar.PersistentCookieJar.LoadForRequest | app/src/main/java/com/example/artsy_mobile_app/PersistentCookie.kt:25-29 | Returns exactly the host's live cookies, in stored order. Writes them back under the host, creating an entry if there was none. The store is unchanged. |
| CookieJar.PersistentCookieJar.PersistCookies | app/src/main/java/com/example/artsy_mobile_app/PersistentCookie.kt:31-36 | Writes the encoded map under "cookies"; no other key changes. |
| CookieJar.PersistentCookieJar.LoadCookies | app/src/main/java/com/example/artsy_mobile_app/PersistentCookie.kt:38-45 | Merges the restored map over the current one (`putAll`). |
| CookieJar.PersistentCookieJar.ClearCookies | app/src/main/java/com/example/artsy_mobile_app/PersistentCookie.kt:47-50 | Removes the snapshot key, so a later jar restores nothing, and empties the map. |
| UserSession.Put | app/src/main/java/com/example/artsy_mobile_app/UserSession.kt:22-26 | `putString` stores the value under the key, or removes the key for null. Every other key is unchanged. |
| UserSession.UserSessionManager.constructor | app/src/main/java/com/example/artsy_mobile_app/UserSession.kt:17-19 | The manager sees whatever the store holds. |
| UserSession.UserSessionManager.SaveSession | app/src/main/java/com/example/artsy_mobile_app/UserSession.kt:21-27 | Overwrites all three keys. Afterwards `getUser`, `getAccessToken` and `getRefreshToken` return what was saved, and the user is logged in. |
| UserSession.UserSessionManager.GetUser | app/src/main/java/com/example/artsy_mobile_app/UserSession.kt:29-32 | Null when no user is stored. Otherwise exactly what decoding the stored text gives: null when it does not decode, else the decoded user. |
| UserSession.UserSessionManager.GetAccessToken | app/src/main/java/com/example/artsy_mobile_app/UserSession.kt:34 | Present exactly when the key is stored, and then the stored string. |
| UserSession.UserSessionManager.GetRefreshToken | app/src/main/java/com/example/artsy_mobile_app/UserSession.kt:35 | Present exactly when the key is stored, and then the stored string. |
| UserSession.UserSessionManager.ClearSession | app/src/main/java/com/example/artsy_mobile_app/UserSession.kt:37-39 | The store is empty, all three getters return null, and the user is logged out. |
| UserSession.UserSessionManager.IsLoggedIn | app/src/main/java/com/example/artsy_mobile_app/UserSession.kt:41 | True exactly when some access token is stored, the empty one included. |
| FetchStates.Settle | app/src/main/java/com/example/artsy_mobile_app/FavUtils.kt:123-127 | Success exactly for a non-empty list, carrying that list. Otherwise Error("No results found"). Never Loading. |
| FetchStates.SettleFetched | app/src/main/java/com/example/artsy_mobile_app/FavUtils.kt:130-145 | A failed fetch or decode ends in Error("No results found"). Success carries the decoded list unchanged. |
| ActionStates.Fold | app/src/main/java/com/example/artsy_mobile_app/LoginUtils.kt:69-75 | Success(done) exactly for a successful result. Otherwise Error with the failure's message, or the fallback when it has none. |
| Favorites.WithoutFavId | app/src/main/java/com/example/artsy_mobile_app/FavUtils.kt:183 | Keeps exactly the entries whose `favId` differs from the removed one. |
| Favorites.WithoutFavIdKeepsOrder | app/src/main/java/com/example/artsy_mobile_app/FavUtils.kt:183 | Removal keeps the order of the kept entries. |
| Favorites.WithoutAbsentFavId | app/src/main/java/com/example/artsy_mobile_app/FavUtils.kt:182-184 | Removing an id that no entry has leaves the list unchanged. |
| Favorites.AddThenRemove | app/src/main/java/com/example/artsy_mobile_app/FavUtils.kt:147-188 | Adding an artist and then removing its `favId` gives the old list without that id. |
| Favorites.FavoriteArtistViewModel.constructor | app/src/main/java/com/example/artsy_mobile_app/FavUtils.kt:92-96 | All three states start Loading, with an empty favourites list. |
| Favorites.FavoriteArtistViewModel.FetchFavorites | app/src/main/java/com/example/artsy_mobile_app/FavUtils.kt:119-128 | Sets Loading, then the settled result. An empty or failed fetch is Error. The favourites list is not touched. |
| Favorites.FavoriteArtistViewModel.AddToFavorites | app/src/main/java/com/example/artsy_mobile_app/FavUtils.kt:147-157 | A returned artist is appended, and Success holds the new list. Null leaves the list as it was and sets Error("Failed to add to favorites"). Loading comes first. |
| Favorites.FavoriteArtistViewModel.RemoveFromFavorites | app/src/main/java/com/example/artsy_mobile_app/FavUtils.kt:178-188 | A returned id drops every entry with it and sets Success, even when nothing matched. Null leaves the list and sets Error("Failed to remove from favorites"). Loading comes first. |
| Favorites.FavoriteArtistViewModel.AddFavorite | app/src/main/java/com/example/artsy_mobile_app/FavUtils.kt:99-107 | The add state ends as Success with the appended list, or Error("Failed to add to favorites"). Shows "Added to favorites" only after a successful add, then always refetches. The events happen in that order. |
| Favorites.FavoriteArtistViewModel.RemoveFavorite | app/src/main/java/com/example/artsy_mobile_app/FavUtils.kt:109-117 | The remove state ends as Success with the pruned list, or Error("Failed to remove from favorites"). Shows "Removed from favorites" only after a successful removal, then always refetches. |
| Search.SearchViewModel.constructor | app/src/main/java/com/example/artsy_mobile_app/SearchUtils.kt:64-66 | Starts in Loading with the empty query. |
| Search.SearchViewModel.OnSearchQueryChange | app/src/main/java/com/example/artsy_mobile_app/SearchUtils.kt:70-79 | Always stores the query. Searches exactly when it has at least 3 characters. A shorter query sets Error("Type at least 3 characters") and nothing else. |
| Search.SearchViewModel.PerformSearch | app/src/main/java/com/example/artsy_mobile_app/SearchUtils.kt:81-91 | Sets Loading, then Success with the results if there are any, else Error("No results found"). |
| Artworks.ArtworksViewModel.FetchArtworks | app/src/main/java/com/example/artsy_mobile_app/ArtworksUtils.kt:62-72 | Sets Loading, then Success with the decoded list unchanged if it is non-empty, else Error("No results found"). |
| SimilarArtists.SimilarArtistsViewModel.FetchSimilarArtists | app/src/main/java/com/example/artsy_mobile_app/SimilarArtistsUtils.kt:66-74 | Sets Loading, then Success with the decoded list if it is non-empty, else Error("No results found"). |
| Categories.CategoriesViewModel.FetchCategories | app/src/main/java/com/example/artsy_mobile_app/CategoriesUtils.kt:72-80 | Sets Loading, then Success with the decoded list if it is non-empty, else Error("No results found"). |
| Categories.StepInRange | app/src/main/java/com/example/artsy_mobile_app/CategoriesUtils.kt:159-182 | One arrow click from a shown page lands on a shown page, at most one page away. |
| Categories.RunInRange | app/src/main/java/com/example/artsy_mobile_app/CategoriesUtils.kt:102-182 | From the initial page 0, no sequence of clicks leaves [0, size-1]. |
| Categories.NextsSaturate | app/src/main/java/com/example/artsy_mobile_app/CategoriesUtils.kt:175-182 | n clicks on Next advance n pages and stop at the last one. |
| Categories.PagerState.constructor | app/src/main/java/com/example/artsy_mobile_app/CategoriesUtils.kt:102 | The pager starts at page 0 with the categories' count. |
| Categories.PagerState.OnPrevious | app/src/main/java/com/example/artsy_mobile_app/CategoriesUtils.kt:159-166 | Moves back one page only when `currentPage > 0`, and keeps the page in range. |
| Categories.PagerState.OnNext | app/src/main/java/com/example/artsy_mobile_app/CategoriesUtils.kt:175-182 | Moves forward one page only when `currentPage < size-1`, and keeps the page in range. |
| ArtistDetails.FetchArtistDetailsFromAPI | app/src/main/java/com/example/artsy_mobile_app/ArtistDetailsUtils.kt:80-98 | Returns the details exactly when the response decoded and says `success`. Otherwise null, failures included. |
| ArtistDetails.ArtistDetailsViewModel.FetchArtistDetails | app/src/main/java/com/example/artsy_mobile_app/ArtistDetailsUtils.kt:68-78 | Sets Loading, then Success with the details or null. Error is never reached. |
| Requests.CheckStatus | app/src/main/java/com/example/artsy_mobile_app/LoginUtils.kt:101-103 | Passes exactly the expected status. Otherwise fails with the prefix and the status text. A request that threw fails with its own message. |
| Login.CheckLogin | app/src/main/java/com/example/artsy_mobile_app/LoginUtils.kt:96-112 | Succeeds exactly for 200 with a `data` object and a decodable `user`, giving that user and the `accessToken` ("" when missing). Failures, in order: the request's own message, "Login failed with status: …", the body's decoding message, "Invalid response" without data, "User not found" without a user, the user's decoding message. |
| Login.LoginWithoutToken | app/src/main/java/com/example/artsy_mobile_app/LoginUtils.kt:112-115 | A 200 answer with a user but no `accessToken` logs in with the empty token. |
| Login.LoginUser | app/src/main/java/com/example/artsy_mobile_app/LoginUtils.kt:92-119 | Saves user and token (and no refresh token) only when every check passed, after which the user is logged in. Otherwise the session is unchanged. The result is the check's outcome. |
| Requests.SessionRequest | app/src/main/java/com/example/artsy_mobile_app/LoginUtils.kt:157-164 | "No user found" without a decodable stored user. The no-token message without an access token. Otherwise the request carries the user's email and the token. |
| Requests.CheckSignedAction | app/src/main/java/com/example/artsy_mobile_app/LoginUtils.kt:153-177 | The session checks come first (RegisterUtils.kt lines 127-155 repeat them for account deletion). The action succeeds exactly when they pass and the answer is 200. After the checks pass, a request that threw fails with its own message, and any other status fails with the prefix and the status text. |
| Requests.ClearAccount | app/src/main/java/com/example/artsy_mobile_app/LoginUtils.kt:179-182 | Removes the cookie snapshot and empties the session, so the user is logged out. |
| Login.LogoutUser | app/src/main/java/com/example/artsy_mobile_app/LoginUtils.kt:153-188 | No request is sent when the session checks fail. Cookies and session are cleared only after a 200 answer. Any failure leaves session and cookie store unchanged. |
| Login.LoginViewModel.constructor | app/src/main/java/com/example/artsy_mobile_app/LoginUtils.kt:56-58 | Starts Idle. |
| Login.LoginViewModel.Login | app/src/main/java/com/example/artsy_mobile_app/LoginUtils.kt:60-66 | Does nothing while Loading. Otherwise sets Loading before launching. |
| Login.LoginViewModel.RunLogin | app/src/main/java/com/example/artsy_mobile_app/LoginUtils.kt:66-82 | Ends in Success("Logged in successfully!") exactly when the login succeeded. Otherwise Error with the message, or "Unknown error". |
| Login.LoginViewModel.ResetState | app/src/main/java/com/example/artsy_mobile_app/LoginUtils.kt:85-87 | Always Idle. |
| Login.LogoutViewModel.Logout | app/src/main/java/com/example/artsy_mobile_app/LoginUtils.kt:127-128 | Sets Loading unconditionally. |
| Login.LogoutViewModel.RunLogout | app/src/main/java/com/example/artsy_mobile_app/LoginUtils.kt:130-146 | Success("Logged out successfully!"), after which the user is logged out. Otherwise Error with the message, or "Unknown error during logout", with the session unchanged. |
| Register.CheckRegister | app/src/main/java/com/example/artsy_mobile_app/RegisterUtils.kt:56-73 | Succeeds only for 201 with a `data` object, building the user with "" for each missing field. Failures: the request's own message, "Registration failed with status: …", the body's decoding message for an undecodable 201 answer, and "Invalid response" without data. |
| Register.ConflictMentions409 | app/src/main/java/com/example/artsy_mobile_app/RegisterUtils.kt:61-63 | A 409 answer fails with a message containing "409". |
| Register.RegisterNewUser | app/src/main/java/com/example/artsy_mobile_app/RegisterUtils.kt:52-82 | On success saves the new user with the token "dummy-token-if-not-returned", after which the user is logged in. Otherwise the session is unchanged. |
| Register.DeleteUserAccount | app/src/main/java/com/example/artsy_mobile_app/RegisterUtils.kt:127-155 | No request without a stored user and token ("No user found", "No tokens available for account deletion"). A non-200 answer fails with "Account deletion failed: …" and changes nothing. A 200 answer clears cookies and session. |
| Register.RegisterViewModel.RegisterUser | app/src/main/java/com/example/artsy_mobile_app/RegisterUtils.kt:93-111 | Goes straight to Success("Registered successfully!") or Error(message, or "Unknown error"), never through Loading. |
| Register.RegisterViewModel.ResetState | app/src/main/java/com/example/artsy_mobile_app/RegisterUtils.kt:113-115 | Always Idle. |
| Register.DeleteAccountViewModel.DeleteAccount | app/src/main/java/com/example/artsy_mobile_app/RegisterUtils.kt:163-164 | Sets Loading first, unconditionally. |
| Register.DeleteAccountViewModel.RunDeleteAccount | app/src/main/java/com/example/artsy_mobile_app/RegisterUtils.kt:166-182 | Success("Account deleted successfully"), after which the user is logged out. Otherwise Error with the message, or "Unknown error", with session and cookies unchanged. |
| ElapsedTime.Render | app/src/main/java/com/example/artsy_mobile_app/utils.kt:120-127 | "just now" for the negative bucket. Otherwise a text starting with a digit and ending in " ago". |
| Common.StatusText | app/src/main/java/com/example/artsy_mobile_app/LoginUtils.kt:102 | A status prints as its decimal code, a space, then its description. |
| FetchStates.DataOrEmpty | app/src/main/java/com/example/artsy_mobile_app/ArtworksUtils.kt:74-88 | A helper that threw hands back the empty list. Otherwise the response's `data`. |
| CookieJar.Lookup | app/src/main/java/com/example/artsy_mobile_app/PersistentCookie.kt:26 | `orEmpty()`: the host's list, or the empty list when the host has no entry. |
| CookieJar.CookiePrefs.constructor | app/src/main/java/com/example/artsy_mobile_app/PersistentCookie.kt:12 | The store holds whatever it held before the jar was built. |
| Favorites.OrNull | app/src/main/java/com/example/artsy_mobile_app/FavUtils.kt:159-206 | `addToFavoritesAPI` and `removeFavoritesFromAPI`: the `data` element (artist or removed id) when the call succeeded and had one. Otherwise null. |
| Artworks.ArtworksViewModel.constructor | app/src/main/java/com/example/artsy_mobile_app/ArtworksUtils.kt:57-58 | Starts in Loading. |
| SimilarArtists.SimilarArtistsViewModel.constructor | app/src/main/java/com/example/artsy_mobile_app/SimilarArtistsUtils.kt:61-62 | Starts in Loading. |
| Categories.CategoriesViewModel.constructor | app/src/main/java/com/example/artsy_mobile_app/CategoriesUtils.kt:67-68 | Starts in Loading. |
| ArtistDetails.ArtistDetailsViewModel.constructor | app/src/main/java/com/example/artsy_mobile_app/ArtistDetailsUtils.kt:62-64 | Starts in Loading. |
| Login.LogoutViewModel.constructor | app/src/main/java/com/example/artsy_mobile_app/LoginUtils.kt:123-125 | Starts Idle. |
| Register.RegisterViewModel.constructor | app/src/main/java/com/example/artsy_mobile_app/RegisterUtils.kt:86-91 | Starts Idle. |
| Register.DeleteAccountViewModel.constructor | app/src/main/java/com/example/artsy_mobile_app/RegisterUtils.kt:158-161 | Starts Idle. |
| FormRules.EmailError | app/src/main/java/com/example/artsy_mobile_app/LoginScreen.kt:156-162 | A blank email is "Email cannot be empty". A non-blank one failing the pattern is "Invalid email format". No error exactly for a non-blank email matching the pattern. |
| FormRules.BlankError | app/src/main/java/com/example/artsy_mobile_app/RegisterScreen.kt:220-227 | The field's "cannot be empty" message exactly when its value is blank. |
| FormRules.BlankEmailIgnoresPattern | app/src/main/java/com/example/artsy_mobile_app/RegisterScreen.kt:213-219 | For a blank email, the blank check takes precedence over the format check, whatever the pattern says. |
| FormRules.ButtonEnabled | app/src/main/java/com/example/artsy_mobile_app/LoginScreen.kt:172 | The Login button (and the Register button, RegisterScreen.kt line 231) is enabled exactly when the state is not Loading. |
| LoginScreen.LoginForm.constructor | app/src/main/java/com/example/artsy_mobile_app/LoginScreen.kt:88-91 | Empty fields and no errors. |
| LoginScreen.LoginForm.ClearFieldErrors | app/src/main/java/com/example/artsy_mobile_app/LoginScreen.kt:99-102 | Both errors are cleared. |
| LoginScreen.LoginForm.OnEmailChange | app/src/main/java/com/example/artsy_mobile_app/LoginScreen.kt:114-117 | Stores the email and clears both errors. |
| LoginScreen.LoginForm.OnPasswordChange | app/src/main/java/com/example/artsy_mobile_app/LoginScreen.kt:134-137 | Stores the password and clears both errors. |
| LoginScreen.LoginForm.OnLoginClick | app/src/main/java/com/example/artsy_mobile_app/LoginScreen.kt:154-170 | Each failing check sets its own error independently; a passing check leaves the old error. `login` is called, and the view model goes Loading, exactly when both checks pass. |
| LoginScreen.LoginForm.OnLoginState | app/src/main/java/com/example/artsy_mobile_app/LoginScreen.kt:183-206 | On Success both fields become "" and the view model is reset to Idle. Any other state changes nothing. |
| RegisterScreen.EmailErrorAfter | app/src/main/java/com/example/artsy_mobile_app/RegisterScreen.kt:245-249 | An Error mentioning "409" sets the email error to "Email already exists". Otherwise the error is kept. |
| RegisterScreen.ConflictShowsEmailExists | app/src/main/java/com/example/artsy_mobile_app/RegisterScreen.kt:242-249 | A registration answered 409 ends with "Email already exists" under the email field. |
| RegisterScreen.SuccessKeepsEmailError | app/src/main/java/com/example/artsy_mobile_app/RegisterScreen.kt:242-267 | A successful registration ends in Success("Registered successfully!") and leaves the email error as it was. |
| RegisterScreen.RegisterForm.constructor | app/src/main/java/com/example/artsy_mobile_app/RegisterScreen.kt:115-121 | Empty fields and no errors. |
| RegisterScreen.RegisterForm.OnFullNameChange | app/src/main/java/com/example/artsy_mobile_app/RegisterScreen.kt:139-142 | Stores the name. Its error is set exactly when the name is blank. The password error is untouched; the email error only gets the recomposition's 409 reaction. |
| RegisterScreen.RegisterForm.OnEmailChange | app/src/main/java/com/example/artsy_mobile_app/RegisterScreen.kt:162-165 | Stores the email. Its error is set exactly when the email is blank (no format check), then overridden by "Email already exists" while the state is a 409 Error. The other errors are untouched. |
| RegisterScreen.RegisterForm.OnPasswordChange | app/src/main/java/com/example/artsy_mobile_app/RegisterScreen.kt:185-188 | Stores the password. Its error is set exactly when the password is blank. The name error is untouched; the email error only gets the recomposition's 409 reaction. |
| RegisterScreen.RegisterForm.OnFullNameFocus | app/src/main/java/com/example/artsy_mobile_app/RegisterScreen.kt:146-150 | Focusing a blank name sets its error. Otherwise the error is kept. |
| RegisterScreen.RegisterForm.OnEmailFocus | app/src/main/java/com/example/artsy_mobile_app/RegisterScreen.kt:169-173 | Focusing a blank email sets its error. Otherwise the error is kept. The recomposition's 409 reaction applies afterwards. |
| RegisterScreen.RegisterForm.OnPasswordFocus | app/src/main/java/com/example/artsy_mobile_app/RegisterScreen.kt:193-197 | Focusing a blank password sets its error. Otherwise the error is kept. |
| RegisterScreen.RegisterForm.OnRegisterClick | app/src/main/java/com/example/artsy_mobile_app/RegisterScreen.kt:211-229 | One click sets the error of every failing field. `registerUser` runs exactly when all three pass: the view model then records its outcome, and on success the session holds the new user with the placeholder token. Otherwise the view model and session are unchanged. The 409 reaction is then re-applied to the email error. |
| RegisterScreen.RegisterForm.OnRegisterState | app/src/main/java/com/example/artsy_mobile_app/RegisterScreen.kt:242-267 | An Error mentioning "409" marks the email as taken. Success empties all three fields and resets the view model. Other states change no field. |
| RegisterScreen.RegisterForm.ReapplyConflict | app/src/main/java/com/example/artsy_mobile_app/RegisterScreen.kt:242-250 | The email-error assignment that every recomposition repeats: "Email already exists" under a 409 Error, the current error otherwise. |
| RegisterScreen.ConflictOverridesEmailEdit | app/src/main/java/com/example/artsy_mobile_app/RegisterScreen.kt:162-165 | While the state is a 409 Error, an email edit shows "Email already exists" whatever was typed. |

## Left out

- Compose layout and rendering, navigation, and snackbars are not modelled. The "Login Failed" text and the success snackbars are presentation only. The snackbar messages of `addFavorite`/`removeFavorite` are kept as events.
- Coroutines are not modelled. Each launched block is one sequential step. Cancellation is not modelled either: the "Operation cancelled" branches and the outer `catch` blocks around repositories that already catch everything.
- Request URLs, query parameters, headers and request bodies are not modelled; each answer is an input. The login credentials and the search query are not tied to the answer.
- JSON decoding is abstracted to `Decoded`/`Option` inputs. The particular exceptions `jsonObject`/`jsonPrimitive` throw are not distinguished. A `data` element that is not an object is covered only as an undecodable body.
- The okhttp `Cookie.Builder` normalisation in CookieUtils.kt is not modelled: converting a cookie to its serialisable form and back is the identity here.
- `Cookie.expiresAt` is an unbounded integer, and the clock is a parameter (`now`).
- CookieJar.PersistentCookieJar.LoadForRequest: the source reads the clock once per cookie inside the filter; the model uses one reading `now` for the whole list.
- Only the elapsed-time label keeps the 64-bit `Long` range of its input.
- The 3-character minimum of search counts characters of the modelled string. Kotlin counts UTF-16 code units.
- `parseTimestamp`, `getCurrentDate` and the one-second ticker of the favourites screen use the wall clock and time zones; they are not part of this model.
- The pager's animated scroll is modelled as immediate.
- `UserSessionManager.init` only rebinds the singleton to the same store, so it is a no-op here.
- SimilarArtists.kt redeclares the classes of SimilarArtistsUtils.kt. Only one copy is modelled.
- The aliasing of `currentFavorites` inside the Success states is not modelled: each Success holds a snapshot of the list.
- `android.util.Patterns.EMAIL_ADDRESS` is the uninterpreted predicate `isEmail`.
