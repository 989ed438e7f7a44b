# MoodSync authentication, playlist and page-state model

MoodSync is a Next.js application. A user signs in with Spotify, describes a mood, receives AI-suggested songs and saves them as a Spotify playlist. This project is a Dafny model of the parts of MoodSync that decide things:

- **The authentication route handlers.**
  - `GET /api/auth/login` builds the authorization URL of the OAuth 2.0 authorization-code flow (section 4.1.1 of RFC 6749) with a JSON state.
  - `GET /api/auth/callback` dispatches on `error`/`code`/`state`, exchanges the code, fetches the profile and sets the access-token, refresh-token and `user_info` cookies.
  - `GET /api/user` answers the current user, from the `user_info` cookie or from Spotify, caching the latter.
  - `POST /api/auth/logout` deletes the three cookies.
- **The `createPlaylistOnSpotify` server action.** It checks its configuration and the session's token, refreshes an expired token (section 6 of RFC 6749), searches every suggested song in order, creates a private playlist and adds the tracks found. A 401 destroys the session.
- **The client state.**
  - The chat provider (`AppProvider`): sending a message and suggesting a mood.
  - The dashboard page: mood selection, the search box, the account check against `/api/user`, and the choice of what is shown.
  - The song card's reading of a `title by artist` suggestion.

The modules follow the program: `Login`, `Callback`, `UserRoute`, `Logout`, `CreatePlaylist`, `SongCard`, `AppContext` and `Dashboard`, one per source file. Beside them:

- `Text`, `UriComponent` and `Json` give the JavaScript runtime behaviour the code relies on:
  - `split`, `indexOf`, `trim` and `substring`;
  - `encodeURIComponent`/`decodeURIComponent` with UTF-8 (section 19.2.6 of ECMA-262);
  - `JSON.stringify` (section 25.5.2 of ECMA-262);
  - truthiness, `||` and `??`.
- `Http` holds replies, Set-Cookie directives and the browser's cookie jar (RFC 6265 section 5.3).
- `Provider` holds the answers of the Spotify endpoints.
- `AuthFlow` states properties of the handlers run one after another, the browser carrying the cookies between them.

State that the source changes in place is modelled as classes whose methods are proved equal to a specification function of the old state:
- the response's cookies (`Http.Response`);
- the iron-session object (`CreatePlaylist.Session`);
- the React state of the chat provider (`AppContext.App`);
- the React state of the dashboard (`Dashboard.DashboardPage`).

The search loop of the server action is a `while` loop (`CreatePlaylist.ResolveTracks`). The route handlers are functions from the cookie jar, the query and the endpoints' answers to an answer (reply plus cookie directives), each with a method that builds the response as the handler does.

Inputs, not computations, in this model:
- `JSON.parse` is a function parameter. The lemmas that need it to read back what `JSON.stringify` wrote say so in a precondition.
- The Spotify endpoints, the recommendation flows, `Math.random` (as the base-36 digits of the fraction) and `Date.now()` are parameters.
- The WHATWG URL parser's verdict on `new URL(target, base)` is a parameter (`Http.UrlParser`). Only its certain failures are stated (`Http.KnownFailures`): an empty base, and a target without a scheme when there is no base.
- The Korean rendering of today's date is a parameter.

Behaviour of the code worth knowing, which the model follows:
- The requested scopes are `user-read-private user-read-email user-top-read user-read-recently-played`. No playback, library or playlist-modify scope is requested.
- A state that does not decode or parse gives `callback_failed`, like a refused token or profile.
- A 401 from Spotify in the server action destroys the session and answers "authentication expired". The action makes no refresh and no second attempt after it.
- A refresh keeps the session's refresh token. A rotated one is not stored.
- A refresh happens only when the expiry is set, non-zero and strictly in the past.
- The "no tracks found" and other errors are the Korean messages of the code.
- Logout deletes the three `spotify_*`/`user_info` cookies only. The encrypted `moodsync-session` cookie that the server action reads is a different cookie, and no handler writes or deletes it (`Logout.LogoutKeepsSession`, `AuthFlow.SessionCookieUntouched`).
- The sign-in writes its cookies as separate directives. The access-token cookie's lifetime is `expires_in ?? 3600`, so a grant of zero seconds gives a cookie that expires at once (`AuthFlow.ExpiredGrantSignsOut`).

## Model

| member | source | states |
|---|---|---|
| Login.NonceIsDigitPrefix | src/app/api/auth/login/route.ts:41 | The state's nonce, `substring(2, 15)` of the base-36 rendering, is the first (at most) 13 digits of the fraction, so it has at most 13 characters, all from `[0-9a-z]`. |
| Login.StateDecodesToItself | src/app/api/auth/login/route.ts:40-43 | The state JSON written from a base-36 nonce has no `%`, so `decodeURIComponent` returns it unchanged. |
| Login.AuthorizeQueryReadsBack | src/app/api/auth/login/route.ts:50-55 | The authorization query splits at `&` into the five encoded pairs. Reading back any parameter by name gives its original value. |
| Login.LoginRedirect | src/app/api/auth/login/route.ts:20-76 | Login redirects iff client id and app URL are both non-empty, and otherwise answers the 500 configuration error. The redirect goes to Spotify's authorize endpoint, and its query reads back as the client id, `code`, `appUrl + "/api/auth/callback"`, the scope and a state that decodes to itself. |
| Callback.TokenRequestFor | src/app/api/auth/callback/route.ts:26-43 | The token request carries grant type `authorization_code`, the callback's code and, for a configured app URL, the redirect URI login registered. |
| Callback.SessionCookies | src/app/api/auth/callback/route.ts:71-103 | A sign-in sets the access token for `expires_in` seconds (3600 only when it is missing). It sets the refresh token for 30 days only when one is non-empty, and the stringified profile summary for one day. |
| Callback.HandleCallback | src/app/api/auth/callback/route.ts:4-111 | The handler's response, built cookie by cookie, is the answer `Callback` gives: the outcome of the checks, redirected through `new URL`, with the session cookies only on a sign-in whose landing URL parses. |
| Callback.ErrorThenMissingParams | src/app/api/auth/callback/route.ts:12-20 | An `error` parameter wins over everything and gives the `oauth_error` redirect with no cookie. Next, a missing or empty `code` or `state` gives `missing_params`. |
| Callback.CookiesOnlyOnSignIn | src/app/api/auth/callback/route.ts:69-109 | Cookies are set iff the sign-in succeeded and `new URL` accepts its landing URL, and then with a redirect to that page. A landing URL it rejects gives the `callback_failed` redirect with no cookie. Every failure redirects with no cookie. An empty app URL makes every answer the uncaught crash of `new URL`, with no cookie. Without an app URL (`undefined`) no relative redirect is answered. |
| Callback.FailureTargets | src/app/api/auth/callback/route.ts:22-63 | A failure targets one of `oauth_error`, `missing_params` and `callback_failed`, and once the `error` and parameter checks have passed it is `callback_failed`. A sign-in implies that the parameters were present, the grant was issued for the code, and the profile was found with its token. |
| Callback.LandingTarget | src/app/api/auth/callback/route.ts:24 | The landing page is the state's non-empty `redirectTo`, or `/` when it is missing or falsy, followed by `?login=success`. |
| Callback.UserInfoMembers | src/app/api/auth/callback/route.ts:89-97 | The `user_info` object carries the profile's id, display name, email, country and product, the first image's URL, and the follower total, which is 0 when the profile has no followers. |
| UserRoute.HandleUser | src/app/api/user/route.ts:5-88 | The handler's response, with the `user_info` cookie set on it, is the answer `GetUser` specifies. |
| UserRoute.AnswerShape | src/app/api/user/route.ts:13-87 | Every answer is JSON with status 200, 401 or 500. It is 401 iff there is no access-token cookie or Spotify refuses the token, and a cookie (only `user_info`) is set iff the profile was fetched successfully. |
| UserRoute.UnreadableCacheFails | src/app/api/user/route.ts:18-87 | With both cookies, the answer is the 500 `Internal server error` with no cookie iff `JSON.parse` rejects the cached `user_info` or reads it as `null`. |
| UserRoute.RefusedProfileFails | src/app/api/user/route.ts:36-87 | Without the cache, the answer is 401 `Failed to fetch user` with no cookie iff Spotify answers with a status that is not ok. An unavailable profile gives the 500 of the `catch`. |
| UserRoute.CachedIgnoresProvider | src/app/api/user/route.ts:19-33 | With both cookies present, the answer does not depend on the profile endpoint. |
| UserRoute.CachedUserIdentity | src/app/api/user/route.ts:23-27 | The user answered from the cookie has the cookie's id, its `display_name` as `name`, and its email. |
| UserRoute.CachedUserDefaults | src/app/api/user/route.ts:28-31 | Country, followers and product fall back to `Unknown`, 0 and `free` when falsy. The image list has one 300×300 entry iff the cookie has a truthy image. |
| UserRoute.FetchedIdentity | src/app/api/user/route.ts:51-74 | The fetched user and the summary cached in `user_info` both carry the profile's id, display name and email. |
| UserRoute.FetchedAgreesWithCookie | src/app/api/user/route.ts:56-73 | The fetched user and the cached summary agree on country, follower total and product. `images` defaults to `[]`, and the summary keeps the first image's URL. |
| UserRoute.FetchedAnswer | src/app/api/user/route.ts:51-83 | With only the access token and a profile with followers, the answer is the fetched user plus a one-day `user_info` cookie. |
| UserRoute.CachedAnswer | src/app/api/user/route.ts:19-33 | With both cookies and a parsable object in `user_info`, the answer is built from that object and sets no cookie. |
| UserRoute.SecondRequestFromCache | src/app/api/user/route.ts:19-81 | After a fetch has stored `user_info`, the next request is answered from the cookie, sets no cookie, and names the same id, name and email as the first, whatever Spotify now says. |
| Logout.HandleLogout | src/app/api/auth/logout/route.ts:3-15 | Logout answers `{message: "Logged out successfully"}` with one deletion for each of the three authentication cookies. |
| Logout.LogoutClearsOnlyAuthCookies | src/app/api/auth/logout/route.ts:9-11 | After logout the jar holds none of the three cookies, and every other cookie is present iff it was before, unchanged. |
| Logout.LogoutKeepsSession | src/app/api/auth/logout/route.ts:9-11 | The server action's `moodsync-session` cookie survives logout unchanged. |
| Logout.LogoutIdempotent | src/app/api/auth/logout/route.ts:9-11 | Logging out twice leaves the jar as logging out once. A jar without authentication cookies is left unchanged. |
| AuthFlow.LogoutCoversCallback | src/app/api/auth/logout/route.ts:9-11 | Every cookie a callback can set is one logout deletes. |
| AuthFlow.CallbackLogoutUser | src/app/api/user/route.ts:13-16 | After any callback followed by logout, the user endpoint answers 401 `Not authenticated` and sets no cookie. |
| AuthFlow.SessionCookieUntouched | src/app/api/auth/logout/route.ts:9-11 | None of callback, user endpoint and logout writes the `moodsync-session` cookie. |
| AuthFlow.ExpiredGrantSignsOut | src/app/api/auth/callback/route.ts:75 | A grant of zero seconds or less leaves no access-token cookie, so the next user request answers 401 although the sign-in succeeded. |
| AuthFlow.LoginThenCallback | src/app/api/auth/callback/route.ts:23-29 | The state taken from login's URL passes the callback's decoding and parsing, and the token request carries the redirect URI login registered. When the URL parser accepts `/dashboard?login=success` against the app URL, the browser lands there with the session cookies. |
| AuthFlow.CallbackSignsIn | src/app/api/auth/callback/route.ts:22-105 | For a state written by login, an issued grant and a found profile, the callback redirects to `/dashboard?login=success` with the session cookies, whenever the URL parser accepts that target against the app URL. |
| AuthFlow.CallbackThenUser | src/app/api/user/route.ts:19-33 | After a sign-in with a positive token lifetime, the user endpoint answers from the stored summary with the profile's id, display name and email, and sets no cookie. |
| CreatePlaylist.Session.Save | src/app/actions/create-playlist.ts:34 | `save` writes the session's current fields to its cookie and changes no field. |
| CreatePlaylist.Session.Destroy | src/app/actions/create-playlist.ts:64 | `destroy` clears every field and removes the cookie. |
| CreatePlaylist.AfterRefresh | src/app/actions/create-playlist.ts:32-33 | After a refresh the session holds the new token, which expires `expires_in` seconds after the clock reading, and the same refresh token. |
| CreatePlaylist.ResolveTracks | src/app/actions/create-playlist.ts:38-45 | The search loop returns the URIs, the stopping error and the searches made, as the specification of the loop over the songs gives them. |
| CreatePlaylist.ResolveStopsAtFailure | src/app/actions/create-playlist.ts:38-45 | Once a search is rejected, the songs after it are not searched and change nothing. |
| CreatePlaylist.ResolveSpec | src/app/actions/create-playlist.ts:38-45 | The searches made are for a prefix of the songs, in order. Without a rejection every song is searched and the URIs are exactly the first hits in song order. With a rejection the last search made is the rejected one. |
| CreatePlaylist.Catch | src/app/actions/create-playlist.ts:61-68 | An error with status 401 destroys the session and answers "authentication expired". Any other error keeps the session and answers "creation failed". |
| CreatePlaylist.HandleError | src/app/actions/create-playlist.ts:61-68 | The `catch` on the session object has the same result and leaves the same session as `Catch`. |
| CreatePlaylist.CreatePlaylistOnSpotify | src/app/actions/create-playlist.ts:6-69 | The action on the session object returns the result and the calls, and leaves the session, that the action's specification gives. |
| CreatePlaylist.PublishSpec | src/app/actions/create-playlist.ts:38-59 | After the refresh step:<br>• every call carries the current token;<br>• only the "authentication expired" answer changes the session, by destroying it;<br>• a playlist is created only when every search succeeded and found a track;<br>• nothing found gives the not-found error;<br>• a URL is answered only after a private `MoodSync: <date>` playlist was created and exactly the hits were added to it. |
| CreatePlaylist.PublishRejections | src/app/actions/create-playlist.ts:38-68 | A rejected search, playlist creation or track addition goes to the `catch` with the calls made so far. The answer is "authentication expired", with the session destroyed, iff some call was rejected with status 401. |
| CreatePlaylist.Guards | src/app/actions/create-playlist.ts:10-18 | A missing credential, or a session without an access token, gives its error before any call, with the session unchanged. |
| CreatePlaylist.RefreshIffExpired | src/app/actions/create-playlist.ts:29-36 | A refresh is the first call iff the guards pass and the expiry is set and strictly past. Every later call carries the refreshed token, or the session's when no refresh was needed. |
| CreatePlaylist.SessionAfterAction | src/app/actions/create-playlist.ts:29-66 | The session is destroyed iff the answer is "authentication expired". Otherwise it holds the refreshed and saved token after a refresh, and is as it was when none was needed. The refresh token never changes. |
| CreatePlaylist.PlaylistOnlyWithTracks | src/app/actions/create-playlist.ts:47-59 | For the whole action: a playlist is created only when the songs resolved to at least one track, and a URL is answered only after exactly those tracks were added to the new private playlist. |
| CreatePlaylist.TwoSongs | src/app/actions/create-playlist.ts:38-59 | Two songs, of which only the first is found: both are searched, and the playlist is created and receives the one track. This is partial success, not failure. |
| SongCard.NeverEmpty | src/components/song-card.tsx:9-11 | The card always shows a non-empty title and a non-empty artist. |
| SongCard.ParseFormat | src/components/song-card.tsx:9-11 | A non-empty title and artist without ` by `, the title not ending in ` by`, are read back from `title by artist`. |
| SongCard.TitleEndingInByIsMisread | src/components/song-card.tsx:9 | A title ending in ` by` is not read back: `x by` by `y` is read as title `x` and artist `by y`. |
| SongCard.NoSeparator | src/components/song-card.tsx:9-11 | A string without ` by ` is all title with an unknown artist, or unknown on both counts when empty. |
| SongCard.LeadingSeparator | src/components/song-card.tsx:9-11 | A string starting with ` by ` has an unknown title and the next piece as artist. |
| SongCard.ExtraPiecesDropped | src/components/song-card.tsx:9-11 | Pieces after the second ` by ` are ignored. |
| AppContext.App.AddMessage | src/contexts/app-context.tsx:35-37 | `addMessage` appends exactly one message, stamped with the clock, and changes nothing else. |
| AppContext.App.SendMessage | src/contexts/app-context.tsx:39-71 | `sendMessage` run to completion gives the state that `Send` specifies. |
| AppContext.App.BeginSendMessage | src/contexts/app-context.tsx:40-45 | Generation starts iff the text is not blank after `trim`. It then switches to the chat, logs the user's message, clears the input and shows typing. |
| AppContext.App.FinishSendMessage | src/contexts/app-context.tsx:47-70 | When generation settles, the assistant's answer or the apology is appended and typing ends. |
| AppContext.App.SuggestMood | src/contexts/app-context.tsx:73-82 | `suggestMood` sets the input to the mood's prompt and changes nothing else. |
| AppContext.SendBlankChangesNothing | src/contexts/app-context.tsx:40 | Sending leaves the state unchanged iff the text is empty or whitespace only. |
| AppContext.SendAppendsTwo | src/contexts/app-context.tsx:42-70 | Non-blank text appends the user's then the assistant's message (the apology when generation failed). The view is the chat, the input is empty and typing has ended, while typing is shown during generation. |
| AppContext.MoodPromptInjective | src/contexts/app-context.tsx:74-82 | Distinct moods give distinct prompts, for every pair of moods, known or not. |
| AppContext.LogOnlyGrows | src/contexts/app-context.tsx:35-70 | Whatever happens, including other events between a send's start and the settling of its generation, the earlier message log is a prefix of the later one. |
| Dashboard.DashboardPage.HandleMoodSelect | src/app/dashboard/page.tsx:255-279 | `handleMoodSelect` run to completion gives the page state that `SelectMood` specifies. |
| Dashboard.DashboardPage.BeginMoodSelect | src/app/dashboard/page.tsx:256-259 | The recommendation call is made iff the mood is not blank after `trim`. It then sets loading and clears suggestions and error. |
| Dashboard.DashboardPage.FinishMoodSelect | src/app/dashboard/page.tsx:261-278 | The settled call stores the suggestions, or one of the two error messages (with a toast for an exception), then loading ends. |
| Dashboard.DashboardPage.HandleSearchSubmit | src/app/dashboard/page.tsx:281-285 | Submitting selects the current search term, clearing the box before the selection settles. |
| Dashboard.DashboardPage.FetchUser | src/app/dashboard/page.tsx:228-250 | The account check stores the user or assigns the location, then ends, as `FetchUserResult` specifies. |
| Dashboard.SelectStarts | src/app/dashboard/page.tsx:256-259 | A blank mood changes no state. Any other mood sets loading with suggestions and error cleared, and the page shows the skeleton while the call is pending. |
| Dashboard.SelectSettles | src/app/dashboard/page.tsx:261-278 | On every path of a non-blank selection loading ends. Suggestions are stored iff the result has a non-empty `suggestedSongs`; otherwise the "try a different mood" error, or for an exception the generic error plus one toast. Nothing else changes. |
| Dashboard.SelectionShown | src/app/dashboard/page.tsx:263-270 | After a non-blank selection the page shows the songs when some were delivered and the matching error card otherwise, never the mood grid. |
| Dashboard.RenderPriority | src/app/dashboard/page.tsx:76-131 | The content shown is decided in priority order: skeleton iff loading; else the error card iff the error is non-empty; else the playlist iff there are suggestions; else the mood grid. |
| Dashboard.MoodCardsStartLoading | src/app/dashboard/page.tsx:56-63 | Every mood card's title is non-blank, so selecting it starts loading. |
| Dashboard.SubmitSelectsTerm | src/app/dashboard/page.tsx:281-285 | Submitting is selecting the current term and then emptying the box. A blank term only empties the box. |
| Dashboard.FetchUserRouting | src/app/dashboard/page.tsx:228-250 | The account check ends on every path. An ok, readable response stores `data.user`, and a 401 navigates to `/api/auth/login`. Any other status, an unreadable or `null` body, or a rejected request navigates to `/`. |
| Dashboard.FirstScreen | src/app/dashboard/page.tsx:288-311 | A mounted page first shows the account spinner. After the check it shows the mood grid iff a truthy user was read, and the redirect spinner otherwise. |
| Dashboard.AgainstUserRoute | src/app/dashboard/page.tsx:233-245 | Against the user endpoint, the page goes to login iff the endpoint answers 401 (no token, or refused). It goes home on 500, and otherwise stores the endpoint's `user`. |
| Http.RedirectOrCrash | src/app/api/auth/callback/route.ts:14 | `NextResponse.redirect(new URL(target, base))` redirects to the target iff the URL parser accepts it against the base, and throws otherwise. An empty base, or no base and a target without a scheme, always throws. |
| Http.Apply | src/app/api/auth/callback/route.ts:71-103 | The browser stores each directive with a positive Max-Age, removes the cookie of every other directive, and keeps every cookie no directive names. |
| UriComponent.DecodeEncode | src/app/api/auth/login/route.ts:51-55 | `decodeURIComponent(encodeURIComponent(s))` is `s` for every string. |
| UriComponent.QueryReadsBack | src/app/api/auth/login/route.ts:50-55 | In a query of `name=encoded value` pairs whose names are distinct and have no `=` or `&`, each name reads back its value. |
| Text.JoinSplit | src/components/song-card.tsx:9 | `split` loses nothing: joining the pieces with the separator gives the string back. |
| Text.TrimEmptyIffBlank | src/contexts/app-context.tsx:40 | `!s.trim()` holds exactly for strings of whitespace only. |
| Json.MemberOfFieldsAt | src/app/api/user/route.ts:51-61 | In an object literal with distinct keys each property reads back as written, an `undefined` one as missing. |

## Left out

- Network I/O: the Spotify token, profile, search, playlist and refresh endpoints, the recommendation flows and `fetch('/api/user')` are parameters of the handlers. No request is modelled.
- `JSON.parse` is a parameter. Lemmas that need it to read back `JSON.stringify`'s output assume so in a precondition.
- `JSON.stringify` is modelled for integer numbers only. Floating point is not modelled.
- Base64 encoding of the Basic credentials: the model carries the `id:secret` text before encoding.
- Logging, the `NODE_ENV`-dependent `secure` flag, `httpOnly`, `sameSite` and `path` cookie attributes: only a cookie's name, value and Max-Age are modelled.
- The encryption of the `moodsync-session` cookie by iron-session: the session is its fields plus the saved copy.
- The WHATWG URL parser is not modelled: which targets and bases `new URL` accepts is an input, beyond the failures `Http.KnownFailures` states.
- The login handler's `new URL(spotifyAuthUrl)` check and its `catch`: the URL built from a fixed https prefix always parses, so that branch is not modelled.
- A token response without `access_token`, or with a non-numeric `expires_in`, is not modelled: the grant's token is a string and its lifetime an optional integer.
- `NaN` expiries: `Date.now() + expires_in * 1000` on a missing `expires_in` is not modelled.
- `CreatePlaylist.AfterRefresh` does not model that case either.
- AppContext.MoodPrompt: keys inherited from `Object.prototype` (such as `toString`) are not modelled. For them the source would put a function, not a string, in the input. Its only caller passes one of the six keys.
- The toast of `sendMessage`'s `catch` (a UI notification) is not modelled. The dashboard's toasts are kept as a list of title and description.
- DOM focus after `suggestMood`, JSX and layout, the dashboard's "login successful" banner (its URL parsing, `history.replaceState` and 5-second timer), and `UserNav`'s logout button are not modelled.
- React state batching and concurrent requests: each handler runs sequentially. Concurrent refreshes of the same session are not modelled.
- Strings are sequences of Unicode characters, not of UTF-16 code units. Lone surrogates are not modelled, so neither is the `URIError` that `encodeURIComponent` throws on one.
- Message content is not React nodes: the assistant's answer is a description and its list of songs.
