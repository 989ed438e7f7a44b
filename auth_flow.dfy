/**
 * The authentication handlers together, as the browser sees them: the
 * cookies one handler leaves in the jar are the cookies the next one reads.
 * `JSON.parse` is assumed, where a lemma needs it, to read back what
 * `JSON.stringify` wrote; the token endpoint is assumed to issue its grant
 * for the code and redirect URI it was given, and to refuse anything else.
 */
module AuthFlow {
  import opened Options
  import Text
  import Json
  import UriComponent
  import opened Http
  import opened Provider
  import Login
  import Callback
  import UserRoute
  import Logout

  /** The cookies the callback can set are among those logout deletes. */
  lemma LogoutCoversCallback(grant: Grant, profile: Json.Value)
    ensures Callback.SessionCookies(grant, profile).Keys <= Logout.LogoutCookies.Keys
  {
  }

  /**
   * Whatever a callback left in the jar, after logout the user endpoint
   * answers 401 `Not authenticated`, and it sets no cookie.
   */
  lemma CallbackLogoutUser(jar: Jar, q: Callback.Query, env: Callback.Env, url: UrlParser, parse: string -> Option<Json.Value>,
                           token: TokenRequest -> TokenReply, me: string -> ProfileReply, me2: string -> ProfileReply)
    ensures var signedIn := Apply(jar, Callback.Callback(q, env, url, parse, token, me).cookies);
      var loggedOut := Apply(signedIn, Logout.LogoutCookies);
      UserRoute.GetUser(loggedOut, parse, me2) == Answer(UserRoute.NotAuthenticated, map[])
  {
    var signedIn := Apply(jar, Callback.Callback(q, env, url, parse, token, me).cookies);
    Logout.LogoutClearsOnlyAuthCookies(signedIn);
  }

  /** None of the authentication handlers writes the server actions' session cookie. */
  lemma SessionCookieUntouched(jar: Jar, q: Callback.Query, env: Callback.Env, url: UrlParser, parse: string -> Option<Json.Value>,
                               token: TokenRequest -> TokenReply, me: string -> ProfileReply)
    ensures SessionCookie !in Callback.Callback(q, env, url, parse, token, me).cookies
    ensures SessionCookie !in UserRoute.GetUser(jar, parse, me).cookies
    ensures SessionCookie !in Logout.LogoutCookies
  {
    UserRoute.AnswerShape(jar, parse, me);
  }

  /**
   * An access token granted for zero seconds or less is expired at once: the
   * next call of the user endpoint answers 401, even though the sign-in
   * succeeded.
   */
  lemma ExpiredGrantSignsOut(jar: Jar, grant: Grant, profile: Json.Value, parse: string -> Option<Json.Value>,
                             me: string -> ProfileReply)
    requires grant.expiresIn.Some? && grant.expiresIn.value <= 0
    ensures AccessTokenCookie !in Apply(jar, Callback.SessionCookies(grant, profile))
    ensures UserRoute.GetUser(Apply(jar, Callback.SessionCookies(grant, profile)), parse, me)
         == Answer(UserRoute.NotAuthenticated, map[])
  {
    assert !Persists(Callback.SessionCookies(grant, profile)[AccessTokenCookie]);
  }

  /**
   * Login followed by the callback Spotify sends the browser back to: the
   * `state` parameter read from the authorization URL passes the callback's
   * `decodeURIComponent` and `JSON.parse`, the token request carries the
   * redirect URI login registered (so the grant is issued), and the browser
   * lands on `/dashboard?login=success` with the session cookies, provided
   * `new URL` accepts that path against the application URL.
   */
  lemma LoginThenCallback(config: Login.Config, clientSecret: Option<string>, fraction: string, code: string,
                          url: UrlParser, parse: string -> Option<Json.Value>, token: TokenRequest -> TokenReply,
                          me: string -> ProfileReply, grant: Grant, profile: Json.Value)
    requires Login.IsBase36(fraction)
    requires Text.Truthy(config.clientId) && Text.Truthy(config.appUrl) && code != ""
    requires url("/dashboard?login=success", config.appUrl)
    requires parse(Login.StateText(Login.Nonce(fraction))) == Some(Login.StateObject(Login.Nonce(fraction)))
    requires forall req :: token(req) == (if req.code == code && req.redirectUri == Login.RedirectUri(config.appUrl.value)
                                          then TokenIssued(grant) else TokenRefused)
    requires me(grant.accessToken) == ProfileFound(profile) && !profile.Null?
    ensures var state := Login.StateText(Login.Nonce(fraction));
      var query := Login.AuthorizeQuery(config.clientId.value, Login.RedirectUri(config.appUrl.value), Login.Scope, state);
      var env := Callback.Env(config.clientId, clientSecret, config.appUrl);
      && Login.HandleLogin(config, fraction) == Redirect(Login.AuthorizeEndpoint + "?" + query, None)
      && UriComponent.QueryParam(query, "state") == Some(state)
      && Callback.Callback(Callback.Query(Some(code), Some(state), None), env, url, parse, token, me)
         == Answer(Redirect("/dashboard?login=success", config.appUrl), Callback.SessionCookies(grant, profile))
  {
    var nonce := Login.Nonce(fraction);
    var state := Login.StateText(nonce);
    Login.NonceIsDigitPrefix(fraction);
    Login.AuthorizeQueryReadsBack(config.clientId.value, Login.RedirectUri(config.appUrl.value), Login.Scope, state, 4);
    CallbackSignsIn(config, clientSecret, nonce, code, url, parse, token, me, grant, profile);
  }

  /** The callback half of the round trip: the state login wrote leads to a sign-in on `/dashboard`. */
  lemma CallbackSignsIn(config: Login.Config, clientSecret: Option<string>, nonce: string, code: string,
                        url: UrlParser, parse: string -> Option<Json.Value>, token: TokenRequest -> TokenReply,
                        me: string -> ProfileReply, grant: Grant, profile: Json.Value)
    requires Login.IsBase36(nonce)
    requires Text.Truthy(config.clientId) && Text.Truthy(config.appUrl) && code != ""
    requires url("/dashboard?login=success", config.appUrl)
    requires parse(Login.StateText(nonce)) == Some(Login.StateObject(nonce))
    requires token(Callback.TokenRequestFor(Callback.Env(config.clientId, clientSecret, config.appUrl), code)) == TokenIssued(grant)
    requires me(grant.accessToken) == ProfileFound(profile) && !profile.Null?
    ensures Callback.Callback(Callback.Query(Some(code), Some(Login.StateText(nonce)), None),
                              Callback.Env(config.clientId, clientSecret, config.appUrl), url, parse, token, me)
         == Answer(Redirect("/dashboard?login=success", config.appUrl), Callback.SessionCookies(grant, profile))
  {
    var state := Login.StateText(nonce);
    var env := Callback.Env(config.clientId, clientSecret, config.appUrl);
    var q := Callback.Query(Some(code), Some(state), None);
    Login.StateDecodesToItself(nonce);
    var stateData := Login.StateObject(nonce);
    StateLandsOnDashboard(nonce);
    DecideSignsIn(q, env, parse, token, me, stateData, grant, profile);
    RespondSignedIn(env, url, "/dashboard?login=success", grant, profile);
  }

  /** The state login writes sends the callback to `/dashboard?login=success`. */
  lemma StateLandsOnDashboard(nonce: string)
    ensures !Login.StateObject(nonce).Null?
    ensures Callback.RedirectTo(Login.StateObject(nonce)) + Callback.SuccessSuffix == "/dashboard?login=success"
  {
    var stateData := Login.StateObject(nonce);
    assert Json.Member(stateData, "redirectTo") == Some(Json.Str("/dashboard"));
    assert Callback.RedirectTo(stateData) == "/dashboard";
  }

  /** A sign-in whose target `new URL` accepts redirects to it with the session cookies. */
  lemma RespondSignedIn(env: Callback.Env, url: UrlParser, target: string, grant: Grant, profile: Json.Value)
    requires url(target, env.appUrl)
    ensures Callback.Respond(env, url, Callback.SignedIn(target, grant, profile))
         == Answer(Redirect(target, env.appUrl), Callback.SessionCookies(grant, profile))
  {
  }

  /** The callback's checks all pass: the state decodes and parses, the grant is issued and the profile found. */
  lemma DecideSignsIn(q: Callback.Query, env: Callback.Env, parse: string -> Option<Json.Value>,
                      token: TokenRequest -> TokenReply, me: string -> ProfileReply,
                      stateData: Json.Value, grant: Grant, profile: Json.Value)
    requires !Text.Truthy(q.error) && Text.Truthy(q.code) && Text.Truthy(q.state)
    requires UriComponent.Decode(q.state.value) == Some(q.state.value)
    requires parse(q.state.value) == Some(stateData) && !stateData.Null?
    requires token(Callback.TokenRequestFor(env, q.code.value)) == TokenIssued(grant)
    requires me(grant.accessToken) == ProfileFound(profile) && !profile.Null?
    ensures Callback.Decide(q, env, parse, token, me)
         == Callback.SignedIn(Callback.RedirectTo(stateData) + Callback.SuccessSuffix, grant, profile)
  {
  }

  /**
   * A successful callback followed by the user endpoint: the answer comes
   * from the `user_info` cookie the callback stored (no profile fetch) and
   * names the profile's id, display name and email, provided the access
   * token was granted a positive lifetime (or none) and `JSON.parse` reads
   * back the stored summary.
   */
  lemma CallbackThenUser(jar: Jar, grant: Grant, profile: Json.Value, parse: string -> Option<Json.Value>,
                         me: string -> ProfileReply)
    requires grant.expiresIn.None? || grant.expiresIn.value > 0
    requires parse(Json.Stringify(Callback.UserInfo(profile))) == Some(Callback.UserInfo(profile))
    ensures var answer := UserRoute.GetUser(Apply(jar, Callback.SessionCookies(grant, profile)), parse, me);
      && answer.cookies == map[]
      && UserRoute.UserOf(answer.reply).Some?
      && Json.Member(UserRoute.UserOf(answer.reply).value, "id") == Json.Member(profile, "id")
      && Json.Member(UserRoute.UserOf(answer.reply).value, "name") == Json.Member(profile, "display_name")
      && Json.Member(UserRoute.UserOf(answer.reply).value, "email") == Json.Member(profile, "email")
  {
    var info := Callback.UserInfo(profile);
    var cookies := Callback.SessionCookies(grant, profile);
    var next := Apply(jar, cookies);
    assert Persists(cookies[AccessTokenCookie]) && Persists(cookies[UserInfoCookie]);
    assert AccessTokenCookie in next && UserInfoCookie in next && next[UserInfoCookie].value == Json.Stringify(info);
    UserRoute.CachedAnswer(next, parse, me, info);
    Callback.UserInfoMembers(profile);
    UserRoute.CachedUserIdentity(info);
  }
}
