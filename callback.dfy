/**
 * `GET /api/auth/callback`: the second leg of the authorization-code flow
 * (sections 4.1.2 and 4.1.3 of RFC 6749).  The handler dispatches on the
 * `error`, `code` and `state` query parameters, reads the landing page from
 * the state, exchanges the code for tokens, fetches the profile and, on
 * success, redirects with the access-token, refresh-token and `user_info`
 * cookies.  Every failure redirects to the login page with an error code and
 * sets no cookie.  `JSON.parse` and the two endpoints are parameters.
 */
module Callback {
  import opened Options
  import Text
  import Json
  import UriComponent
  import opened Http
  import opened Provider
  import Login

  /** `searchParams.get(...)` of the three parameters; None when absent. */
  datatype Query = Query(code: Option<string>, state: Option<string>, error: Option<string>)

  /** `SPOTIFY_CLIENT_ID`, `SPOTIFY_CLIENT_SECRET` and `NEXT_PUBLIC_APP_URL`. */
  datatype Env = Env(clientId: Option<string>, clientSecret: Option<string>, appUrl: Option<string>)

  const OAuthErrorTarget := "/login?error=oauth_error"
  const MissingParamsTarget := "/login?error=missing_params"
  const CallbackFailedTarget := "/login?error=callback_failed"
  const SuccessSuffix := "?login=success"

  /** Cookie lifetimes in seconds: the fallback for the access token, and 30 days. */
  const AccessTokenDefaultMaxAge := 3600
  const RefreshTokenMaxAge := 30 * 24 * 60 * 60

  /** What the handler has decided when it comes to build its response. */
  datatype Outcome =
    | Failed(target: string)
    | SignedIn(target: string, grant: Grant, profile: Json.Value)

  /** `stateData.redirectTo || '/'` as the template literal renders it. */
  function RedirectTo(stateData: Json.Value): string {
    Json.ToText(Json.Or(Json.Member(stateData, "redirectTo"), Json.Str("/")))
  }

  /** The token request: the non-null assertions on the settings do not stop `undefined` from being rendered. */
  function TokenRequestFor(env: Env, code: string): (r: TokenRequest)
    ensures r.grantType == "authorization_code" && r.code == code
    ensures Text.Truthy(env.appUrl) ==> r.redirectUri == Login.RedirectUri(env.appUrl.value)
  {
    TokenRequest(
      Text.Rendered(env.clientId) + ":" + Text.Rendered(env.clientSecret),
      "authorization_code", code, Login.RedirectUri(Text.Rendered(env.appUrl)))
  }

  /**
   * The dispatch: an `error` parameter first, then a missing `code` or
   * `state`; inside the `try`, an undecodable or unparseable state, a `null`
   * state or profile (reading a property of it throws), a refused token
   * exchange or a failed or refused profile request all end in `callback_failed`.
   */
  function Decide(q: Query, env: Env, parse: string -> Option<Json.Value>,
                  token: TokenRequest -> TokenReply, me: string -> ProfileReply): Outcome
  {
    if Text.Truthy(q.error) then Failed(OAuthErrorTarget)
    else if !Text.Truthy(q.code) || !Text.Truthy(q.state) then Failed(MissingParamsTarget)
    else match UriComponent.Decode(q.state.value)
      case None => Failed(CallbackFailedTarget)
      case Some(decoded) =>
        match parse(decoded)
        case None => Failed(CallbackFailedTarget)
        case Some(stateData) =>
          if stateData.Null? then Failed(CallbackFailedTarget)
          else
            match token(TokenRequestFor(env, q.code.value))
            case TokenRefused => Failed(CallbackFailedTarget)
            case TokenIssued(grant) =>
              match me(grant.accessToken)
              case ProfileUnavailable => Failed(CallbackFailedTarget)
              case ProfileRefused => Failed(CallbackFailedTarget)
              case ProfileFound(body) =>
                if body.Null? then Failed(CallbackFailedTarget)
                else SignedIn(RedirectTo(stateData) + SuccessSuffix, grant, body)
  }

  /** `userData.followers?.total || 0`. */
  function FollowerCount(body: Json.Value): Json.Value {
    Json.Or(Json.OptMember(Json.Member(body, "followers"), "total"), Json.Num(0))
  }

  /** The properties of the object stored, stringified, in the `user_info` cookie. */
  function UserInfoProps(body: Json.Value): seq<(string, Option<Json.Value>)> {
    [ ("id", Json.Member(body, "id")),
      ("display_name", Json.Member(body, "display_name")),
      ("email", Json.Member(body, "email")),
      ("country", Json.Member(body, "country")),
      ("image", ImageUrl(body)),
      ("product", Json.Member(body, "product")),
      ("followers", Some(FollowerCount(body))) ]
  }

  lemma UserInfoKeysDistinct(body: Json.Value)
    ensures Json.DistinctKeys(UserInfoProps(body))
  {
  }

  function UserInfo(body: Json.Value): Json.Value {
    Json.Obj(Json.Fields(UserInfoProps(body)))
  }

  /**
   * The cookies of a successful sign-in: the access token for `expires_in`
   * seconds (3600 only when it is null or missing, so 0 stays 0), the refresh
   * token for 30 days when there is a non-empty one, and the profile summary
   * for a day.
   */
  function SessionCookies(grant: Grant, profile: Json.Value): (cookies: map<string, SetCookie>)
    ensures cookies.Keys == {AccessTokenCookie, UserInfoCookie}
                          + (if Text.Truthy(grant.refreshToken) then {RefreshTokenCookie} else {})
    ensures cookies[AccessTokenCookie]
         == Store(grant.accessToken, if grant.expiresIn.Some? then grant.expiresIn.value else 3600)
    ensures RefreshTokenCookie in cookies ==> cookies[RefreshTokenCookie] == Store(grant.refreshToken.value, 2592000)
    ensures cookies[UserInfoCookie] == Store(Json.Stringify(UserInfo(profile)), 86400)
  {
    Jar(Store(grant.accessToken, grant.expiresIn.GetOr(AccessTokenDefaultMaxAge)),
        if Text.Truthy(grant.refreshToken) then Some(Store(grant.refreshToken.value, RefreshTokenMaxAge)) else None,
        Store(Json.Stringify(UserInfo(profile)), UserInfoMaxAge))
  }

  /** The session cookies set one after the other: access token, refresh token when there is one, profile summary. */
  function Jar(access: SetCookie, refresh: Option<SetCookie>, info: SetCookie): (jar: map<string, SetCookie>)
    ensures jar.Keys == {AccessTokenCookie, UserInfoCookie} + (if refresh.Some? then {RefreshTokenCookie} else {})
    ensures jar[AccessTokenCookie] == access && jar[UserInfoCookie] == info
    ensures RefreshTokenCookie in jar ==> jar[RefreshTokenCookie] == refresh.value
  {
    var withAccess := map[AccessTokenCookie := access];
    var withRefresh := if refresh.Some? then withAccess[RefreshTokenCookie := refresh.value] else withAccess;
    withRefresh[UserInfoCookie := info]
  }

  /**
   * The response for an outcome.  A failure redirects with no cookie; a
   * sign-in redirects with the session cookies.  When `new URL` throws, inside
   * the `try` it turns into `callback_failed`, outside it escapes the handler.
   */
  function Respond(env: Env, url: UrlParser, outcome: Outcome): Answer {
    match outcome
    case Failed(target) => Answer(RedirectOrCrash(url, target, env.appUrl), map[])
    case SignedIn(target, grant, profile) =>
      if url(target, env.appUrl) then Answer(Redirect(target, env.appUrl), SessionCookies(grant, profile))
      else Answer(RedirectOrCrash(url, CallbackFailedTarget, env.appUrl), map[])
  }

  function Callback(q: Query, env: Env, url: UrlParser, parse: string -> Option<Json.Value>,
                    token: TokenRequest -> TokenReply, me: string -> ProfileReply): Answer
  {
    Respond(env, url, Decide(q, env, parse, token, me))
  }

  /** The handler: decide, then build the response and set its cookies one after the other. */
  method HandleCallback(q: Query, env: Env, url: UrlParser, parse: string -> Option<Json.Value>,
                        token: TokenRequest -> TokenReply, me: string -> ProfileReply)
    returns (response: Response)
    ensures fresh(response)
    ensures response.AsAnswer() == Callback(q, env, url, parse, token, me)
  {
    var outcome := Decide(q, env, parse, token, me);
    match outcome {
      case Failed(target) =>
        response := new Response(RedirectOrCrash(url, target, env.appUrl));
      case SignedIn(target, grant, profile) =>
        if !url(target, env.appUrl) {
          response := new Response(RedirectOrCrash(url, CallbackFailedTarget, env.appUrl));
          return;
        }
        response := new Response(Redirect(target, env.appUrl));
        response.Set(AccessTokenCookie, grant.accessToken, grant.expiresIn.GetOr(AccessTokenDefaultMaxAge));
        if Text.Truthy(grant.refreshToken) {
          response.Set(RefreshTokenCookie, grant.refreshToken.value, RefreshTokenMaxAge);
        }
        response.Set(UserInfoCookie, Json.Stringify(UserInfo(profile)), UserInfoMaxAge);
    }
  }

  // ---------------------------------------------------------------------------
  // Properties

  /**
   * The `error` parameter is looked at first: whatever `code` and `state`
   * hold, the answer is the `oauth_error` redirect with no cookie; a missing
   * or empty `code` or `state` comes next and gives `missing_params`.
   */
  lemma ErrorThenMissingParams(q: Query, env: Env, url: UrlParser, parse: string -> Option<Json.Value>,
                               token: TokenRequest -> TokenReply, me: string -> ProfileReply)
    ensures Text.Truthy(q.error) ==>
      Callback(q, env, url, parse, token, me) == Answer(RedirectOrCrash(url, OAuthErrorTarget, env.appUrl), map[])
    ensures !Text.Truthy(q.error) && (!Text.Truthy(q.code) || !Text.Truthy(q.state)) ==>
      Callback(q, env, url, parse, token, me) == Answer(RedirectOrCrash(url, MissingParamsTarget, env.appUrl), map[])
  {
  }

  /**
   * Cookies are set only by a sign-in whose landing URL `new URL` accepts,
   * and then on a redirect to that landing page; a landing URL it rejects
   * turns the sign-in into `callback_failed`, and every other answer carries
   * no cookie either.  An empty application URL makes every answer the crash
   * of `new URL`, without cookies; without one (`undefined`) no redirect is
   * answered to a relative target.
   */
  lemma CookiesOnlyOnSignIn(q: Query, env: Env, url: UrlParser, parse: string -> Option<Json.Value>,
                            token: TokenRequest -> TokenReply, me: string -> ProfileReply)
    ensures var a, o := Callback(q, env, url, parse, token, me), Decide(q, env, parse, token, me);
      && (a.cookies != map[] <==> o.SignedIn? && url(o.target, env.appUrl))
      && (a.cookies != map[] ==> a.reply == Redirect(o.target, env.appUrl) && a.cookies == SessionCookies(o.grant, o.profile))
      && (o.SignedIn? && !url(o.target, env.appUrl) ==> a == Answer(RedirectOrCrash(url, CallbackFailedTarget, env.appUrl), map[]))
      && (o.Failed? ==> a == Answer(RedirectOrCrash(url, o.target, env.appUrl), map[]))
      && (KnownFailures(url) && !Text.Truthy(env.appUrl) && a.reply.Redirect? ==> HasScheme(a.reply.target))
      && (KnownFailures(url) && env.appUrl == Some("") ==> a == Answer(Crash, map[]))
  {
    var o := Decide(q, env, parse, token, me);
    assert Callback(q, env, url, parse, token, me) == Respond(env, url, o);
    match o
    case Failed(_) =>
    case SignedIn(target, grant, profile) =>
      if url(target, env.appUrl) {
        assert AccessTokenCookie in SessionCookies(grant, profile);
      }
  }

  /**
   * A failed sign-in redirects to the login page with one of the three error
   * codes; once the `error` and parameter checks have passed, the code is
   * `callback_failed`.
   */
  lemma FailureTargets(q: Query, env: Env, parse: string -> Option<Json.Value>,
                       token: TokenRequest -> TokenReply, me: string -> ProfileReply)
    ensures Decide(q, env, parse, token, me).Failed? ==>
      Decide(q, env, parse, token, me).target in {OAuthErrorTarget, MissingParamsTarget, CallbackFailedTarget}
    ensures !Text.Truthy(q.error) && Text.Truthy(q.code) && Text.Truthy(q.state) && Decide(q, env, parse, token, me).Failed? ==>
      Decide(q, env, parse, token, me).target == CallbackFailedTarget
    ensures Decide(q, env, parse, token, me).SignedIn? ==>
      && Text.Truthy(q.code) && Text.Truthy(q.state) && !Text.Truthy(q.error)
      && token(TokenRequestFor(env, q.code.value)) == TokenIssued(Decide(q, env, parse, token, me).grant)
      && me(Decide(q, env, parse, token, me).grant.accessToken) == ProfileFound(Decide(q, env, parse, token, me).profile)
  {
  }

  /**
   * The landing page is the state's `redirectTo` when it is a non-empty
   * string, and `/` when it is missing or falsy; `?login=success` is appended.
   */
  lemma LandingTarget(stateData: Json.Value)
    ensures Json.Member(stateData, "redirectTo").Some? && Json.Member(stateData, "redirectTo").value.Str?
            && Json.Member(stateData, "redirectTo").value.s != "" ==>
      RedirectTo(stateData) + SuccessSuffix == Json.Member(stateData, "redirectTo").value.s + "?login=success"
    ensures (Json.Member(stateData, "redirectTo").None? || !Json.Truthy(Json.Member(stateData, "redirectTo").value)) ==>
      RedirectTo(stateData) + SuccessSuffix == "/?login=success"
  {
  }

  /**
   * The `user_info` object carries the profile's id, display name, email,
   * country and product as read from it, the first image's URL, and the
   * follower count, which is 0 when the profile has none.
   */
  lemma UserInfoMembers(body: Json.Value)
    ensures Json.Member(UserInfo(body), "id") == Json.Member(body, "id")
    ensures Json.Member(UserInfo(body), "display_name") == Json.Member(body, "display_name")
    ensures Json.Member(UserInfo(body), "email") == Json.Member(body, "email")
    ensures Json.Member(UserInfo(body), "country") == Json.Member(body, "country")
    ensures Json.Member(UserInfo(body), "image") == ImageUrl(body)
    ensures Json.Member(UserInfo(body), "product") == Json.Member(body, "product")
    ensures Json.Member(UserInfo(body), "followers") == Some(FollowerCount(body))
    ensures Json.Member(body, "followers").None? ==> Json.Member(UserInfo(body), "followers") == Some(Json.Num(0))
  {
    var props := UserInfoProps(body);
    UserInfoKeysDistinct(body);
    Json.MemberOfFieldsAt(props, 0);
    Json.MemberOfFieldsAt(props, 1);
    Json.MemberOfFieldsAt(props, 2);
    Json.MemberOfFieldsAt(props, 3);
    Json.MemberOfFieldsAt(props, 4);
    Json.MemberOfFieldsAt(props, 5);
    Json.MemberOfFieldsAt(props, 6);
  }
}
