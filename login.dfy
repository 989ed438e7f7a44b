/**
 * `GET /api/auth/login`: the first leg of the OAuth 2.0 authorization-code
 * flow (section 4.1.1 of RFC 6749).  The handler checks its configuration,
 * builds the state (a JSON object with a random nonce and the page to land on
 * after login) and redirects the browser to Spotify's authorization endpoint.
 * The random number is an input: the base-36 digits of its fraction.
 */
module Login {
  import opened Options
  import Text
  import Json
  import UriComponent
  import opened Http

  /** `process.env.SPOTIFY_CLIENT_ID` and `process.env.NEXT_PUBLIC_APP_URL`. */
  datatype Config = Config(clientId: Option<string>, appUrl: Option<string>)

  const AuthorizeEndpoint := "https://accounts.spotify.com/authorize"
  const CallbackPath := "/api/auth/callback"
  const Scope := "user-read-private user-read-email user-top-read user-read-recently-played"
  const LandingPath := "/dashboard"

  const MissingConfiguration := JsonReply(500, Json.Obj([
    ("error", Json.Str("Missing configuration")),
    ("details", Json.Str("Required environment variables are not set"))]))

  predicate IsBase36Digit(c: char) {
    '0' <= c <= '9' || 'a' <= c <= 'z'
  }

  predicate IsBase36(s: string) {
    forall i :: 0 <= i < |s| ==> IsBase36Digit(s[i])
  }

  /** `Math.random().toString(36)` for a number whose fraction has the given base-36 digits. */
  function RandomText(fraction: string): string {
    if fraction == "" then "0" else "0." + fraction
  }

  /** `Math.random().toString(36).substring(2, 15)`. */
  function Nonce(fraction: string): string {
    Text.Substring(RandomText(fraction), 2, 15)
  }

  /** The nonce is the first (at most) thirteen digits of the fraction, so it is made of base-36 digits only. */
  lemma NonceIsDigitPrefix(fraction: string)
    requires IsBase36(fraction)
    ensures Nonce(fraction) == fraction[..if |fraction| < 13 then |fraction| else 13]
    ensures |Nonce(fraction)| <= 13 && IsBase36(Nonce(fraction))
  {
    if fraction != "" {
      var t := RandomText(fraction);
      var n := if |fraction| < 13 then |fraction| else 13;
      assert Nonce(fraction) == t[2..2 + n];
      assert t[2..2 + n] == fraction[..n];
    }
  }

  /** The redirect URI registered for the callback. */
  function RedirectUri(appUrl: string): string {
    appUrl + CallbackPath
  }

  function StateObject(nonce: string): Json.Value {
    Json.Obj([("random", Json.Str(nonce)), ("redirectTo", Json.Str(LandingPath))])
  }

  /** The `state` parameter: `JSON.stringify({random, redirectTo})`. */
  function StateText(nonce: string): string {
    Json.Stringify(StateObject(nonce))
  }

  /** The state has no `%` (a base-36 nonce has none), so a `decodeURIComponent` of it is the identity. */
  lemma StateDecodesToItself(nonce: string)
    requires IsBase36(nonce)
    ensures UriComponent.Decode(StateText(nonce)) == Some(StateText(nonce))
  {
    Json.TwoStringMembersLackPercent("random", nonce, "redirectTo", LandingPath);
    UriComponent.DecodeWithoutPercent(StateText(nonce));
  }

  /** The names of the authorization request's parameters, in the order they are written. */
  const ParameterNames := ["client_id", "response_type", "redirect_uri", "scope", "state"]

  /**
   * The query of the authorization URL: `client_id`, `response_type=code`,
   * `redirect_uri`, `scope` and `state`, each value passed through
   * `encodeURIComponent` (which leaves `code` as it is), joined with `&`.
   */
  function AuthorizeQuery(clientId: string, redirectUri: string, scope: string, state: string): string {
    Text.Join(UriComponent.Pairs(ParameterNames, [clientId, "code", redirectUri, scope, state]), "&")
  }

  /**
   * The query consists of exactly the five parameters of section 4.1.1 of
   * RFC 6749, in order, and reading each one back (splitting at `&`, then at
   * the first `=`, then `decodeURIComponent`) gives the original value.
   */
  lemma AuthorizeQueryReadsBack(clientId: string, redirectUri: string, scope: string, state: string, k: nat)
    requires k < 5
    ensures Text.Split(AuthorizeQuery(clientId, redirectUri, scope, state), "&")
         == UriComponent.Pairs(ParameterNames, [clientId, "code", redirectUri, scope, state])
    ensures UriComponent.QueryParam(AuthorizeQuery(clientId, redirectUri, scope, state), ParameterNames[k])
         == Some([clientId, "code", redirectUri, scope, state][k])
  {
    UriComponent.QueryReadsBack(ParameterNames, [clientId, "code", redirectUri, scope, state], k);
  }

  /**
   * The handler: the configuration error, or a redirect to the authorization
   * endpoint carrying the client id, the redirect URI, the fixed scope and the
   * state.
   */
  function HandleLogin(config: Config, fraction: string): Reply {
    if !Text.Truthy(config.clientId) || !Text.Truthy(config.appUrl) then MissingConfiguration
    else
      var state := StateText(Nonce(fraction));
      Redirect(AuthorizeEndpoint + "?" + AuthorizeQuery(config.clientId.value, RedirectUri(config.appUrl.value), Scope, state), None)
  }

  /**
   * Login redirects exactly when both settings are non-empty; otherwise it
   * answers the configuration error.  The redirect goes to the authorization
   * endpoint, and its query reads back as the client id, `code`, the redirect
   * URI `appUrl + "/api/auth/callback"`, the scope and a state that decodes to
   * itself and names `/dashboard`.
   */
  lemma LoginRedirect(config: Config, fraction: string)
    requires IsBase36(fraction)
    ensures HandleLogin(config, fraction).Redirect?
        <==> Text.Truthy(config.clientId) && Text.Truthy(config.appUrl)
    ensures !HandleLogin(config, fraction).Redirect? ==> HandleLogin(config, fraction) == MissingConfiguration
    ensures HandleLogin(config, fraction).Redirect? ==>
      var nonce := Nonce(fraction);
      var query := AuthorizeQuery(config.clientId.value, RedirectUri(config.appUrl.value), Scope, StateText(nonce));
      && HandleLogin(config, fraction) == Redirect(AuthorizeEndpoint + "?" + query, None)
      && UriComponent.QueryParam(query, "client_id") == config.clientId
      && UriComponent.QueryParam(query, "response_type") == Some("code")
      && UriComponent.QueryParam(query, "redirect_uri") == Some(config.appUrl.value + "/api/auth/callback")
      && UriComponent.QueryParam(query, "scope") == Some(Scope)
      && UriComponent.QueryParam(query, "state") == Some(StateText(nonce))
      && UriComponent.Decode(StateText(nonce)) == Some(StateText(nonce))
      && |nonce| <= 13 && IsBase36(nonce)
  {
    if Text.Truthy(config.clientId) && Text.Truthy(config.appUrl) {
      var nonce := Nonce(fraction);
      var (c, r, s) := (config.clientId.value, RedirectUri(config.appUrl.value), StateText(nonce));
      NonceIsDigitPrefix(fraction);
      StateDecodesToItself(nonce);
      AuthorizeQueryReadsBack(c, r, Scope, s, 0);
      AuthorizeQueryReadsBack(c, r, Scope, s, 1);
      AuthorizeQueryReadsBack(c, r, Scope, s, 2);
      AuthorizeQueryReadsBack(c, r, Scope, s, 3);
      AuthorizeQueryReadsBack(c, r, Scope, s, 4);
    }
  }
}
