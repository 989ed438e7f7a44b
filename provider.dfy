/**
 * The two Spotify Accounts and Web API endpoints the callback and the user
 * route call, as the handlers see their answers.  The network is not part of
 * the model: each endpoint is a function parameter of the handler.
 */
module Provider {
  import opened Options
  import Json

  /**
   * The form posted to the token endpoint (section 4.1.3 of RFC 6749), with
   * the client credentials `id:secret` of the HTTP Basic header (section
   * 2.3.1) before base64 encoding.
   */
  datatype TokenRequest = TokenRequest(credentials: string, grantType: string, code: string, redirectUri: string)

  /** The tokens of a successful access token response (section 5.1 of RFC 6749). */
  datatype Grant = Grant(accessToken: string, refreshToken: Option<string>, expiresIn: Option<int>)

  /** The token endpoint's answer: not ok (or unreadable), or the issued tokens. */
  datatype TokenReply = TokenRefused | TokenIssued(grant: Grant)

  /**
   * The answer of `GET /v1/me` to a Bearer token (section 2.1 of RFC 6750):
   * no answer or a body that is not JSON (the `fetch` or `json()` promise
   * rejects), not ok, or ok with the parsed JSON body.
   */
  datatype ProfileReply = ProfileUnavailable | ProfileRefused | ProfileFound(body: Json.Value)

  /** `body.images?.[0]?.url`, for a body that is not `null`. */
  function ImageUrl(body: Json.Value): Option<Json.Value> {
    Json.OptMember(Json.OptFirst(Json.Member(body, "images")), "url")
  }
}
