/**
 * `POST /api/auth/logout`: answers a confirmation and deletes the three
 * authentication cookies.  Every other cookie (the session cookie of the
 * server actions among them) is left alone.
 */
module Logout {
  import Json
  import opened Http

  const LoggedOut := JsonReply(200, Json.Obj([("message", Json.Str("Logged out successfully"))]))

  /** The directives the handler leaves on its response. */
  const LogoutCookies: map<string, SetCookie> :=
    map[AccessTokenCookie := Expire, RefreshTokenCookie := Expire, UserInfoCookie := Expire]

  /** The handler: the confirmation, then one deletion per authentication cookie. */
  method HandleLogout() returns (response: Response)
    ensures fresh(response)
    ensures response.AsAnswer() == Answer(LoggedOut, LogoutCookies)
  {
    response := new Response(LoggedOut);
    response.Delete(AccessTokenCookie);
    response.Delete(RefreshTokenCookie);
    response.Delete(UserInfoCookie);
  }

  predicate IsAuthCookie(name: string) {
    name == AccessTokenCookie || name == RefreshTokenCookie || name == UserInfoCookie
  }

  /**
   * After logout the jar holds none of the three authentication cookies, and
   * every other cookie is present exactly when it was before, with the same
   * value and lifetime.
   */
  lemma LogoutClearsOnlyAuthCookies(jar: Jar)
    ensures var after := Apply(jar, LogoutCookies);
      && AccessTokenCookie !in after && RefreshTokenCookie !in after && UserInfoCookie !in after
      && (forall name :: !IsAuthCookie(name) ==> (name in after <==> name in jar))
      && (forall name :: !IsAuthCookie(name) && name in jar ==> after[name] == jar[name])
  {
  }

  /** The session cookie of the server actions survives logout. */
  lemma LogoutKeepsSession(jar: Jar)
    ensures SessionCookie in Apply(jar, LogoutCookies) <==> SessionCookie in jar
    ensures SessionCookie in jar ==> Apply(jar, LogoutCookies)[SessionCookie] == jar[SessionCookie]
  {
    LogoutClearsOnlyAuthCookies(jar);
  }

  /** Logging out twice leaves the jar as logging out once; a jar without authentication cookies is left as it is. */
  lemma LogoutIdempotent(jar: Jar)
    ensures Apply(Apply(jar, LogoutCookies), LogoutCookies) == Apply(jar, LogoutCookies)
    ensures (forall name :: name in jar ==> !IsAuthCookie(name)) ==> Apply(jar, LogoutCookies) == jar
  {
    var once := Apply(jar, LogoutCookies);
    LogoutClearsOnlyAuthCookies(jar);
    LogoutClearsOnlyAuthCookies(once);
    assert Apply(once, LogoutCookies).Keys == once.Keys;
    if forall name :: name in jar ==> !IsAuthCookie(name) {
      assert once.Keys == jar.Keys;
    }
  }
}
