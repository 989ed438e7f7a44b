/**
 * What the route handlers answer and the cookies they leave in the browser.
 * A response carries a reply (a JSON body with a status, a redirect, or an
 * exception that escaped the handler) and the Set-Cookie directives that
 * `response.cookies.set`/`delete` accumulate on it; the browser's cookie jar
 * is a map from cookie name to cookie.
 */
module Http {
  import opened Options
  import Json

  /** The three cookies the authentication handlers share. */
  const AccessTokenCookie := "spotify_access_token"
  const RefreshTokenCookie := "spotify_refresh_token"
  const UserInfoCookie := "user_info"
  /** The lifetime of the `user_info` cookie in seconds: one day. */
  const UserInfoMaxAge := 24 * 60 * 60
  /** The encrypted session cookie the server actions read and write. */
  const SessionCookie := "moodsync-session"

  datatype Reply =
    | JsonReply(status: int, body: Json.Value)
      /** `NextResponse.redirect(new URL(target, base))`, or of `target` alone when `base` is None. */
    | Redirect(target: string, base: Option<string>)
      /** An exception escaped the handler; the framework answers 500. */
    | Crash

  predicate IsAsciiAlpha(c: char) {
    'a' <= c <= 'z' || 'A' <= c <= 'Z'
  }

  predicate IsSchemeChar(c: char) {
    IsAsciiAlpha(c) || '0' <= c <= '9' || c == '+' || c == '-' || c == '.'
  }

  /** The rest of a scheme: scheme characters up to a `:`. */
  predicate SchemeRest(s: string) {
    s != [] && (s[0] == ':' || (IsSchemeChar(s[0]) && SchemeRest(s[1..])))
  }

  /** The string starts with a URL scheme followed by `:` (the scheme state of the WHATWG URL parser). */
  predicate HasScheme(s: string) {
    s != [] && IsAsciiAlpha(s[0]) && SchemeRest(s[1..])
  }

  /**
   * The verdict of the WHATWG URL parser on `new URL(target, base)`: whether
   * it returns a URL rather than throwing.  The parser itself is not part of
   * this model; `KnownFailures` states what is certain about it.
   */
  type UrlParser = (string, Option<string>) -> bool

  /**
   * A given base is parsed first, and an empty string is not a URL, so an
   * empty base fails whatever the target; without a base (`undefined`) a
   * target that does not start with a scheme cannot be resolved.
   */
  ghost predicate KnownFailures(url: UrlParser) {
    && (forall target :: !url(target, Some("")))
    && (forall target :: !HasScheme(target) ==> !url(target, None))
  }

  /** A redirect to a path of the application, or the exception `new URL` throws when it cannot be resolved. */
  function RedirectOrCrash(url: UrlParser, target: string, base: Option<string>): (r: Reply)
    ensures r.Redirect? <==> url(target, base)
    ensures r.Redirect? ==> r.target == target && r.base == base
    ensures !r.Redirect? ==> r == Crash
    ensures KnownFailures(url) && base == Some("") ==> r == Crash
    ensures KnownFailures(url) && base.None? && !HasScheme(target) ==> r == Crash
  {
    if url(target, base) then Redirect(target, base) else Crash
  }

  /** One Set-Cookie directive: store a value for `maxAge` seconds, or expire the cookie (`cookies.delete`). */
  datatype SetCookie = Store(value: string, maxAge: int) | Expire

  datatype Cookie = Cookie(value: string, maxAge: int)

  type Jar = map<string, Cookie>

  /** A handler's answer as a value: the reply and the directives by cookie name. */
  datatype Answer = Answer(reply: Reply, cookies: map<string, SetCookie>)

  /** A response under construction: its reply is fixed, its cookies are set one after the other. */
  class Response {
    const reply: Reply
    var cookies: map<string, SetCookie>

    constructor (reply: Reply)
      ensures this.reply == reply && cookies == map[]
    {
      this.reply := reply;
      cookies := map[];
    }

    /** `response.cookies.set(name, value, {maxAge})`: a later directive for the same name replaces an earlier one. */
    method Set(name: string, value: string, maxAge: int)
      modifies this
      ensures cookies == old(cookies)[name := Store(value, maxAge)]
    {
      cookies := cookies[name := Store(value, maxAge)];
    }

    /** `response.cookies.delete(name)`. */
    method Delete(name: string)
      modifies this
      ensures cookies == old(cookies)[name := Expire]
    {
      cookies := cookies[name := Expire];
    }

    function AsAnswer(): Answer
      reads this
    {
      Answer(reply, cookies)
    }
  }

  /** A directive that leaves a cookie in the jar: a Max-Age of zero or less expires it at once (RFC 6265 section 5.2.2). */
  predicate Persists(d: SetCookie) {
    d.Store? && d.maxAge > 0
  }

  /**
   * The jar after the browser has processed a response's Set-Cookie headers
   * (RFC 6265 section 5.3): a directive that persists replaces the cookie of
   * its name, any other directive removes it, and cookies no directive names
   * stay as they were.
   */
  function Apply(jar: Jar, cookies: map<string, SetCookie>): (r: Jar)
    ensures forall name :: name in cookies && !Persists(cookies[name]) ==> name !in r
    ensures forall name :: name in cookies && Persists(cookies[name]) ==>
      name in r && r[name] == Cookie(cookies[name].value, cookies[name].maxAge)
    ensures forall name :: name !in cookies ==> (name in r <==> name in jar)
    ensures forall name :: name !in cookies && name in jar ==> r[name] == jar[name]
  {
    map name | name in jar.Keys + cookies.Keys && (name in cookies ==> Persists(cookies[name])) ::
      if name in cookies then Cookie(cookies[name].value, cookies[name].maxAge) else jar[name]
  }
}
