/**
 * `GET /api/user`: who is signed in.  Without an access-token cookie the
 * answer is 401.  With a `user_info` cookie the profile summary stored there
 * is answered, normalised, without asking Spotify.  Otherwise the profile is
 * fetched with the access token, answered, and cached in `user_info` for a
 * day.  Anything thrown inside the `try` becomes a 500.  `JSON.parse` and the
 * profile endpoint are parameters.
 */
module UserRoute {
  import opened Options
  import Json
  import opened Http
  import opened Provider

  const NotAuthenticated := JsonReply(401, Json.Obj([("error", Json.Str("Not authenticated"))]))
  const FetchFailed := JsonReply(401, Json.Obj([("error", Json.Str("Failed to fetch user"))]))
  const ServerError := JsonReply(500, Json.Obj([("error", Json.Str("Internal server error"))]))

  /** The size the cached image is announced with. */
  const CachedImageSize := 300

  /** `user.image ? [{url: user.image, height: 300, width: 300}] : []`. */
  function CachedImages(user: Json.Value): Json.Value {
    match Json.Member(user, "image")
    case Some(image) =>
      if Json.Truthy(image) then
        Json.Arr([Json.Obj([("url", image), ("height", Json.Num(CachedImageSize)), ("width", Json.Num(CachedImageSize))])])
      else Json.Arr([])
    case None => Json.Arr([])
  }

  /** The user answered from the `user_info` cookie, with its defaults for a falsy country, follower count and product. */
  function CachedUserProps(user: Json.Value): seq<(string, Option<Json.Value>)> {
    [ ("id", Json.Member(user, "id")),
      ("name", Json.Member(user, "display_name")),
      ("email", Json.Member(user, "email")),
      ("country", Some(Json.Or(Json.Member(user, "country"), Json.Str("Unknown")))),
      ("followers", Some(Json.Or(Json.Member(user, "followers"), Json.Num(0)))),
      ("images", Some(CachedImages(user))),
      ("product", Some(Json.Or(Json.Member(user, "product"), Json.Str("free")))) ]
  }

  /** The user answered from a fetched profile; `total` is `userData.followers.total`. */
  function FetchedUserProps(body: Json.Value, total: Option<Json.Value>): seq<(string, Option<Json.Value>)> {
    [ ("id", Json.Member(body, "id")),
      ("name", Json.Member(body, "display_name")),
      ("email", Json.Member(body, "email")),
      ("country", Json.Member(body, "country")),
      ("followers", total),
      ("images", Some(Json.Or(Json.Member(body, "images"), Json.Arr([])))),
      ("product", Json.Member(body, "product")) ]
  }

  /** The summary cached in `user_info` after a fetch. */
  function FetchedUserInfoProps(body: Json.Value, total: Option<Json.Value>): seq<(string, Option<Json.Value>)> {
    [ ("id", Json.Member(body, "id")),
      ("display_name", Json.Member(body, "display_name")),
      ("email", Json.Member(body, "email")),
      ("country", Json.Member(body, "country")),
      ("followers", total),
      ("image", ImageUrl(body)),
      ("product", Json.Member(body, "product")) ]
  }

  lemma CachedKeysDistinct(user: Json.Value)
    ensures Json.DistinctKeys(CachedUserProps(user))
  {
    var props, names := CachedUserProps(user), ["id", "name", "email", "country", "followers", "images", "product"];
    assert "country" != "product" by { assert "country"[0] != "product"[0]; }
    assert forall i, j :: 0 <= i < j < |names| ==> names[i] != names[j];
    assert forall i :: 0 <= i < |props| ==> props[i].0 == names[i];
  }

  lemma FetchedKeysDistinct(body: Json.Value, total: Option<Json.Value>)
    ensures Json.DistinctKeys(FetchedUserProps(body, total))
  {
    assert "country" != "product" by { assert "country"[0] != "product"[0]; }
  }

  lemma InfoKeysDistinct(body: Json.Value, total: Option<Json.Value>)
    ensures Json.DistinctKeys(FetchedUserInfoProps(body, total))
  {
    assert "country" != "product" by { assert "country"[0] != "product"[0]; }
    assert "email" != "image" by { assert "email"[0] != "image"[0]; }
  }

  function UserReply(props: seq<(string, Option<Json.Value>)>): Reply {
    JsonReply(200, Json.Obj([("user", Json.Obj(Json.Fields(props)))]))
  }

  /** The `user` member of a 200 answer. */
  function UserOf(r: Reply): Option<Json.Value> {
    if r.JsonReply? && r.status == 200 then Json.Member(r.body, "user") else None
  }

  /**
   * The handler's answer.  Reading a property of a `null` parsed cookie or
   * profile throws, and so does reading `total` of a missing or `null`
   * `followers`; a failed fetch or an unreadable body rejects.  All of them
   * end in the 500 of the `catch`.
   */
  function GetUser(jar: Jar, parse: string -> Option<Json.Value>, me: string -> ProfileReply): Answer {
    if AccessTokenCookie !in jar then Answer(NotAuthenticated, map[])
    else if UserInfoCookie in jar then
      match parse(jar[UserInfoCookie].value)
      case None => Answer(ServerError, map[])
      case Some(user) =>
        if user.Null? then Answer(ServerError, map[])
        else Answer(UserReply(CachedUserProps(user)), map[])
    else
      match me(jar[AccessTokenCookie].value)
      case ProfileUnavailable => Answer(ServerError, map[])
      case ProfileRefused => Answer(FetchFailed, map[])
      case ProfileFound(body) =>
        var followers := Json.Member(body, "followers");
        if body.Null? || followers.None? || followers.value.Null? then Answer(ServerError, map[])
        else
          var total := Json.Member(followers.value, "total");
          Answer(UserReply(FetchedUserProps(body, total)),
                 map[UserInfoCookie := Store(Json.Stringify(Json.Obj(Json.Fields(FetchedUserInfoProps(body, total)))), UserInfoMaxAge)])
  }

  /** The handler: the early answers, or the fetched user with the `user_info` cookie set on the response. */
  method HandleUser(jar: Jar, parse: string -> Option<Json.Value>, me: string -> ProfileReply)
    returns (response: Response)
    ensures fresh(response)
    ensures response.AsAnswer() == GetUser(jar, parse, me)
  {
    if AccessTokenCookie !in jar {
      response := new Response(NotAuthenticated);
      return;
    }
    if UserInfoCookie in jar {
      var user := parse(jar[UserInfoCookie].value);
      if user.None? || user.value.Null? {
        response := new Response(ServerError);
      } else {
        response := new Response(UserReply(CachedUserProps(user.value)));
      }
      return;
    }
    var reply := me(jar[AccessTokenCookie].value);
    if reply.ProfileUnavailable? {
      response := new Response(ServerError);
      return;
    }
    if reply.ProfileRefused? {
      response := new Response(FetchFailed);
      return;
    }
    var body := reply.body;
    var followers := Json.Member(body, "followers");
    if body.Null? || followers.None? || followers.value.Null? {
      response := new Response(ServerError);
      return;
    }
    var total := Json.Member(followers.value, "total");
    response := new Response(UserReply(FetchedUserProps(body, total)));
    response.Set(UserInfoCookie, Json.Stringify(Json.Obj(Json.Fields(FetchedUserInfoProps(body, total)))), UserInfoMaxAge);
  }

  // ---------------------------------------------------------------------------
  // Properties

  /**
   * Every answer is JSON with status 200, 401 or 500.  It is 401 exactly when
   * there is no access-token cookie or Spotify refuses it, and only a
   * successful fetch sets a cookie, namely `user_info`.
   */
  lemma AnswerShape(jar: Jar, parse: string -> Option<Json.Value>, me: string -> ProfileReply)
    ensures var a := GetUser(jar, parse, me);
      && a.reply.JsonReply? && a.reply.status in {200, 401, 500}
      && (a.reply.status == 401 <==>
            AccessTokenCookie !in jar
            || (UserInfoCookie !in jar && me(jar[AccessTokenCookie].value) == ProfileRefused))
      && (a.cookies != map[] <==>
            AccessTokenCookie in jar && UserInfoCookie !in jar && a.reply.status == 200)
      && a.cookies.Keys <= {UserInfoCookie}
  {
    var a := GetUser(jar, parse, me);
    if AccessTokenCookie in jar && UserInfoCookie !in jar && a.reply.status == 200 {
      assert UserInfoCookie in a.cookies;
    }
  }

  /**
   * A cached `user_info` that `JSON.parse` rejects, or that parses to `null`,
   * ends in the `catch`: the 500 `Internal server error`, with no cookie.
   */
  lemma UnreadableCacheFails(jar: Jar, parse: string -> Option<Json.Value>, me: string -> ProfileReply)
    requires AccessTokenCookie in jar && UserInfoCookie in jar
    ensures var user := parse(jar[UserInfoCookie].value);
      GetUser(jar, parse, me) == Answer(ServerError, map[]) <==> user.None? || user == Some(Json.Null)
  {
    var user := parse(jar[UserInfoCookie].value);
    if user.Some? && !user.value.Null? {
      assert GetUser(jar, parse, me).reply.status == 200;
    }
  }

  /**
   * Without the cache, a profile request Spotify refuses answers 401
   * `Failed to fetch user` and sets no cookie; an unavailable profile answers
   * the 500 of the `catch`.
   */
  lemma RefusedProfileFails(jar: Jar, parse: string -> Option<Json.Value>, me: string -> ProfileReply)
    requires AccessTokenCookie in jar && UserInfoCookie !in jar
    ensures me(jar[AccessTokenCookie].value) == ProfileRefused <==> GetUser(jar, parse, me) == Answer(FetchFailed, map[])
    ensures me(jar[AccessTokenCookie].value) == ProfileUnavailable ==> GetUser(jar, parse, me) == Answer(ServerError, map[])
  {
    var a := GetUser(jar, parse, me);
    if me(jar[AccessTokenCookie].value) != ProfileRefused {
      assert a.reply != FetchFailed by {
        assert a.reply.status != 401;
      }
    }
  }

  /** With a `user_info` cookie the profile endpoint is not consulted: any two endpoints give the same answer. */
  lemma CachedIgnoresProvider(jar: Jar, parse: string -> Option<Json.Value>, me1: string -> ProfileReply, me2: string -> ProfileReply)
    requires UserInfoCookie in jar
    ensures GetUser(jar, parse, me1) == GetUser(jar, parse, me2)
    ensures GetUser(jar, parse, me1).cookies == map[]
  {
  }

  /** The cached user carries the cookie's id, display name (as `name`) and email. */
  lemma CachedUserIdentity(user: Json.Value)
    ensures var u := Json.Obj(Json.Fields(CachedUserProps(user)));
      && Json.Member(u, "id") == Json.Member(user, "id")
      && Json.Member(u, "name") == Json.Member(user, "display_name")
      && Json.Member(u, "email") == Json.Member(user, "email")
  {
    var props := CachedUserProps(user);
    CachedKeysDistinct(user);
    Json.MemberOfFieldsFirstThree(props);
    assert props[0].0 == "id" && props[1].0 == "name" && props[2].0 == "email";
  }

  /**
   * The cached user's country, follower count and product default to
   * `Unknown`, 0 and `free` when the cookie's are falsy, and its image list
   * has one element exactly when the cookie holds a truthy image.
   */
  lemma CachedUserDefaults(user: Json.Value)
    ensures var u := Json.Obj(Json.Fields(CachedUserProps(user)));
      && Json.Member(u, "country") == Some(Json.Or(Json.Member(user, "country"), Json.Str("Unknown")))
      && Json.Member(u, "followers") == Some(Json.Or(Json.Member(user, "followers"), Json.Num(0)))
      && Json.Member(u, "images") == Some(CachedImages(user))
      && Json.Member(u, "product") == Some(Json.Or(Json.Member(user, "product"), Json.Str("free")))
    ensures |CachedImages(user).items| == 1
        <==> Json.Member(user, "image").Some? && Json.Truthy(Json.Member(user, "image").value)
  {
    var props := CachedUserProps(user);
    CachedKeysDistinct(user);
    Json.MemberOfFieldsAt(props, 3);
    Json.MemberOfFieldsAt(props, 4);
    Json.MemberOfFieldsAt(props, 5);
    Json.MemberOfFieldsAt(props, 6);
  }

  /** The fetched user answered and the summary cached in `user_info` both carry the profile's id, display name and email. */
  lemma FetchedIdentity(body: Json.Value, total: Option<Json.Value>)
    ensures var u, c := Json.Obj(Json.Fields(FetchedUserProps(body, total))), Json.Obj(Json.Fields(FetchedUserInfoProps(body, total)));
      && Json.Member(u, "id") == Json.Member(c, "id") == Json.Member(body, "id")
      && Json.Member(u, "name") == Json.Member(c, "display_name") == Json.Member(body, "display_name")
      && Json.Member(u, "email") == Json.Member(c, "email") == Json.Member(body, "email")
  {
    FetchedUserIdentity(body, total);
    FetchedInfoIdentity(body, total);
  }

  lemma FetchedUserIdentity(body: Json.Value, total: Option<Json.Value>)
    ensures var u := Json.Obj(Json.Fields(FetchedUserProps(body, total)));
      && Json.Member(u, "id") == Json.Member(body, "id")
      && Json.Member(u, "name") == Json.Member(body, "display_name")
      && Json.Member(u, "email") == Json.Member(body, "email")
  {
    var up := FetchedUserProps(body, total);
    FetchedKeysDistinct(body, total);
    Json.MemberOfFieldsFirstThree(up);
    assert up[0].0 == "id" && up[1].0 == "name" && up[2].0 == "email";
  }

  lemma FetchedInfoIdentity(body: Json.Value, total: Option<Json.Value>)
    ensures var c := Json.Obj(Json.Fields(FetchedUserInfoProps(body, total)));
      && Json.Member(c, "id") == Json.Member(body, "id")
      && Json.Member(c, "display_name") == Json.Member(body, "display_name")
      && Json.Member(c, "email") == Json.Member(body, "email")
  {
    var cp := FetchedUserInfoProps(body, total);
    InfoKeysDistinct(body, total);
    Json.MemberOfFieldsFirstThree(cp);
    assert cp[0].0 == "id" && cp[1].0 == "display_name" && cp[2].0 == "email";
  }

  /**
   * The fetched user answered and the summary cached in `user_info` also
   * agree on the country, the follower count and the product; the summary
   * keeps the first image's URL.
   */
  lemma FetchedAgreesWithCookie(body: Json.Value, total: Option<Json.Value>)
    ensures var u, c := Json.Obj(Json.Fields(FetchedUserProps(body, total))), Json.Obj(Json.Fields(FetchedUserInfoProps(body, total)));
      && Json.Member(u, "country") == Json.Member(c, "country") == Json.Member(body, "country")
      && Json.Member(u, "followers") == Json.Member(c, "followers") == total
      && Json.Member(u, "product") == Json.Member(c, "product") == Json.Member(body, "product")
      && Json.Member(u, "images") == Some(Json.Or(Json.Member(body, "images"), Json.Arr([])))
      && Json.Member(c, "image") == ImageUrl(body)
  {
    var up, cp := FetchedUserProps(body, total), FetchedUserInfoProps(body, total);
    FetchedKeysDistinct(body, total);
    InfoKeysDistinct(body, total);
    Json.MemberOfFieldsAt(up, 3);
    Json.MemberOfFieldsAt(cp, 3);
    Json.MemberOfFieldsAt(up, 4);
    Json.MemberOfFieldsAt(cp, 4);
    Json.MemberOfFieldsAt(up, 5);
    Json.MemberOfFieldsAt(cp, 5);
    Json.MemberOfFieldsAt(up, 6);
    Json.MemberOfFieldsAt(cp, 6);
  }

  /**
   * A fetch followed by a second request: once the browser has stored the
   * `user_info` cookie, and `JSON.parse` reads back the object it was
   * stringified from, the second answer comes from the cache, sets no cookie
   * and names the same user id, name and email as the first, whatever the
   * profile endpoint would now say.
   */
  lemma SecondRequestFromCache(jar: Jar, parse: string -> Option<Json.Value>, body: Json.Value,
                               me1: string -> ProfileReply, me2: string -> ProfileReply)
    requires AccessTokenCookie in jar && UserInfoCookie !in jar
    requires me1(jar[AccessTokenCookie].value) == ProfileFound(body)
    requires !body.Null? && Json.Member(body, "followers").Some? && !Json.Member(body, "followers").value.Null?
    requires var c := Json.Obj(Json.Fields(FetchedUserInfoProps(body, Json.Member(Json.Member(body, "followers").value, "total"))));
      parse(Json.Stringify(c)) == Some(c)
    ensures var a := GetUser(jar, parse, me1);
      var b := GetUser(Apply(jar, a.cookies), parse, me2);
      && UserOf(a.reply).Some? && UserOf(b.reply).Some?
      && a.cookies.Keys == {UserInfoCookie} && b.cookies == map[]
      && Json.Member(UserOf(b.reply).value, "id") == Json.Member(UserOf(a.reply).value, "id")
      && Json.Member(UserOf(b.reply).value, "name") == Json.Member(UserOf(a.reply).value, "name")
      && Json.Member(UserOf(b.reply).value, "email") == Json.Member(UserOf(a.reply).value, "email")
  {
    var total := Json.Member(Json.Member(body, "followers").value, "total");
    var c := Json.Obj(Json.Fields(FetchedUserInfoProps(body, total)));
    FetchedAnswer(jar, parse, me1, body);
    var a := GetUser(jar, parse, me1);
    var next := Apply(jar, a.cookies);
    assert AccessTokenCookie in next && next[UserInfoCookie].value == Json.Stringify(c);
    CachedAnswer(next, parse, me2, c);
    FetchedIdentity(body, total);
    CachedUserIdentity(c);
  }

  /** A jar with the access token alone, for which the profile endpoint answers a profile with followers, is answered from the fetch. */
  lemma FetchedAnswer(jar: Jar, parse: string -> Option<Json.Value>, me: string -> ProfileReply, body: Json.Value)
    requires AccessTokenCookie in jar && UserInfoCookie !in jar
    requires me(jar[AccessTokenCookie].value) == ProfileFound(body)
    requires !body.Null? && Json.Member(body, "followers").Some? && !Json.Member(body, "followers").value.Null?
    ensures var total := Json.Member(Json.Member(body, "followers").value, "total");
      var c := Json.Obj(Json.Fields(FetchedUserInfoProps(body, total)));
      && GetUser(jar, parse, me) == Answer(UserReply(FetchedUserProps(body, total)), map[UserInfoCookie := Store(Json.Stringify(c), UserInfoMaxAge)])
      && UserOf(GetUser(jar, parse, me).reply) == Some(Json.Obj(Json.Fields(FetchedUserProps(body, total))))
  {
  }

  /** A jar holding both cookies, whose `user_info` parses to an object, is answered from that object. */
  lemma CachedAnswer(jar: Jar, parse: string -> Option<Json.Value>, me: string -> ProfileReply, user: Json.Value)
    requires AccessTokenCookie in jar && UserInfoCookie in jar
    requires parse(jar[UserInfoCookie].value) == Some(user) && user.Obj?
    ensures GetUser(jar, parse, me) == Answer(UserReply(CachedUserProps(user)), map[])
    ensures UserOf(GetUser(jar, parse, me).reply) == Some(Json.Obj(Json.Fields(CachedUserProps(user))))
  {
  }
}
