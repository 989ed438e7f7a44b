/**
 * The `createPlaylistOnSpotify` server action: with the server's Spotify
 * credentials and the access token of the encrypted session, it refreshes an
 * expired token (section 6 of RFC 6749), searches each suggested song, and
 * creates a private playlist holding the tracks found.  A 401 from Spotify
 * destroys the session.
 *
 * The Spotify client is a record of functions, one per endpoint, each taking
 * the access token it is called with; the two readings of the clock and the
 * Korean rendering of today's date are inputs.  The calls made are returned
 * in the order they were made.
 */
module CreatePlaylist {
  import opened Options
  import Text

  /** `SessionData`: the fields of the encrypted `moodsync-session` cookie. */
  datatype SessionData = SessionData(accessToken: Option<string>, refreshToken: Option<string>, expiresAt: Option<int>)

  const EmptySession := SessionData(None, None, None)

  /** `SPOTIFY_CLIENT_ID` and `SPOTIFY_CLIENT_SECRET`. */
  datatype Env = Env(clientId: Option<string>, clientSecret: Option<string>)

  /** A rejected call of the Spotify client, with the HTTP status it carries, if any. */
  datatype ApiError = ApiError(statusCode: Option<int>)

  datatype Result<T> = Ok(value: T) | Failure(error: ApiError)

  /** The body of a refresh-token grant: the new access token and its lifetime in seconds. */
  datatype Refreshed = Refreshed(accessToken: string, expiresIn: int)

  /** The created playlist's id and `external_urls.spotify`. */
  datatype Playlist = Playlist(id: string, url: string)

  datatype Api = Api(
    refresh: Option<string> -> Result<Refreshed>,
    /** The URI of the first track found for a query, with `limit: 1`. */
    search: (string, string) -> Result<Option<string>>,
    create: (string, string, string, bool) -> Result<Playlist>,
    add: (string, string, seq<string>) -> Result<()>)

  datatype Call =
    | RefreshCall(refreshToken: Option<string>)
    | SearchCall(token: string, query: string)
    | CreateCall(token: string, name: string, description: string, isPublic: bool)
    | AddCall(token: string, playlistId: string, uris: seq<string>)

  /** `{playlistUrl}` or `{error}`. */
  datatype ActionResult = PlaylistUrl(url: string) | Error(message: string)

  const MissingApiConfig := "서버에 Spotify API 정보가 설정되지 않았습니다."
  const NotAuthenticated := "인증되지 않았습니다. 다시 로그인해주세요."
  const NoTracksFound := "Spotify에서 추천된 노래를 찾을 수 없습니다."
  const AuthExpired := "인증이 만료되었습니다. 다시 로그인해주세요."
  const CreateFailed := "Spotify에서 플레이리스트 생성에 실패했습니다."
  const Description := "MoodSync AI가 당신의 기분을 위해 생성한 플레이리스트입니다."

  function PlaylistName(date: string): string {
    "MoodSync: " + date
  }

  /** The session as the handler sees it, and what its cookie holds (None: no cookie). */
  datatype SessionState = SessionState(data: SessionData, saved: Option<SessionData>)

  /** The iron-session object: its fields are changed in place, and written to the cookie by `save`. */
  class Session {
    var data: SessionData
    var saved: Option<SessionData>

    constructor (state: SessionState)
      ensures data == state.data && saved == state.saved
    {
      data := state.data;
      saved := state.saved;
    }

    function State(): SessionState
      reads this
    {
      SessionState(data, saved)
    }

    /** `session.save()`. */
    method Save()
      modifies this
      ensures data == old(data) && saved == Some(data)
    {
      saved := Some(data);
    }

    /** `session.destroy()`: the fields are cleared and the cookie removed. */
    method Destroy()
      modifies this
      ensures data == EmptySession && saved == None
    {
      data := EmptySession;
      saved := None;
    }
  }

  /** `session.expiresAt && Date.now() > session.expiresAt`: a missing or zero expiry never triggers a refresh. */
  predicate NeedsRefresh(data: SessionData, now: int) {
    data.expiresAt.Some? && data.expiresAt.value != 0 && now > data.expiresAt.value
  }

  /** The session after a refresh: the new token, expiring `expires_in` seconds after `now` (in milliseconds). */
  function AfterRefresh(data: SessionData, r: Refreshed, now: int): (d: SessionData)
    ensures d.accessToken == Some(r.accessToken) && d.refreshToken == data.refreshToken
    ensures d.expiresAt == Some(now + r.expiresIn * 1000)
  {
    data.(accessToken := Some(r.accessToken), expiresAt := Some(now + r.expiresIn * 1000))
  }

  // ---------------------------------------------------------------------------
  // Resolving the songs

  /** The outcome of the search loop: the URIs found, the error that stopped it, the searches made. */
  datatype Resolution = Resolution(uris: seq<string>, failure: Option<ApiError>, calls: seq<Call>)

  /** The search loop over `songs`, one song after the other; the first rejected search ends it. */
  function Resolve(token: string, songs: seq<string>, search: (string, string) -> Result<Option<string>>): Resolution
    decreases |songs|
  {
    if songs == [] then Resolution([], None, [])
    else
      var r := Resolve(token, songs[..|songs| - 1], search);
      var song := songs[|songs| - 1];
      if r.failure.Some? then r
      else
        var calls := r.calls + [SearchCall(token, song)];
        match search(token, song)
        case Failure(e) => Resolution(r.uris, Some(e), calls)
        case Ok(hit) => Resolution(r.uris + (if hit.Some? then [hit.value] else []), None, calls)
  }

  /** The URIs of the first hits, in the order of the songs: the loop's reference, written front to back. */
  function Hits(token: string, songs: seq<string>, search: (string, string) -> Result<Option<string>>): seq<string>
    decreases |songs|
  {
    if songs == [] then []
    else
      (match search(token, songs[0]) case Ok(Some(uri)) => [uri] case _ => [])
      + Hits(token, songs[1..], search)
  }

  /** The loop of the action. */
  method ResolveTracks(token: string, songs: seq<string>, search: (string, string) -> Result<Option<string>>)
    returns (uris: seq<string>, failure: Option<ApiError>, calls: seq<Call>)
    ensures Resolution(uris, failure, calls) == Resolve(token, songs, search)
  {
    uris, failure, calls := [], None, [];
    var i := 0;
    while i < |songs|
      invariant 0 <= i <= |songs|
      invariant failure.None? ==> Resolution(uris, failure, calls) == Resolve(token, songs[..i], search)
      invariant failure.Some? ==> Resolution(uris, failure, calls) == Resolve(token, songs, search)
    {
      assert songs[..i + 1][..i] == songs[..i];
      var song := songs[i];
      calls := calls + [SearchCall(token, song)];
      var result := search(token, song);
      if result.Failure? {
        failure := Some(result.error);
        ResolveStopsAtFailure(token, songs, search, i + 1);
        return;
      }
      if result.value.Some? {
        uris := uris + [result.value.value];
      }
      i := i + 1;
    }
    assert songs[..i] == songs;
  }

  /** Once a search is rejected, the songs after it change nothing. */
  lemma {:induction false} ResolveStopsAtFailure(token: string, songs: seq<string>,
                                                 search: (string, string) -> Result<Option<string>>, n: nat)
    requires n <= |songs| && Resolve(token, songs[..n], search).failure.Some?
    ensures Resolve(token, songs, search) == Resolve(token, songs[..n], search)
    decreases |songs| - n
  {
    if n < |songs| {
      assert songs[..n + 1][..n] == songs[..n];
      ResolveStopsAtFailure(token, songs, search, n + 1);
    } else {
      assert songs[..n] == songs;
    }
  }

  /** Hits distribute over concatenation. */
  lemma {:induction false} HitsAppend(token: string, a: seq<string>, b: seq<string>,
                                      search: (string, string) -> Result<Option<string>>)
    ensures Hits(token, a + b, search) == Hits(token, a, search) + Hits(token, b, search)
    decreases |a|
  {
    if a == [] {
      assert a + b == b;
    } else {
      assert (a + b)[0] == a[0] && (a + b)[1..] == a[1..] + b;
      HitsAppend(token, a[1..], b, search);
    }
  }

  /**
   * The searches made are those of a prefix of the songs, in order; without
   * a rejected search every song is searched and the URIs are exactly the
   * first hits, in order, so there are at most as many as there are songs.
   * With a rejection the last search made is the rejected one.
   */
  lemma {:induction false} ResolveSpec(token: string, songs: seq<string>, search: (string, string) -> Result<Option<string>>)
    ensures var r := Resolve(token, songs, search);
      && |r.calls| <= |songs|
      && (forall i :: 0 <= i < |r.calls| ==> r.calls[i] == SearchCall(token, songs[i]))
      && (r.failure.None? ==> |r.calls| == |songs| && r.uris == Hits(token, songs, search))
      && (r.failure.Some? ==> |r.calls| > 0 && search(token, songs[|r.calls| - 1]) == Failure(r.failure.value))
      && |r.uris| <= |r.calls|
    decreases |songs|
  {
    if songs != [] {
      var init := songs[..|songs| - 1];
      var song := songs[|songs| - 1];
      ResolveSpec(token, init, search);
      var r := Resolve(token, init, search);
      if r.failure.None? {
        HitsAppend(token, init, [song], search);
        assert init + [song] == songs;
      }
    }
  }

  // ---------------------------------------------------------------------------
  // The action

  /** What the action returns, the session it leaves and the calls it made. */
  datatype Run = Run(result: ActionResult, state: SessionState, calls: seq<Call>)

  /** The `catch`: a 401 destroys the session and asks to log in again; anything else keeps it. */
  function Catch(state: SessionState, e: ApiError, calls: seq<Call>): (run: Run)
    ensures run.calls == calls
    ensures e.statusCode == Some(401) ==> run.result == Error(AuthExpired) && run.state == SessionState(EmptySession, None)
    ensures e.statusCode != Some(401) ==> run.result == Error(CreateFailed) && run.state == state
  {
    if e.statusCode == Some(401) then Run(Error(AuthExpired), SessionState(EmptySession, None), calls)
    else Run(Error(CreateFailed), state, calls)
  }

  /** Everything after the refresh: the search loop, the empty guard, creating the playlist and adding the tracks. */
  function Publish(state: SessionState, token: string, songs: seq<string>, api: Api, date: string, calls: seq<Call>): Run {
    var r := Resolve(token, songs, api.search);
    var searched := calls + r.calls;
    if r.failure.Some? then Catch(state, r.failure.value, searched)
    else if r.uris == [] then Run(Error(NoTracksFound), state, searched)
    else
      var created := searched + [CreateCall(token, PlaylistName(date), Description, false)];
      match api.create(token, PlaylistName(date), Description, false)
      case Failure(e) => Catch(state, e, created)
      case Ok(playlist) =>
        var added := created + [AddCall(token, playlist.id, r.uris)];
        match api.add(token, playlist.id, r.uris)
        case Failure(e) => Catch(state, e, added)
        case Ok(_) => Run(PlaylistUrl(playlist.url), state, added)
  }

  /**
   * The action: the configuration guard, the session guard, the refresh of
   * an expired token (`checkedAt` and `refreshedAt` are the two readings of
   * `Date.now()`), then the rest with the current token.
   */
  function Action(env: Env, start: SessionState, songs: seq<string>, api: Api,
                  checkedAt: int, refreshedAt: int, date: string): Run
  {
    if !Text.Truthy(env.clientId) || !Text.Truthy(env.clientSecret) then Run(Error(MissingApiConfig), start, [])
    else if !Text.Truthy(start.data.accessToken) then Run(Error(NotAuthenticated), start, [])
    else if NeedsRefresh(start.data, checkedAt) then
      var calls := [RefreshCall(start.data.refreshToken)];
      match api.refresh(start.data.refreshToken)
      case Failure(e) => Catch(start, e, calls)
      case Ok(r) =>
        var data := AfterRefresh(start.data, r, refreshedAt);
        Publish(SessionState(data, Some(data)), r.accessToken, songs, api, date, calls)
    else Publish(start, start.data.accessToken.value, songs, api, date, [])
  }

  /** `catch (err)`, on the session object. */
  method HandleError(session: Session, e: ApiError, calls: seq<Call>) returns (result: ActionResult)
    modifies session
    ensures Run(result, session.State(), calls) == Catch(old(session.State()), e, calls)
  {
    if e.statusCode == Some(401) {
      session.Destroy();
      return Error(AuthExpired);
    }
    return Error(CreateFailed);
  }

  /** `createPlaylistOnSpotify(songs)`, on the session object. */
  method CreatePlaylistOnSpotify(env: Env, session: Session, songs: seq<string>, api: Api,
                                 checkedAt: int, refreshedAt: int, date: string)
    returns (result: ActionResult, calls: seq<Call>)
    modifies session
    ensures Run(result, session.State(), calls)
         == Action(env, old(session.State()), songs, api, checkedAt, refreshedAt, date)
  {
    calls := [];
    if !Text.Truthy(env.clientId) || !Text.Truthy(env.clientSecret) {
      return Error(MissingApiConfig), calls;
    }
    if !Text.Truthy(session.data.accessToken) {
      return Error(NotAuthenticated), calls;
    }
    var token := session.data.accessToken.value;
    if NeedsRefresh(session.data, checkedAt) {
      calls := calls + [RefreshCall(session.data.refreshToken)];
      var refreshed := api.refresh(session.data.refreshToken);
      if refreshed.Failure? {
        result := HandleError(session, refreshed.error, calls);
        return;
      }
      session.data := session.data.(accessToken := Some(refreshed.value.accessToken),
                                    expiresAt := Some(refreshedAt + refreshed.value.expiresIn * 1000));
      session.Save();
      token := refreshed.value.accessToken;
    }
    var uris, failure, searches := ResolveTracks(token, songs, api.search);
    calls := calls + searches;
    if failure.Some? {
      result := HandleError(session, failure.value, calls);
      return;
    }
    if |uris| == 0 {
      return Error(NoTracksFound), calls;
    }
    var name := PlaylistName(date);
    calls := calls + [CreateCall(token, name, Description, false)];
    var created := api.create(token, name, Description, false);
    if created.Failure? {
      result := HandleError(session, created.error, calls);
      return;
    }
    var playlist := created.value;
    calls := calls + [AddCall(token, playlist.id, uris)];
    var added := api.add(token, playlist.id, uris);
    if added.Failure? {
      result := HandleError(session, added.error, calls);
      return;
    }
    return PlaylistUrl(playlist.url), calls;
  }

  // ---------------------------------------------------------------------------
  // Properties

  /** A call made with the given access token (every call but the refresh carries one). */
  predicate CarriesToken(c: Call, token: string) {
    !c.RefreshCall? && c.token == token
  }

  /** The session after a 401: no fields, no cookie. */
  const Destroyed := SessionState(EmptySession, None)

  /**
   * After the refresh: the calls made are searches, then possibly the
   * creation and the addition, all with the current token.  The session is
   * changed only by a 401, which destroys it.  No playlist is created unless
   * every search went through and found something; with nothing found the
   * answer is the not-found error.  A playlist URL is answered only after a
   * private playlist named `MoodSync: <date>` was created and exactly the
   * first hits, in song order, were added to it.
   */
  lemma PublishSpec(state: SessionState, token: string, songs: seq<string>, api: Api, date: string, calls: seq<Call>)
    ensures var run, r := Publish(state, token, songs, api, date, calls), Resolve(token, songs, api.search);
      && |calls| <= |run.calls| && run.calls[..|calls|] == calls
      && (forall i :: |calls| <= i < |run.calls| ==> CarriesToken(run.calls[i], token))
      && (run.result == Error(AuthExpired) ==> run.state == Destroyed)
      && (run.result != Error(AuthExpired) ==> run.state == state)
      && (forall i :: |calls| <= i < |run.calls| && run.calls[i].CreateCall? ==> r.failure.None? && r.uris != [])
      && (r.failure.None? && r.uris == [] ==> run.result == Error(NoTracksFound) && run.calls == calls + r.calls)
      && (run.result.PlaylistUrl? ==>
            && |run.calls| >= 2 && r.failure.None? && Hits(token, songs, api.search) != []
            && run.calls[|run.calls| - 2] == CreateCall(token, PlaylistName(date), Description, false)
            && run.calls[|run.calls| - 1].AddCall?
            && run.calls[|run.calls| - 1].uris == Hits(token, songs, api.search)
            && api.create(token, PlaylistName(date), Description, false)
               == Ok(Playlist(run.calls[|run.calls| - 1].playlistId, run.result.url)))
  {
    var run, r := Publish(state, token, songs, api, date, calls), Resolve(token, songs, api.search);
    ResolveSpec(token, songs, api.search);
    var searched := calls + r.calls;
    assert forall i :: |calls| <= i < |searched| ==> searched[i] == r.calls[i - |calls|];
    assert searched[..|calls|] == calls;
    if r.failure.None? && r.uris != [] {
      var created := searched + [CreateCall(token, PlaylistName(date), Description, false)];
      assert created[..|calls|] == calls;
      if api.create(token, PlaylistName(date), Description, false).Ok? {
        var playlist := api.create(token, PlaylistName(date), Description, false).value;
        var added := created + [AddCall(token, playlist.id, r.uris)];
        assert added[..|calls|] == calls;
      }
    }
  }

  /**
   * A rejected search, creation or addition ends in the `catch` with the
   * calls made so far: the answer is "authentication expired", and the
   * session destroyed, exactly when the rejection has status 401.
   */
  lemma PublishRejections(state: SessionState, token: string, songs: seq<string>, api: Api, date: string, calls: seq<Call>)
    ensures var run, r := Publish(state, token, songs, api, date, calls), Resolve(token, songs, api.search);
      && (r.failure.Some? ==> run == Catch(state, r.failure.value, calls + r.calls))
      && (var create := api.create(token, PlaylistName(date), Description, false);
          var created := calls + r.calls + [CreateCall(token, PlaylistName(date), Description, false)];
          && (r.failure.None? && r.uris != [] && create.Failure? ==> run == Catch(state, create.error, created))
          && (r.failure.None? && r.uris != [] && create.Ok? && api.add(token, create.value.id, r.uris).Failure? ==>
                run == Catch(state, api.add(token, create.value.id, r.uris).error,
                             created + [AddCall(token, create.value.id, r.uris)])))
    ensures Publish(state, token, songs, api, date, calls).result == Error(AuthExpired)
        <==> RejectedWith401(token, songs, api, date)
  {
    assert AuthExpired != CreateFailed && AuthExpired != NoTracksFound;
  }

  /** Some call after the refresh was rejected with status 401: a search, or the creation, or the addition. */
  predicate RejectedWith401(token: string, songs: seq<string>, api: Api, date: string) {
    var r := Resolve(token, songs, api.search);
    var create := api.create(token, PlaylistName(date), Description, false);
    if r.failure.Some? then r.failure.value.statusCode == Some(401)
    else if r.uris == [] then false
    else if create.Failure? then create.error.statusCode == Some(401)
    else api.add(token, create.value.id, r.uris).Failure? && api.add(token, create.value.id, r.uris).error.statusCode == Some(401)
  }

  /** The token the action's calls carry after the refresh step: the refreshed one, or the session's. */
  function TokenAfterRefresh(data: SessionData, api: Api, checkedAt: int): Option<string> {
    if NeedsRefresh(data, checkedAt) then
      match api.refresh(data.refreshToken)
      case Ok(r) => Some(r.accessToken)
      case Failure(_) => None
    else data.accessToken
  }

  /** Without both credentials, or without an access token in the session, nothing is called and the session is left as it was. */
  lemma Guards(env: Env, start: SessionState, songs: seq<string>, api: Api, checkedAt: int, refreshedAt: int, date: string)
    ensures !Text.Truthy(env.clientId) || !Text.Truthy(env.clientSecret) ==>
      Action(env, start, songs, api, checkedAt, refreshedAt, date) == Run(Error(MissingApiConfig), start, [])
    ensures Text.Truthy(env.clientId) && Text.Truthy(env.clientSecret) && !Text.Truthy(start.data.accessToken) ==>
      Action(env, start, songs, api, checkedAt, refreshedAt, date) == Run(Error(NotAuthenticated), start, [])
  {
  }

  /**
   * A refresh is requested exactly when the guards pass and the session's
   * expiry is set and strictly in the past, and it is the first call made;
   * every later call carries the refreshed token, or the session's when no
   * refresh was needed.
   */
  lemma RefreshIffExpired(env: Env, start: SessionState, songs: seq<string>, api: Api,
                          checkedAt: int, refreshedAt: int, date: string)
    ensures var run := Action(env, start, songs, api, checkedAt, refreshedAt, date);
      && ((run.calls != [] && run.calls[0].RefreshCall?) <==>
            Text.Truthy(env.clientId) && Text.Truthy(env.clientSecret) && Text.Truthy(start.data.accessToken)
            && NeedsRefresh(start.data, checkedAt))
      && (run.calls != [] && run.calls[0].RefreshCall? ==> run.calls[0] == RefreshCall(start.data.refreshToken))
      && (forall i :: 0 <= i < |run.calls| && !run.calls[i].RefreshCall? ==>
            TokenAfterRefresh(start.data, api, checkedAt).Some?
            && CarriesToken(run.calls[i], TokenAfterRefresh(start.data, api, checkedAt).value))
  {
    if Text.Truthy(env.clientId) && Text.Truthy(env.clientSecret) && Text.Truthy(start.data.accessToken) {
      if NeedsRefresh(start.data, checkedAt) {
        var calls := [RefreshCall(start.data.refreshToken)];
        match api.refresh(start.data.refreshToken)
        case Failure(e) =>
        case Ok(r) =>
          var data := AfterRefresh(start.data, r, refreshedAt);
          PublishSpec(SessionState(data, Some(data)), r.accessToken, songs, api, date, calls);
      } else {
        PublishSpec(start, start.data.accessToken.value, songs, api, date, []);
      }
    }
  }

  /**
   * The session the action leaves: destroyed after a 401 and only then;
   * otherwise the refreshed token and its expiry, saved, when a refresh went
   * through, and the session as it was when none was needed.  The refresh
   * token is never changed.
   */
  lemma SessionAfterAction(env: Env, start: SessionState, songs: seq<string>, api: Api,
                           checkedAt: int, refreshedAt: int, date: string)
    ensures var run := Action(env, start, songs, api, checkedAt, refreshedAt, date);
      && (run.result == Error(AuthExpired) ==> run.state == Destroyed)
      && (run.result != Error(AuthExpired) && NeedsRefresh(start.data, checkedAt) && run.calls != [] && api.refresh(start.data.refreshToken).Ok? ==>
            var data := AfterRefresh(start.data, api.refresh(start.data.refreshToken).value, refreshedAt);
            run.state == SessionState(data, Some(data)))
      && (run.result != Error(AuthExpired) && !(NeedsRefresh(start.data, checkedAt) && api.refresh(start.data.refreshToken).Ok? && run.calls != []) ==>
            run.state == start)
      && (run.result != Error(AuthExpired) ==> run.state.data.refreshToken == start.data.refreshToken)
  {
    if Text.Truthy(env.clientId) && Text.Truthy(env.clientSecret) && Text.Truthy(start.data.accessToken) {
      if NeedsRefresh(start.data, checkedAt) {
        var calls := [RefreshCall(start.data.refreshToken)];
        match api.refresh(start.data.refreshToken)
        case Failure(e) =>
        case Ok(r) =>
          var data := AfterRefresh(start.data, r, refreshedAt);
          PublishSpec(SessionState(data, Some(data)), r.accessToken, songs, api, date, calls);
      } else {
        PublishSpec(start, start.data.accessToken.value, songs, api, date, []);
      }
    }
  }

  /**
   * A playlist is created only when the songs resolve to at least one track,
   * and a playlist URL is answered only after a private playlist named
   * `MoodSync: <date>` was created and exactly the first hits, in song
   * order, were added to it.
   */
  lemma PlaylistOnlyWithTracks(env: Env, start: SessionState, songs: seq<string>, api: Api,
                               checkedAt: int, refreshedAt: int, date: string)
    ensures var run := Action(env, start, songs, api, checkedAt, refreshedAt, date);
      var token := TokenAfterRefresh(start.data, api, checkedAt);
      && (forall i :: 0 <= i < |run.calls| && run.calls[i].CreateCall? ==>
            token.Some? && Resolve(token.value, songs, api.search).failure.None?
            && Hits(token.value, songs, api.search) != [])
      && (run.result.PlaylistUrl? ==>
            && token.Some? && |run.calls| >= 2
            && run.calls[|run.calls| - 2] == CreateCall(token.value, "MoodSync: " + date, Description, false)
            && run.calls[|run.calls| - 1].AddCall?
            && run.calls[|run.calls| - 1].uris == Hits(token.value, songs, api.search) != []
            && api.create(token.value, "MoodSync: " + date, Description, false)
               == Ok(Playlist(run.calls[|run.calls| - 1].playlistId, run.result.url)))
  {
    var run := Action(env, start, songs, api, checkedAt, refreshedAt, date);
    if Text.Truthy(env.clientId) && Text.Truthy(env.clientSecret) && Text.Truthy(start.data.accessToken) {
      if NeedsRefresh(start.data, checkedAt) {
        var calls := [RefreshCall(start.data.refreshToken)];
        match api.refresh(start.data.refreshToken)
        case Failure(e) =>
        case Ok(r) =>
          var data := AfterRefresh(start.data, r, refreshedAt);
          PublishSpec(SessionState(data, Some(data)), r.accessToken, songs, api, date, calls);
          ResolveSpec(r.accessToken, songs, api.search);
      } else {
        PublishSpec(start, start.data.accessToken.value, songs, api, date, []);
        ResolveSpec(start.data.accessToken.value, songs, api.search);
      }
    }
  }

  /**
   * Two songs, the first found and the second not: with a valid session the
   * action searches both, creates the playlist and adds the one track.
   */
  lemma TwoSongs(env: Env, start: SessionState, api: Api, checkedAt: int, refreshedAt: int, date: string,
                 first: string, second: string, uri: string, playlist: Playlist)
    requires Text.Truthy(env.clientId) && Text.Truthy(env.clientSecret) && Text.Truthy(start.data.accessToken)
    requires !NeedsRefresh(start.data, checkedAt)
    requires var token := start.data.accessToken.value;
      && api.search(token, first) == Ok(Some(uri)) && api.search(token, second) == Ok(None)
      && api.create(token, PlaylistName(date), Description, false) == Ok(playlist)
      && api.add(token, playlist.id, [uri]) == Ok(())
    ensures var token := start.data.accessToken.value;
      Action(env, start, [first, second], api, checkedAt, refreshedAt, date)
      == Run(PlaylistUrl(playlist.url), start,
             [SearchCall(token, first), SearchCall(token, second),
              CreateCall(token, PlaylistName(date), Description, false), AddCall(token, playlist.id, [uri])])
  {
    var token := start.data.accessToken.value;
    assert [first][..0] == [];
    assert Resolve(token, [first], api.search) == Resolution([uri], None, [SearchCall(token, first)]);
    assert [first, second][..1] == [first];
    assert Resolve(token, [first, second], api.search)
        == Resolution([uri], None, [SearchCall(token, first), SearchCall(token, second)]);
  }
}
