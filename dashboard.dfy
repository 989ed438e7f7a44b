/**
 * `DashboardPage`, the signed-in page: its account check against
 * `/api/user`, the mood selection that asks the recommendation flow for
 * songs, the search box that submits a mood, and the choice of what the
 * page shows.  The handlers update the page's state one setter after the
 * other; the recommendation flow's outcome and the account request's
 * outcome are inputs, and a navigation is recorded as the location the page
 * assigns.
 */
module Dashboard {
  import opened Options
  import Text
  import Json
  import opened Http
  import Provider
  import UserRoute

  /** What `suggestSongsFromMood` resolves to: an object whose `suggestedSongs` may be missing. */
  datatype Output = Output(suggestedSongs: Option<seq<string>>)

  /** How the recommendation call settles: a result (possibly `null`), or an exception. */
  datatype Outcome = Settled(result: Option<Output>) | Threw

  /** How `fetch('/api/user')` settles: a status and the body `res.json()` reads (None when it rejects), or a rejected fetch. */
  datatype UserFetch = Responded(status: int, body: Option<Json.Value>) | FetchRejected

  datatype Toast = Toast(title: string, description: string)

  const NoSongsError := "노래 추천을 생성할 수 없습니다. 다른 기분을 시도해 보세요."
  const UnexpectedError := "예상치 못한 오류가 발생했습니다. 나중에 다시 시도해 주세요."
  const FailureToast := Toast("이런! 문제가 발생했습니다.", "AI 추천 서비스에 문제가 발생했습니다.")

  const LoginPath := "/api/auth/login"
  const HomePath := "/"

  /** The titles of the mood cards; a card selects its own title. */
  const Moods := ["행복", "휴식", "집중", "추억", "활력", "로맨틱"]

  /** The page's state; `location` is the address assigned to `window.location.href`, if any. */
  datatype Page = Page(suggestions: Option<Output>, isLoading: bool, error: Option<string>, searchTerm: string,
                       user: Option<Json.Value>, isAuthLoading: bool, location: Option<string>, toasts: seq<Toast>)

  const Initial := Page(None, false, None, "", None, true, None, [])

  /** The condition under which a result is shown: a result with a non-empty `suggestedSongs`. */
  predicate Delivered(r: Option<Output>) {
    r.Some? && r.value.suggestedSongs.Some? && |r.value.suggestedSongs.value| > 0
  }

  /** `handleMoodSelect` up to its `await`: nothing for a blank mood, else loading with no suggestions and no error. */
  function BeginSelect(p: Page, mood: string): Page {
    if Text.Trim(mood) == "" then p
    else p.(isLoading := true, suggestions := None, error := None)
  }

  /** `handleMoodSelect` after its `await`: the result, or one of the two errors, then loading ends (`finally`). */
  function FinishSelect(p: Page, o: Outcome): Page {
    match o
    case Threw => p.(error := Some(UnexpectedError), toasts := p.toasts + [FailureToast], isLoading := false)
    case Settled(r) =>
      if Delivered(r) then p.(suggestions := r, isLoading := false)
      else p.(error := Some(NoSongsError), isLoading := false)
  }

  function SelectMood(p: Page, mood: string, o: Outcome): Page {
    if Text.Trim(mood) == "" then p else FinishSelect(BeginSelect(p, mood), o)
  }

  /**
   * `handleSearchSubmit`: the selection of the current search term is
   * started, the term is cleared, and the selection settles afterwards.
   */
  function SubmitSearch(p: Page, o: Outcome): Page {
    var started := BeginSelect(p, p.searchTerm).(searchTerm := "");
    if Text.Trim(p.searchTerm) == "" then started else FinishSelect(started, o)
  }

  /** `res.ok`. */
  predicate IsOk(status: int) {
    200 <= status <= 299
  }

  /** The account request succeeds and its body is read: `data.user` is stored (reading it from `null` throws). */
  predicate ReadsUser(f: UserFetch) {
    f.Responded? && IsOk(f.status) && f.body.Some? && !f.body.value.Null?
  }

  /** `fetchUser`: the user, or a navigation to login (401) or home (anything else); the check ends (`finally`). */
  function FetchUserResult(p: Page, f: UserFetch): Page {
    var settled := p.(isAuthLoading := false);
    if ReadsUser(f) then settled.(user := Json.Member(f.body.value, "user"))
    else if f.Responded? && !IsOk(f.status) && f.status == 401 then settled.(location := Some(LoginPath))
    else settled.(location := Some(HomePath))
  }

  /** What `renderContent` shows. */
  datatype Content = Skeleton | ErrorCard(message: string) | PlaylistOf(songs: Option<seq<string>>) | MoodGrid(titles: seq<string>)

  /** What the page shows: the account check's spinner, the redirect spinner, or the dashboard around its content. */
  datatype Screen = CheckingAccount | Redirecting | DashboardScreen(content: Content)

  function RenderContent(isLoading: bool, error: Option<string>, suggestions: Option<Output>): Content {
    if isLoading then Skeleton
    else if Text.Truthy(error) then ErrorCard(error.value)
    else if suggestions.Some? then PlaylistOf(suggestions.value.suggestedSongs)
    else MoodGrid(Moods)
  }

  function View(p: Page): Screen {
    if p.isAuthLoading then CheckingAccount
    else if !(p.user.Some? && Json.Truthy(p.user.value)) then Redirecting
    else DashboardScreen(RenderContent(p.isLoading, p.error, p.suggestions))
  }

  /** The page's state, updated in place by its handlers. */
  class DashboardPage {
    var suggestions: Option<Output>
    var isLoading: bool
    var error: Option<string>
    var searchTerm: string
    var user: Option<Json.Value>
    var isAuthLoading: bool
    var location: Option<string>
    var toasts: seq<Toast>

    constructor ()
      ensures State() == Initial
    {
      suggestions, isLoading, error, searchTerm := None, false, None, "";
      user, isAuthLoading, location, toasts := None, true, None, [];
    }

    function State(): Page
      reads this
    {
      Page(suggestions, isLoading, error, searchTerm, user, isAuthLoading, location, toasts)
    }

    /** The search box's `onChange`. */
    method SetSearchTerm(value: string)
      modifies this
      ensures State() == old(State()).(searchTerm := value)
    {
      searchTerm := value;
    }

    /** The synchronous part of `handleMoodSelect`; it answers whether the recommendation call was made. */
    method BeginMoodSelect(mood: string) returns (started: bool)
      modifies this
      ensures started <==> Text.Trim(mood) != ""
      ensures State() == BeginSelect(old(State()), mood)
    {
      if Text.Trim(mood) == "" {
        return false;
      }
      isLoading := true;
      suggestions := None;
      error := None;
      return true;
    }

    /** The part of `handleMoodSelect` after the recommendation call settles. */
    method FinishMoodSelect(o: Outcome)
      modifies this
      ensures State() == FinishSelect(old(State()), o)
    {
      match o {
        case Threw =>
          error := Some(UnexpectedError);
          toasts := toasts + [FailureToast];
        case Settled(r) =>
          if r.Some? && r.value.suggestedSongs.Some? && |r.value.suggestedSongs.value| > 0 {
            suggestions := r;
          } else {
            error := Some(NoSongsError);
          }
      }
      isLoading := false;
    }

    /** `handleMoodSelect(mood)` run to completion. */
    method HandleMoodSelect(mood: string, o: Outcome)
      modifies this
      ensures State() == SelectMood(old(State()), mood, o)
    {
      var started := BeginMoodSelect(mood);
      if started {
        FinishMoodSelect(o);
      }
    }

    /** `handleSearchSubmit`: the selection is not awaited, so the term is cleared before it settles. */
    method HandleSearchSubmit(o: Outcome)
      modifies this
      ensures State() == SubmitSearch(old(State()), o)
    {
      var started := BeginMoodSelect(searchTerm);
      searchTerm := "";
      if started {
        FinishMoodSelect(o);
      }
    }

    /** The account check the page runs once it is mounted. */
    method FetchUser(f: UserFetch)
      modifies this
      ensures State() == FetchUserResult(old(State()), f)
    {
      match f {
        case FetchRejected =>
          location := Some(HomePath);
        case Responded(status, body) =>
          if IsOk(status) {
            if body.Some? && !body.value.Null? {
              user := Json.Member(body.value, "user");
            } else {
              location := Some(HomePath);
            }
          } else if status == 401 {
            location := Some(LoginPath);
          } else {
            location := Some(HomePath);
          }
      }
      isAuthLoading := false;
    }
  }

  // ---------------------------------------------------------------------------
  // Properties

  /**
   * A blank mood (empty or whitespace only) changes nothing; any other mood
   * starts loading with the previous suggestions and error cleared, and the
   * page shows the skeleton while the call is pending.
   */
  lemma SelectStarts(p: Page, mood: string, o: Outcome)
    ensures Text.IsBlank(mood) ==> SelectMood(p, mood, o) == p && BeginSelect(p, mood) == p
    ensures !Text.IsBlank(mood) ==>
      var q := BeginSelect(p, mood);
      && q == p.(isLoading := true, suggestions := None, error := None)
      && RenderContent(q.isLoading, q.error, q.suggestions) == Skeleton
  {
    Text.TrimEmptyIffBlank(mood);
  }

  /**
   * A non-blank mood settles with loading over on every path: the songs
   * become the suggestions exactly when the flow returned a non-empty list,
   * and otherwise the page holds the "try a different mood" error (no or an
   * empty list) or the unexpected-error message with one toast (an
   * exception).  Nothing outside the selection changes.
   */
  lemma SelectSettles(p: Page, mood: string, o: Outcome)
    requires !Text.IsBlank(mood)
    ensures var r := SelectMood(p, mood, o);
      && !r.isLoading
      && (r.suggestions.Some? <==> o.Settled? && Delivered(o.result))
      && (r.suggestions.Some? ==> r.suggestions == o.result && r.error == None)
      && (o.Settled? && !Delivered(o.result) ==> r.error == Some(NoSongsError) && r.suggestions == None)
      && (o.Threw? ==> r.error == Some(UnexpectedError) && r.toasts == p.toasts + [FailureToast])
      && (o.Settled? ==> r.toasts == p.toasts)
      && r.searchTerm == p.searchTerm && r.user == p.user
      && r.isAuthLoading == p.isAuthLoading && r.location == p.location
  {
    Text.TrimEmptyIffBlank(mood);
  }

  /**
   * After a non-blank selection the page shows the suggested songs when the
   * flow delivered some, and the matching error card otherwise; it never
   * falls back to the mood grid.
   */
  lemma SelectionShown(p: Page, mood: string, o: Outcome)
    requires !Text.IsBlank(mood)
    ensures var r := SelectMood(p, mood, o);
      var shown := RenderContent(r.isLoading, r.error, r.suggestions);
      && (o.Settled? && Delivered(o.result) ==> shown == PlaylistOf(o.result.value.suggestedSongs))
      && (o.Settled? && !Delivered(o.result) ==> shown == ErrorCard(NoSongsError))
      && (o.Threw? ==> shown == ErrorCard(UnexpectedError))
      && !shown.MoodGrid?
  {
    SelectSettles(p, mood, o);
  }

  /**
   * The content's priority: the skeleton whenever loading; else the error
   * card whenever there is a non-empty error; else the playlist whenever
   * there are suggestions; the mood grid only when there is none of these.
   */
  lemma RenderPriority(isLoading: bool, error: Option<string>, suggestions: Option<Output>)
    ensures var c := RenderContent(isLoading, error, suggestions);
      && (c == Skeleton <==> isLoading)
      && (c.ErrorCard? <==> !isLoading && Text.Truthy(error))
      && (c.ErrorCard? ==> c.message == error.value)
      && (c.PlaylistOf? <==> !isLoading && !Text.Truthy(error) && suggestions.Some?)
      && (c.MoodGrid? <==> !isLoading && !Text.Truthy(error) && suggestions.None?)
  {
  }

  /** Every mood card selects a mood that starts loading. */
  lemma MoodCardsStartLoading(p: Page, i: nat)
    requires i < |Moods|
    ensures !Text.IsBlank(Moods[i])
    ensures BeginSelect(p, Moods[i]).isLoading
  {
    assert !Text.IsWhitespace(Moods[i][0]);
    Text.TrimEmptyIffBlank(Moods[i]);
  }

  /**
   * Submitting the search box selects the current term and leaves the box
   * empty; a blank term changes nothing else.
   */
  lemma SubmitSelectsTerm(p: Page, o: Outcome)
    ensures SubmitSearch(p, o) == SelectMood(p, p.searchTerm, o).(searchTerm := "")
    ensures Text.IsBlank(p.searchTerm) ==> SubmitSearch(p, o) == p.(searchTerm := "")
  {
    Text.TrimEmptyIffBlank(p.searchTerm);
  }

  /**
   * The account check ends on every path.  A successful, readable response
   * stores its `user`; a 401 navigates to login; every other status, an
   * unreadable or `null` body, and a rejected request navigate home.
   */
  lemma FetchUserRouting(p: Page, f: UserFetch)
    ensures var r := FetchUserResult(p, f);
      && !r.isAuthLoading
      && (ReadsUser(f) ==> r.user == Json.Member(f.body.value, "user") && r.location == p.location)
      && (!ReadsUser(f) ==> r.user == p.user)
      && (r.location == Some(LoginPath) <==> (f.Responded? && f.status == 401) || (ReadsUser(f) && p.location == Some(LoginPath)))
      && (!ReadsUser(f) && !(f.Responded? && f.status == 401) ==> r.location == Some(HomePath))
      && r.suggestions == p.suggestions && r.isLoading == p.isLoading && r.error == p.error
      && r.searchTerm == p.searchTerm && r.toasts == p.toasts
  {
    assert LoginPath != HomePath by { assert |LoginPath| != |HomePath|; }
  }

  /**
   * From a freshly mounted page, the account check leads to the dashboard
   * with the mood grid exactly when a readable response named a truthy
   * `user`; otherwise the page shows the redirect spinner.  Before it
   * settles, the page shows the account check's spinner.
   */
  lemma FirstScreen(f: UserFetch)
    ensures View(Initial) == CheckingAccount
    ensures var r := FetchUserResult(Initial, f);
      && (ReadsUser(f) && Json.Truthy(Json.Or(Json.Member(f.body.value, "user"), Json.Null)) <==> View(r) == DashboardScreen(MoodGrid(Moods)))
      && (View(r) != DashboardScreen(MoodGrid(Moods)) ==> View(r) == Redirecting)
  {
  }

  /**
   * The page against the user endpoint, when `res.json()` reads the body the
   * endpoint wrote: the page navigates to login exactly when the endpoint
   * answers 401 (no access token, or the profile request refused), home when
   * it answers 500, and otherwise stores the `user` of the answer.
   */
  lemma AgainstUserRoute(p: Page, jar: Jar, parse: string -> Option<Json.Value>, me: string -> Provider.ProfileReply)
    ensures var a := UserRoute.GetUser(jar, parse, me).reply;
      var r := FetchUserResult(p, Responded(a.status, Some(a.body)));
      && (a.status == 401 ==> r.location == Some(LoginPath) && r.user == p.user)
      && (a.status == 500 ==> r.location == Some(HomePath) && r.user == p.user)
      && (a.status == 200 ==> r.user == UserRoute.UserOf(a) && r.location == p.location)
      && (AccessTokenCookie !in jar ==> r.location == Some(LoginPath))
  {
    UserRoute.AnswerShape(jar, parse, me);
    var a := UserRoute.GetUser(jar, parse, me).reply;
    if a.status == 200 {
      assert !a.body.Null?;
    }
  }
}
