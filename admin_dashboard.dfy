/** `getDashboardData` of the admin dashboard page: the summary numbers, the
    visit trend over the last 90 days and the ten most visited navigations with
    their creation time as an ISO string. `iso` is `Date.prototype.toISOString`. */
module AdminDashboard {
  import opened Wrappers
  import opened Store
  import opened Dashboard

  const WindowDays: nat := 90

  const LoginPath := "/admin/login"

  /** A most visited navigation as the page hands it to the table. */
  datatype PopularRow = PopularRow(
    id: nat, title: string, url: string, visits: int, createdAt: string, tagIds: seq<nat>)

  datatype DashboardPage =
    | RedirectTo(path: string)
    | DashboardData(stats: Headline, visits: seq<(int, int)>, popular: seq<PopularRow>)

  /** `popularNavigations.map((nav) => ({ ...nav, createdAt: nav.createdAt.toISOString() }))`. */
  function WithStringDates(popular: seq<Navigation>, iso: int -> string): (r: seq<PopularRow>)
    ensures |r| == |popular|
    ensures forall k | 0 <= k < |r| ::
      var nav := popular[k];
      r[k] == PopularRow(nav.id, nav.title, nav.url, nav.visits, iso(nav.createdAt), nav.tagIds)
    decreases |popular|
  {
    if popular == [] then []
    else
      var nav := popular[|popular| - 1];
      WithStringDates(popular[..|popular| - 1], iso) + [PopularRow(nav.id, nav.title, nav.url, nav.visits, iso(nav.createdAt), nav.tagIds)]
  }

  method GetDashboardData(session: bool, navigations: seq<Navigation>, submissions: seq<Submission>,
                          users: seq<User>, endMs: int, startClockMs: int, iso: int -> string)
    returns (page: DashboardPage)
    ensures !session ==> page == RedirectTo(LoginPath)
    ensures session ==>
      var startMs := startClockMs - WindowDays * DayMs;
      var navs := Filter(navigations, InWindow(startMs, endMs));
      page.DashboardData? &&
      page.stats == HeadlineOf(navigations, submissions, users) &&
      |page.visits| == TrendLength(startMs, endMs) &&
      (forall k | 0 <= k < |page.visits| :: page.visits[k] == (Day(startMs) + k, VisitsOn(navs, Day(startMs) + k))) &&
      page.popular == WithStringDates(Popular(navigations), iso)
  {
    if !session {
      return RedirectTo(LoginPath);
    }
    var startMs := startClockMs - WindowDays * DayMs;
    var stats := HeadlineOf(navigations, submissions, users);
    var windowed := Filter(navigations, InWindow(startMs, endMs));
    var visitsByDate := VisitsByDay(windowed);
    var visitTrend := Trend(startMs, endMs, visitsByDate, 0);
    page := DashboardData(stats, visitTrend, WithStringDates(Popular(navigations), iso));
  }

  /** The trend spans 91 days when both clock readings agree and 90 when the
      clock moved on between them. */
  lemma NinetyDayWindow(endMs: int, startClockMs: int)
    requires endMs <= startClockMs < endMs + DayMs
    ensures startClockMs == endMs ==> TrendLength(startClockMs - WindowDays * DayMs, endMs) == 91
    ensures startClockMs > endMs ==> TrendLength(startClockMs - WindowDays * DayMs, endMs) == 90
  {
    WindowLength(endMs, startClockMs, WindowDays);
  }
}
