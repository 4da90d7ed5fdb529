/** `GET /api/dashboard/stats`: the summary numbers, the visit, creation and
    submission trends over the last `days` days (90 unless the `days` parameter
    says otherwise), the ten most visited navigations and the tag distribution.
    `endMs` and `startClockMs` are the two clock readings the handler takes for
    the end and the start of the window. */
module DashboardStats {
  import opened Wrappers
  import opened Strings
  import opened Store
  import opened Dashboard

  datatype Db = Db(navigations: seq<Navigation>, submissions: seq<Submission>, users: seq<User>, tags: seq<TagLinks>)

  datatype StatsReply =
    | StatsUnauthorized
    | StatsFailed
    | StatsOk(
        stats: Headline,
        visits: seq<(int, int)>,
        creations: seq<(int, int)>,
        submissions: seq<(int, StatusCounts)>,
        popular: seq<Navigation>,
        tagDistribution: seq<TagCount>)

  /** `parseInt(searchParams.get("days") || "90")`; `None` stands for `NaN`. */
  function DaysValue(param: Option<string>): Option<int> {
    ParseInt(if Truthy(param) then param.value else "90")
  }

  /** An absent or empty `days` parameter means 90 days, and a number's decimal
      text means that number. */
  lemma DaysValueMeaning(param: Option<string>, n: nat)
    ensures !Truthy(param) ==> DaysValue(param) == Some(90)
    ensures param == Some(NatToDecimal(n)) ==> DaysValue(param) == Some(n)
  {
    assert NatToDecimal(90) == "90" by {
      assert NatToDecimal(9) == "9";
    }
    ParseIntDecimal(90);
    ParseIntDecimal(n);
  }

  /** The visit, creation and submission series of the window, one entry per
      day from the window's first day on. */
  method Trends(navs: seq<Navigation>, subs: seq<Submission>, startMs: int, endMs: int)
    returns (visits: seq<(int, int)>, creations: seq<(int, int)>, submissions: seq<(int, StatusCounts)>)
    ensures var n := TrendLength(startMs, endMs);
      |visits| == n && |creations| == n && |submissions| == n &&
      forall k | 0 <= k < n ::
        visits[k] == (Day(startMs) + k, VisitsOn(navs, Day(startMs) + k)) &&
        creations[k] == (Day(startMs) + k, CreatedOn(navs, Day(startMs) + k) as int) &&
        submissions[k] == (Day(startMs) + k, CountsOn(subs, Day(startMs) + k))
  {
    var visitsByDate := VisitsByDay(navs);
    visits := Trend(startMs, endMs, visitsByDate, 0);
    var creationByDate := CreationsByDay(navs);
    creations := Trend(startMs, endMs, creationByDate, 0);
    var submissionByDate := SubmissionsByDay(subs);
    submissions := Trend(startMs, endMs, submissionByDate, NoSubmissions);
  }

  /** The reply for the window from `startMs` to `endMs`. */
  predicate WindowReply(db: Db, startMs: int, endMs: int, reply: StatsReply) {
    var navs := Filter(db.navigations, InWindow(startMs, endMs));
    var subs := SubmissionsInWindow(db.submissions, startMs, endMs);
    var n := TrendLength(startMs, endMs);
    reply.StatsOk? &&
    reply.stats == HeadlineOf(db.navigations, db.submissions, db.users) &&
    |reply.visits| == n && |reply.creations| == n && |reply.submissions| == n &&
    (forall k | 0 <= k < n ::
      reply.visits[k] == (Day(startMs) + k, VisitsOn(navs, Day(startMs) + k)) &&
      reply.creations[k] == (Day(startMs) + k, CreatedOn(navs, Day(startMs) + k) as int) &&
      reply.submissions[k] == (Day(startMs) + k, CountsOn(subs, Day(startMs) + k))) &&
    reply.popular == Popular(db.navigations) &&
    reply.tagDistribution == TagDistribution(db.tags)
  }

  /** `new Date(startDate.setDate(startDate.getDate() - days))` in UTC
      milliseconds: `days` whole days before the clock reading. */
  function WindowStart(clockMs: int, days: int): int {
    clockMs - days * DayMs
  }

  /** The queries and the three trend loops over one window. */
  method Window(db: Db, startMs: int, endMs: int) returns (reply: StatsReply)
    ensures WindowReply(db, startMs, endMs, reply)
  {
    var stats := HeadlineOf(db.navigations, db.submissions, db.users);
    var navigations := Filter(db.navigations, InWindow(startMs, endMs));
    var submissions := SubmissionsInWindow(db.submissions, startMs, endMs);
    var visitTrend, creationTrend, submissionTrend := Trends(navigations, submissions, startMs, endMs);
    reply := StatsOk(stats, visitTrend, creationTrend, submissionTrend, Popular(db.navigations), TagDistribution(db.tags));
  }

  /** The request handler. A `days` value `parseInt` cannot read makes the
      window's start an invalid date, which the date filter of the first
      query rejects; the error is caught and answered with status 500. The
      window runs from `days` days before the start reading to the end
      reading. */
  method Get(session: bool, db: Db, endMs: int, startClockMs: int, daysParam: Option<string>)
    returns (reply: StatsReply)
    ensures !session ==> reply == StatsUnauthorized
    ensures session && DaysValue(daysParam).None? ==> reply == StatsFailed
    ensures session && DaysValue(daysParam).Some? ==>
      WindowReply(db, WindowStart(startClockMs, DaysValue(daysParam).value), endMs, reply)
  {
    if !session {
      return StatsUnauthorized;
    }
    var parsed := DaysValue(daysParam);
    if parsed.None? {
      return StatsFailed;
    }
    var days := parsed.value;
    var startMs := WindowStart(startClockMs, days);
    reply := Window(db, startMs, endMs);
  }
}
