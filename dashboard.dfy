/** What the dashboard endpoint and the dashboard page compute from the tables:
    per-day buckets keyed by the UTC day of a timestamp, zero-filled trends over
    a run of consecutive days, the headline counts and the tag distribution. A
    day stands for its date string `YYYY-MM-DD`, which names exactly one day. */
module Dashboard {
  import opened Wrappers
  import opened Store
  import opened Sorting

  // ----- sums and counts per day

  /** The visits of the navigations created on day `d`. */
  function VisitsOn(navs: seq<Navigation>, d: int): int
    decreases |navs|
  {
    if navs == [] then 0
    else
      var last := navs[|navs| - 1];
      VisitsOn(navs[..|navs| - 1], d) + (if Day(last.createdAt) == d then last.visits else 0)
  }

  /** The number of navigations created on day `d`. */
  function CreatedOn(navs: seq<Navigation>, d: int): (n: nat)
    ensures n <= |navs|
    decreases |navs|
  {
    if navs == [] then 0
    else CreatedOn(navs[..|navs| - 1], d) + (if Day(navs[|navs| - 1].createdAt) == d then 1 else 0)
  }

  /** The days on which some navigation was created. */
  function CreationDays(navs: seq<Navigation>): set<int>
    decreases |navs|
  {
    if navs == [] then {} else CreationDays(navs[..|navs| - 1]) + {Day(navs[|navs| - 1].createdAt)}
  }

  lemma {:induction false} CreationDaysMeaning(navs: seq<Navigation>, d: int)
    ensures d in CreationDays(navs) <==> exists i | 0 <= i < |navs| :: Day(navs[i].createdAt) == d
    ensures d !in CreationDays(navs) ==> VisitsOn(navs, d) == 0 && CreatedOn(navs, d) == 0
    ensures d in CreationDays(navs) ==> CreatedOn(navs, d) > 0
    decreases |navs|
  {
    if navs != [] {
      var init := navs[..|navs| - 1];
      CreationDaysMeaning(init, d);
      assert forall i | 0 <= i < |init| :: init[i] == navs[i];
    }
  }

  /** `m[d] || 0`. */
  function Lookup<V>(m: map<int, V>, d: int, zero: V): V {
    if d in m then m[d] else zero
  }

  lemma Prefix<T>(s: seq<T>, i: nat)
    requires i < |s|
    ensures s[..i + 1][..i] == s[..i] && s[..i + 1][i] == s[i]
  {
  }

  /** The `visitsByDate` dictionary: one entry per creation day, holding the
      visits of the navigations created that day. */
  method VisitsByDay(navs: seq<Navigation>) returns (m: map<int, int>)
    ensures m.Keys == CreationDays(navs)
    ensures forall d | d in m :: m[d] == VisitsOn(navs, d)
    ensures forall d :: Lookup(m, d, 0) == VisitsOn(navs, d)
  {
    m := map[];
    for i := 0 to |navs|
      invariant m.Keys == CreationDays(navs[..i])
      invariant forall d | d in m :: m[d] == VisitsOn(navs[..i], d)
    {
      Prefix(navs, i);
      var date := Day(navs[i].createdAt);
      CreationDaysMeaning(navs[..i], date);
      m := m[date := Lookup(m, date, 0) + navs[i].visits];
      forall d | d != date && d !in CreationDays(navs[..i]) ensures VisitsOn(navs[..i], d) == 0 {
        CreationDaysMeaning(navs[..i], d);
      }
    }
    assert navs[..|navs|] == navs;
    forall d ensures Lookup(m, d, 0) == VisitsOn(navs, d) {
      CreationDaysMeaning(navs, d);
    }
  }

  /** The `creationByDate` dictionary: the number of navigations created per
      creation day. */
  method CreationsByDay(navs: seq<Navigation>) returns (m: map<int, int>)
    ensures m.Keys == CreationDays(navs)
    ensures forall d | d in m :: m[d] == CreatedOn(navs, d) > 0
    ensures forall d :: Lookup(m, d, 0) == CreatedOn(navs, d)
  {
    m := map[];
    for i := 0 to |navs|
      invariant m.Keys == CreationDays(navs[..i])
      invariant forall d | d in m :: m[d] == CreatedOn(navs[..i], d)
    {
      Prefix(navs, i);
      var date := Day(navs[i].createdAt);
      CreationDaysMeaning(navs[..i], date);
      m := m[date := Lookup(m, date, 0) + 1];
      forall d | d != date && d !in CreationDays(navs[..i]) ensures CreatedOn(navs[..i], d) == 0 {
        CreationDaysMeaning(navs[..i], d);
      }
    }
    assert navs[..|navs|] == navs;
    forall d ensures Lookup(m, d, 0) == CreatedOn(navs, d) && (d in m ==> CreatedOn(navs, d) > 0) {
      CreationDaysMeaning(navs, d);
    }
  }

  // ----- submissions per day and status

  datatype StatusCounts = StatusCounts(pending: nat, approved: nat, rejected: nat)

  const NoSubmissions := StatusCounts(0, 0, 0)

  /** The submissions created on day `d` whose status is `status`. */
  function SubmittedOn(subs: seq<Submission>, d: int, status: string): (n: nat)
    ensures n <= |subs|
    decreases |subs|
  {
    if subs == [] then 0
    else
      var last := subs[|subs| - 1];
      SubmittedOn(subs[..|subs| - 1], d, status) + (if Day(last.createdAt) == d && last.status == status then 1 else 0)
  }

  function SubmissionDays(subs: seq<Submission>): set<int>
    decreases |subs|
  {
    if subs == [] then {} else SubmissionDays(subs[..|subs| - 1]) + {Day(subs[|subs| - 1].createdAt)}
  }

  /** The three counts of day `d`. */
  function CountsOn(subs: seq<Submission>, d: int): StatusCounts {
    StatusCounts(SubmittedOn(subs, d, "pending"), SubmittedOn(subs, d, "approved"), SubmittedOn(subs, d, "rejected"))
  }

  lemma {:induction false} SubmissionDaysMeaning(subs: seq<Submission>, d: int)
    ensures d in SubmissionDays(subs) <==> exists i | 0 <= i < |subs| :: Day(subs[i].createdAt) == d
    ensures d !in SubmissionDays(subs) ==> CountsOn(subs, d) == NoSubmissions
    decreases |subs|
  {
    if subs != [] {
      var init := subs[..|subs| - 1];
      SubmissionDaysMeaning(init, d);
      assert forall i | 0 <= i < |init| :: init[i] == subs[i];
    }
  }

  /** A submission whose status is none of the three is counted nowhere. */
  lemma OtherStatusCountsNowhere(subs: seq<Submission>, s: Submission, d: int)
    requires s.status != "pending" && s.status != "approved" && s.status != "rejected"
    ensures CountsOn(subs + [s], d) == CountsOn(subs, d)
  {
    assert (subs + [s])[..|subs|] == subs;
  }

  /** One more submission in the count of its day and status. */
  lemma SubmittedOnStep(subs: seq<Submission>, i: nat, d: int, status: string)
    requires i < |subs|
    ensures SubmittedOn(subs[..i + 1], d, status) ==
      SubmittedOn(subs[..i], d, status) + (if Day(subs[i].createdAt) == d && subs[i].status == status then 1 else 0)
  {
    Prefix(subs, i);
  }

  /** The `submissionByDate` dictionary: a bucket for every day with a
      submission, whatever its status, counting the three statuses apart. */
  method SubmissionsByDay(subs: seq<Submission>) returns (m: map<int, StatusCounts>)
    ensures m.Keys == SubmissionDays(subs)
    ensures forall d | d in m :: m[d] == CountsOn(subs, d)
    ensures forall d :: Lookup(m, d, NoSubmissions) == CountsOn(subs, d)
  {
    m := map[];
    for i := 0 to |subs|
      invariant m.Keys == SubmissionDays(subs[..i])
      invariant forall d | d in m :: m[d] == CountsOn(subs[..i], d)
    {
      m := CountSubmission(m, subs, i);
    }
    assert subs[..|subs|] == subs;
    forall d ensures Lookup(m, d, NoSubmissions) == CountsOn(subs, d) {
      SubmissionDaysMeaning(subs, d);
    }
  }

  /** The body of the loop: open the day's bucket when it is new, then count
      the submission under its status, if that is one of the three. */
  method CountSubmission(m: map<int, StatusCounts>, subs: seq<Submission>, i: nat) returns (next: map<int, StatusCounts>)
    requires i < |subs|
    requires m.Keys == SubmissionDays(subs[..i])
    requires forall d | d in m :: m[d] == CountsOn(subs[..i], d)
    ensures next.Keys == SubmissionDays(subs[..i + 1])
    ensures forall d | d in next :: next[d] == CountsOn(subs[..i + 1], d)
  {
    Prefix(subs, i);
    var sub := subs[i];
    var date := Day(sub.createdAt);
    next := m;
    if date !in next {
      SubmissionDaysMeaning(subs[..i], date);
      next := next[date := NoSubmissions];
    }
    if sub.status == "pending" {
      next := next[date := next[date].(pending := next[date].pending + 1)];
    } else if sub.status == "approved" {
      next := next[date := next[date].(approved := next[date].approved + 1)];
    } else if sub.status == "rejected" {
      next := next[date := next[date].(rejected := next[date].rejected + 1)];
    }
    forall d | d in next ensures next[d] == CountsOn(subs[..i + 1], d) {
      SubmittedOnStep(subs, i, d, "pending");
      SubmittedOnStep(subs, i, d, "approved");
      SubmittedOnStep(subs, i, d, "rejected");
    }
  }

  // ----- trends over consecutive days

  /** The number of days the trend loop visits: one per step of a day from
      `startMs` while not past `endMs`. */
  function TrendLength(startMs: int, endMs: int): nat {
    if endMs < startMs then 0 else (endMs - startMs) / DayMs + 1
  }

  lemma DayShift(ms: int, k: nat)
    ensures Day(ms + k * DayMs) == Day(ms) + k
  {
  }

  lemma TrendLengthExact(startMs: int, endMs: int, n: nat)
    requires startMs + (n - 1) * DayMs <= endMs < startMs + n * DayMs
    ensures TrendLength(startMs, endMs) == n
  {
  }

  /** The `while (currentDate <= endDate)` loop: one entry per consecutive day
      starting at the day of `startMs`, in ascending order, holding the day's
      bucket or `zero` when the day has none. */
  method Trend<V>(startMs: int, endMs: int, byDay: map<int, V>, zero: V) returns (trend: seq<(int, V)>)
    ensures |trend| == TrendLength(startMs, endMs)
    ensures forall k | 0 <= k < |trend| :: trend[k] == (Day(startMs) + k, Lookup(byDay, Day(startMs) + k, zero))
  {
    trend := [];
    var current := startMs;
    while current <= endMs
      invariant current == startMs + |trend| * DayMs
      invariant |trend| > 0 ==> current <= endMs + DayMs
      invariant forall k | 0 <= k < |trend| :: trend[k] == (Day(startMs) + k, Lookup(byDay, Day(startMs) + k, zero))
      decreases endMs - current
    {
      var date := Day(current);
      DayShift(startMs, |trend|);
      trend := trend + [(date, Lookup(byDay, date, zero))];
      current := current + DayMs;
    }
    if |trend| == 0 {
      assert endMs < startMs;
    } else {
      TrendLengthExact(startMs, endMs, |trend|);
    }
  }

  /** The window of `days` days that ends now. `endMs` is the clock reading
      taken for the end of the window and `startClockMs` the one taken just
      after it for its start. When both readings agree the trend covers
      `days + 1` days; when the clock moved on in between it stops a day short. */
  lemma WindowLength(endMs: int, startClockMs: int, days: nat)
    requires endMs <= startClockMs < endMs + DayMs
    ensures startClockMs == endMs ==> TrendLength(startClockMs - days * DayMs, endMs) == days + 1
    ensures startClockMs > endMs && days > 0 ==> TrendLength(startClockMs - days * DayMs, endMs) == days
  {
    var startMs := startClockMs - days * DayMs;
    if startClockMs == endMs {
      TrendLengthExact(startMs, endMs, days + 1);
    } else if days > 0 {
      TrendLengthExact(startMs, endMs, days);
    }
  }

  // ----- headline numbers

  predicate Approved(nav: Navigation) {
    nav.status == "approved"
  }

  /** Whether a navigation was created inside the window. */
  function InWindow(startMs: int, endMs: int): Navigation -> bool {
    (nav: Navigation) => nav.status == "approved" && startMs <= nav.createdAt <= endMs
  }

  function SumVisits(navs: seq<Navigation>): int
    decreases |navs|
  {
    if navs == [] then 0 else SumVisits(navs[..|navs| - 1]) + navs[|navs| - 1].visits
  }

  /** `aggregate({ _sum: { visits } })` over the approved navigations: `null`
      when there is none. */
  function AggregateVisits(rows: seq<Navigation>): Option<int> {
    var approved := Filter(rows, Approved);
    if approved == [] then None else Some(SumVisits(approved))
  }

  /** `_sum.visits || 0`. */
  function TotalVisits(rows: seq<Navigation>): int {
    AggregateVisits(rows).GetOr(0)
  }

  /** The `|| 0` default is exactly the sum over the approved navigations, which
      is 0 when there are none. */
  lemma TotalVisitsIsSum(rows: seq<Navigation>)
    ensures TotalVisits(rows) == SumVisits(Filter(rows, Approved))
    ensures Filter(rows, Approved) == [] ==> TotalVisits(rows) == 0
  {
  }

  /** The submissions created inside the window. */
  function SubmissionsInWindow(subs: seq<Submission>, startMs: int, endMs: int): (r: seq<Submission>)
    ensures |r| <= |subs|
    ensures forall i | 0 <= i < |r| :: startMs <= r[i].createdAt <= endMs && r[i] in subs
    decreases |subs|
  {
    if subs == [] then []
    else
      var last := subs[|subs| - 1];
      SubmissionsInWindow(subs[..|subs| - 1], startMs, endMs) + (if startMs <= last.createdAt <= endMs then [last] else [])
  }

  /** The four numbers of the summary cards. */
  datatype Headline = Headline(totalNavigations: nat, totalVisits: int, pendingSubmissions: nat, totalUsers: nat)

  /** `navigation.count` and `aggregate` over the approved navigations,
      `submission.count` over the pending submissions and `user.count`. */
  function HeadlineOf(navs: seq<Navigation>, subs: seq<Submission>, users: seq<User>): (h: Headline)
    ensures h.totalNavigations == |Filter(navs, Approved)| <= |navs|
    ensures h.totalVisits == SumVisits(Filter(navs, Approved))
    ensures h.pendingSubmissions == CountSubmissions(subs, "pending") <= |subs|
    ensures h.totalUsers == |users|
  {
    TotalVisitsIsSum(navs);
    Headline(|Filter(navs, Approved)|, TotalVisits(navs), CountSubmissions(subs, "pending"), |users|)
  }

  function CountSubmissions(subs: seq<Submission>, status: string): (n: nat)
    ensures n <= |subs|
    decreases |subs|
  {
    if subs == [] then 0
    else CountSubmissions(subs[..|subs| - 1], status) + (if subs[|subs| - 1].status == status then 1 else 0)
  }

  function VisitsKey(nav: Navigation): int {
    nav.visits
  }

  /** The ten approved navigations with the most visits, most visited first. */
  function Popular(rows: seq<Navigation>): (r: seq<Navigation>)
    ensures |r| <= 10
  {
    var sorted := SortDesc(Filter(rows, Approved), VisitsKey);
    if |sorted| <= 10 then sorted else sorted[..10]
  }

  /** The ten most visited approved navigations, most visited first: the list
      is sorted, has ten entries or every approved one, takes each entry from
      the approved ones no more often than it occurs there, and no approved
      navigation left out has more visits than one that is listed. */
  lemma PopularMeaning(rows: seq<Navigation>)
    ensures SortedDesc(Popular(rows), VisitsKey)
    ensures |Popular(rows)| == if |Filter(rows, Approved)| < 10 then |Filter(rows, Approved)| else 10
    ensures multiset(Popular(rows)) <= multiset(Filter(rows, Approved))
    ensures forall i | 0 <= i < |Popular(rows)| :: Popular(rows)[i] in Filter(rows, Approved)
    ensures |Filter(rows, Approved)| <= 10 ==> multiset(Popular(rows)) == multiset(Filter(rows, Approved))
    ensures forall n, m | n in Filter(rows, Approved) && n !in Popular(rows) && m in Popular(rows) ::
      n.visits <= m.visits
  {
    var key := VisitsKey;
    var approved := Filter(rows, Approved);
    var sorted := SortDesc(approved, key);
    SortDescSorted(approved, key);
    SortDescPermutes(approved, key);
    var n := if |sorted| <= 10 then |sorted| else 10;
    var p := Popular(rows);
    assert p == sorted[..n];
    SortedPrefix(sorted, key, n);
    forall i | 0 <= i < |p| ensures p[i] in approved {
      assert p[i] in multiset(sorted);
    }
    forall x | x in approved ensures x in sorted {
      assert x in multiset(sorted);
    }
  }

  // ----- tag distribution

  /** A tag and the statuses of the navigations its links point at. */
  datatype TagLinks = TagLinks(name: string, linkedStatuses: seq<string>)

  datatype TagCount = TagCount(name: string, count: nat)

  function CountKey(c: TagCount): int {
    c.count
  }

  function ApprovedLinks(statuses: seq<string>): (n: nat)
    ensures n <= |statuses|
    decreases |statuses|
  {
    if statuses == [] then 0
    else ApprovedLinks(statuses[..|statuses| - 1]) + (if statuses[|statuses| - 1] == "approved" then 1 else 0)
  }

  function TagCounts(tags: seq<TagLinks>): (r: seq<TagCount>)
    ensures |r| == |tags|
    ensures forall i | 0 <= i < |tags| :: r[i] == TagCount(tags[i].name, ApprovedLinks(tags[i].linkedStatuses))
  {
    seq(|tags|, i requires 0 <= i < |tags| => TagCount(tags[i].name, ApprovedLinks(tags[i].linkedStatuses)))
  }

  /** `tagStats.map(...).sort((a, b) => b.count - a.count)`. */
  function TagDistribution(tags: seq<TagLinks>): seq<TagCount> {
    SortDesc(TagCounts(tags), CountKey)
  }

  /** The distribution has one entry per tag, counting its links to approved
      navigations, largest count first, tags with the same count in their
      original order. */
  lemma TagDistributionMeaning(tags: seq<TagLinks>, k: int)
    ensures SortedDesc(TagDistribution(tags), CountKey)
    ensures multiset(TagDistribution(tags)) == multiset(TagCounts(tags))
    ensures WithKey(TagDistribution(tags), CountKey, k)
         == WithKey(TagCounts(tags), CountKey, k)
  {
    var key := CountKey;
    SortDescSorted(TagCounts(tags), key);
    SortDescPermutes(TagCounts(tags), key);
    SortDescStable(TagCounts(tags), key, k);
  }
}
