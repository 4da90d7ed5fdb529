/** The visit-trend chart on the dashboard: the selected time range and the
    part of the trend it shows. Dates are milliseconds since the epoch; a
    trend entry's date is the start of its day. */
module ChartAreaInteractive {
  import opened Wrappers
  import opened Store

  datatype TrendItem = TrendItem(dateMs: int, visits: int)

  /** The days to go back for a time range, chosen by an if-chain over the
      default of 90. */
  method RangeDays(timeRange: string) returns (days: nat)
    ensures timeRange == "30d" ==> days == 30
    ensures timeRange == "7d" ==> days == 7
    ensures timeRange != "30d" && timeRange != "7d" ==> days == 90
  {
    days := 90;
    if timeRange == "30d" {
      days := 30;
    } else if timeRange == "7d" {
      days := 7;
    }
  }

  /** `visitTrend.filter(item => date >= startDate)`. */
  function InWindow(items: seq<TrendItem>, startMs: int): (r: seq<TrendItem>)
    ensures |r| <= |items|
    ensures forall k | 0 <= k < |r| :: r[k].dateMs >= startMs && r[k] in items
    decreases |items|
  {
    if items == [] then []
    else (if items[0].dateMs >= startMs then [items[0]] else []) + InWindow(items[1..], startMs)
  }

  /** `s` is `t` with some entries left out and the rest in their order. */
  predicate IsSubsequence(s: seq<TrendItem>, t: seq<TrendItem>)
    decreases |t|
  {
    if t == [] then s == []
    else (s != [] && s[0] == t[0] && IsSubsequence(s[1..], t[1..])) || IsSubsequence(s, t[1..])
  }

  /** The window keeps the trend's order and drops exactly the entries dated
      before its start. */
  lemma {:induction false} InWindowMeaning(items: seq<TrendItem>, startMs: int)
    ensures IsSubsequence(InWindow(items, startMs), items)
    ensures forall k | 0 <= k < |items| && items[k].dateMs >= startMs :: items[k] in InWindow(items, startMs)
    decreases |items|
  {
    if items != [] {
      var rest := items[1..];
      InWindowMeaning(rest, startMs);
      var r := InWindow(items, startMs);
      if items[0].dateMs >= startMs {
        assert r[0] == items[0] && r[1..] == InWindow(rest, startMs);
      } else {
        assert r == InWindow(rest, startMs);
      }
      forall k | 0 <= k < |items| && items[k].dateMs >= startMs ensures items[k] in r {
        if k > 0 {
          assert items[k] == rest[k - 1];
        }
      }
    }
  }

  /** The chart's data for the selected range at time `nowMs`; an absent or
      empty trend gives no data. */
  method FilteredData(visitTrend: Option<seq<TrendItem>>, timeRange: string, nowMs: int)
    returns (data: seq<TrendItem>)
    ensures visitTrend.None? || visitTrend.value == [] ==> data == []
    ensures visitTrend.Some? && visitTrend.value != [] && timeRange == "30d" ==>
      data == InWindow(visitTrend.value, nowMs - 30 * DayMs)
    ensures visitTrend.Some? && visitTrend.value != [] && timeRange == "7d" ==>
      data == InWindow(visitTrend.value, nowMs - 7 * DayMs)
    ensures visitTrend.Some? && visitTrend.value != [] && timeRange != "30d" && timeRange != "7d" ==>
      data == InWindow(visitTrend.value, nowMs - 90 * DayMs)
  {
    if visitTrend.None? || visitTrend.value == [] {
      return [];
    }
    var days := RangeDays(timeRange);
    var startMs := nowMs - days * DayMs;
    data := InWindow(visitTrend.value, startMs);
  }

  class ChartAreaInteractive {
    var timeRange: string

    constructor ()
      ensures timeRange == "90d"
    {
      timeRange := "90d";
    }

    /** The effect run when the viewport becomes or stops being mobile. */
    method OnMobileChange(isMobile: bool)
      modifies this
      ensures isMobile ==> timeRange == "7d"
      ensures !isMobile ==> timeRange == old(timeRange)
    {
      if isMobile {
        timeRange := "7d";
      }
    }
  }
}
