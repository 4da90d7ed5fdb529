/** `POST /api/cron/update-favicons`: points navigations that have no icon at a
    favicon URL, one navigation after another, isolating each one's failure.
    `origin` is the URL parser, `head` the outcome of the HEAD request for a URL
    (`None` when it throws) and `dbError` the error the database raises when a
    given navigation is updated (`None` when the update goes through). */
module CronUpdateFavicons {
  import opened Wrappers
  import opened Strings
  import opened Store
  import FaviconDownloader

  const BatchSize: nat := 50

  function GoogleFaviconUrl(origin: string): string {
    "https://www.google.com/s2/favicons?domain=" + origin + "&sz=64"
  }

  /** `getFaviconUrl`: the site's own favicon.ico when a HEAD request for it is
      ok, Google's favicon service otherwise, and nothing when parsing the URL or
      the request throws. */
  function GetFaviconUrl(url: string, origin: string -> Option<string>, head: string -> Option<bool>)
    : (r: Option<string>)
    ensures r.None? <==> origin(url).None? || head(FaviconDownloader.FaviconIco(origin(url).value)).None?
    ensures r.Some? && head(FaviconDownloader.FaviconIco(origin(url).value)) == Some(true) ==>
      r.value == FaviconDownloader.FaviconIco(origin(url).value)
    ensures r.Some? && head(FaviconDownloader.FaviconIco(origin(url).value)) == Some(false) ==>
      r.value == GoogleFaviconUrl(origin(url).value)
  {
    match origin(url)
    case None => None
    case Some(domain) =>
      var faviconUrl := FaviconDownloader.FaviconIco(domain);
      match head(faviconUrl)
      case None => None
      case Some(ok) => if ok then Some(faviconUrl) else Some(GoogleFaviconUrl(domain))
  }

  /** `{ icon: null }` or `{ icon: "" }`. */
  predicate MissingIcon(nav: Navigation) {
    !Truthy(nav.icon)
  }

  function Selected(rows: seq<Navigation>): seq<Navigation> {
    FindMany(rows, MissingIcon, BatchSize)
  }

  datatype ItemResult = ItemResult(id: nat, title: string, success: bool, error: Option<string>)

  datatype Summary = Summary(total: nat, updated: nat, results: seq<ItemResult>)

  datatype CronResponse = Unauthorized | Completed(summary: Summary)

  datatype Env = Env(origin: string -> Option<string>, head: string -> Option<bool>, dbError: nat -> Option<string>)

  /** The result the loop records for one navigation. */
  function ItemOutcome(nav: Navigation, env: Env): (r: ItemResult)
    ensures r.id == nav.id && r.title == nav.title
    ensures r.success <==> GetFaviconUrl(nav.url, env.origin, env.head).Some? && env.dbError(nav.id).None?
    ensures r.error.Some? <==> GetFaviconUrl(nav.url, env.origin, env.head).Some? && env.dbError(nav.id).Some?
  {
    match GetFaviconUrl(nav.url, env.origin, env.head)
    case None => ItemResult(nav.id, nav.title, false, None)
    case Some(_) =>
      match env.dbError(nav.id)
      case Some(e) => ItemResult(nav.id, nav.title, false, Some(e))
      case None => ItemResult(nav.id, nav.title, true, None)
  }

  /** What a row of the table looks like after the batch, given the ids of the
      navigations that were processed. */
  function AfterBatch(row: Navigation, processed: set<nat>, env: Env): Navigation {
    if row.id in processed && ItemOutcome(row, env).success
    then row.(icon := GetFaviconUrl(row.url, env.origin, env.head))
    else row
  }

  function CountSuccess(results: seq<ItemResult>): (n: nat)
    ensures n <= |results|
    decreases |results|
  {
    if results == [] then 0
    else CountSuccess(results[..|results| - 1]) + (if results[|results| - 1].success then 1 else 0)
  }

  /** The number of updated navigations never exceeds the number selected, and it
      is the number of items that came out as a success. */
  lemma {:induction false} UpdatedCountsSuccesses(results: seq<ItemResult>)
    ensures CountSuccess(results) <= |results|
    ensures CountSuccess(results) == |results| <==> forall k | 0 <= k < |results| :: results[k].success
    ensures CountSuccess(results) == 0 <==> forall k | 0 <= k < |results| :: !results[k].success
    decreases |results|
  {
    if results != [] {
      var init := results[..|results| - 1];
      UpdatedCountsSuccesses(init);
      assert forall k | 0 <= k < |init| :: init[k] == results[k];
    }
  }

  /** At most 50 navigations are selected, and each of them has no icon. */
  lemma SelectionLimits(rows: seq<Navigation>)
    ensures |Selected(rows)| <= BatchSize
    ensures forall i | 0 <= i < |Selected(rows)| :: MissingIcon(Selected(rows)[i]) && Selected(rows)[i] in rows
  {
    FindManySelects(rows, MissingIcon, BatchSize);
  }

  /** After the batch a row is either untouched, or it was processed, its update
      went through, and it now carries a non-empty icon URL with every other field
      as before. */
  lemma AfterBatchMeaning(row: Navigation, processed: set<nat>, env: Env)
    ensures var r := AfterBatch(row, processed, env);
      r == row ||
      (row.id in processed && ItemOutcome(row, env).success && Truthy(r.icon) && r == row.(icon := r.icon))
  {
    var r := AfterBatch(row, processed, env);
    if r != row {
      match env.origin(row.url)
      case Some(d) =>
        assert |FaviconDownloader.FaviconIco(d)| > 0;
        assert |GoogleFaviconUrl(d)| > 0;
      case None =>
    }
  }

  lemma AfterBatchKeepsId(row: Navigation, processed: set<nat>, env: Env)
    ensures AfterBatch(row, processed, env).id == row.id
    ensures AfterBatch(row, processed, env).url == row.url
  {
  }

  /** One navigation of the batch: the table before it is processed agrees with
      `AfterBatch` over the earlier ones, and the table after it with `AfterBatch`
      over those and this one. */
  lemma BatchStep(before: seq<Navigation>, rows: seq<Navigation>, processed: set<nat>, j0: nat, env: Env)
    requires DistinctIds(before) && |rows| == |before| && j0 < |before|
    requires forall j | 0 <= j < |before| :: rows[j] == AfterBatch(before[j], processed, env)
    ensures var nav := before[j0];
      var rows' := if ItemOutcome(nav, env).success
        then rows[j0 := rows[j0].(icon := GetFaviconUrl(nav.url, env.origin, env.head))]
        else rows;
      forall j | 0 <= j < |before| :: rows'[j] == AfterBatch(before[j], processed + {nav.id}, env)
  {
  }

  /** The body of the loop for one navigation: find its favicon URL, store it,
      and report what happened without letting a failure escape. */
  method ProcessNavigation(table: NavigationTable, nav: Navigation, env: Env,
                           ghost before: seq<Navigation>, ghost processed: set<nat>, ghost j0: nat)
    returns (item: ItemResult)
    requires DistinctIds(before) && |table.rows| == |before| && j0 < |before| && before[j0] == nav
    requires forall j | 0 <= j < |before| :: table.rows[j] == AfterBatch(before[j], processed, env)
    modifies table
    ensures item == ItemOutcome(nav, env)
    ensures table.nextId == old(table.nextId) && |table.rows| == |before|
    ensures forall j | 0 <= j < |before| :: table.rows[j] == AfterBatch(before[j], processed + {nav.id}, env)
  {
    BatchStep(before, table.rows, processed, j0, env);
    var faviconUrl := GetFaviconUrl(nav.url, env.origin, env.head);
    if faviconUrl.Some? {
      var error := env.dbError(nav.id);
      if error.None? {
        var found := FindNavigation(table.rows, nav.id);
        // the row is there: the batch never changes an id
        AfterBatchKeepsId(before[j0], processed, env);
        assert table.rows[j0].id == nav.id;
        var j := found.value;
        AfterBatchKeepsId(before[j], processed, env);
        assert j == j0;
        table.rows := table.rows[j := table.rows[j].(icon := faviconUrl)];
        item := ItemResult(nav.id, nav.title, true, None);
      } else {
        item := ItemResult(nav.id, nav.title, false, Some(error.value));
      }
    } else {
      item := ItemResult(nav.id, nav.title, false, None);
    }
  }

  /** The `for` loop over the selected navigations, one `ProcessNavigation`
      after another. */
  method RunBatch(table: NavigationTable, navigations: seq<Navigation>, env: Env, ghost before: seq<Navigation>)
    returns (results: seq<ItemResult>)
    requires DistinctIds(before) && table.rows == before
    requires forall i | 0 <= i < |navigations| :: navigations[i] in before
    modifies table
    ensures table.nextId == old(table.nextId) && |table.rows| == |before|
    ensures |results| == |navigations|
    ensures forall k | 0 <= k < |results| :: results[k] == ItemOutcome(navigations[k], env)
    ensures forall j | 0 <= j < |before| :: table.rows[j] == AfterBatch(before[j], Ids(navigations), env)
  {
    results := [];
    ghost var processed: set<nat> := {};
    for i := 0 to |navigations|
      invariant table.nextId == old(table.nextId)
      invariant processed == Ids(navigations[..i])
      invariant |table.rows| == |before|
      invariant forall j | 0 <= j < |before| :: table.rows[j] == AfterBatch(before[j], processed, env)
      invariant |results| == i
      invariant forall k | 0 <= k < i :: results[k] == ItemOutcome(navigations[k], env)
    {
      var nav := navigations[i];
      ghost var j0 :| 0 <= j0 < |before| && before[j0] == nav;
      var item := ProcessNavigation(table, nav, env, before, processed, j0);
      results := results + [item];
      assert navigations[..i + 1][..i] == navigations[..i];
      processed := processed + {nav.id};
    }
    assert navigations[..|navigations|] == navigations;
  }

  /** The request handler. */
  method Post(authenticated: bool, table: NavigationTable, env: Env) returns (response: CronResponse)
    requires table.Valid()
    modifies table
    ensures table.Valid() && table.nextId == old(table.nextId)
    ensures !authenticated ==> response == Unauthorized && table.rows == old(table.rows)
    ensures authenticated ==> response.Completed?
    ensures authenticated ==> response.summary.total == |Selected(old(table.rows))|
    ensures authenticated ==>
      var results := response.summary.results;
      |results| == |Selected(old(table.rows))| &&
      (forall k | 0 <= k < |results| :: results[k] == ItemOutcome(Selected(old(table.rows))[k], env)) &&
      response.summary.updated == CountSuccess(results)
    ensures authenticated ==>
      |table.rows| == |old(table.rows)| &&
      forall j | 0 <= j < |table.rows| ::
        table.rows[j] == AfterBatch(old(table.rows)[j], Ids(Selected(old(table.rows))), env)
  {
    if !authenticated {
      return Unauthorized;
    }
    var navigations := Selected(table.rows);
    ghost var before := table.rows;
    SelectionLimits(before);
    var results := RunBatch(table, navigations, env, before);
    ValidAfterBatch(before, table.rows, Ids(navigations), env, table.nextId);
    var updated := CountSuccess(results);
    return Completed(Summary(|navigations|, updated, results));
  }

  lemma ValidAfterBatch(before: seq<Navigation>, rows: seq<Navigation>, processed: set<nat>, env: Env, next: nat)
    requires DistinctIds(before) && forall i | 0 <= i < |before| :: before[i].id < next
    requires |rows| == |before|
    requires forall j | 0 <= j < |before| :: rows[j] == AfterBatch(before[j], processed, env)
    ensures DistinctIds(rows) && forall i | 0 <= i < |rows| :: rows[i].id < next
  {
    forall j | 0 <= j < |rows| ensures rows[j].id == before[j].id {
      AfterBatchKeepsId(before[j], processed, env);
    }
  }
}
