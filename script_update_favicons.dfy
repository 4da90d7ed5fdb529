/** The `update-favicons` maintenance script: downloads and stores a favicon for
    up to 50 navigations that have no icon or no stored icon, one after another,
    counting successes and failures. `storeAvailable` says whether creating the
    icon row for a given navigation goes through, `dbError` the error updating
    that navigation raises (`None` when it goes through). */
module ScriptUpdateFavicons {
  import opened Wrappers
  import opened Strings
  import opened Store
  import opened FaviconDownloader

  const BatchSize: nat := 50

  datatype Env = Env(web: Web, storeAvailable: nat -> bool, dbError: nat -> Option<string>)

  /** `{ icon: null }`, `{ icon: "" }` or `{ iconId: null }`. */
  predicate NeedsIcon(nav: Navigation) {
    !Truthy(nav.icon) || nav.iconId.None?
  }

  function Selected(rows: seq<Navigation>): seq<Navigation> {
    FindMany(rows, NeedsIcon, BatchSize)
  }

  /** The icon the pipeline downloads for a navigation. */
  function Fetched(nav: Navigation, env: Env): Option<IconBlob> {
    FirstIcon(IconCandidates(nav.url, env.web), env.web.icon)
  }

  /** The pipeline stored an icon for the navigation. */
  predicate Saved(nav: Navigation, env: Env) {
    Fetched(nav, env).Some? && env.storeAvailable(nav.id)
  }

  /** The navigation counts as a success: an icon was stored and the record update
      went through. */
  predicate Succeeds(nav: Navigation, env: Env) {
    Saved(nav, env) && env.dbError(nav.id).None?
  }

  /** The icons stored while processing `navs`, in order. */
  function Downloads(navs: seq<Navigation>, env: Env): (r: seq<IconBlob>)
    ensures |r| <= |navs|
    decreases |navs|
  {
    if navs == [] then []
    else
      var last := navs[|navs| - 1];
      Downloads(navs[..|navs| - 1], env) + (if Saved(last, env) then [Fetched(last, env).value] else [])
  }

  function CountSucceeds(navs: seq<Navigation>, env: Env): (n: nat)
    ensures n <= |navs|
    decreases |navs|
  {
    if navs == [] then 0
    else CountSucceeds(navs[..|navs| - 1], env) + (if Succeeds(navs[|navs| - 1], env) then 1 else 0)
  }

  /** The ids of the navigations in `navs` that succeed. */
  function SucceededIds(navs: seq<Navigation>, env: Env): set<nat>
    decreases |navs|
  {
    if navs == [] then {}
    else SucceededIds(navs[..|navs| - 1], env) + (if Succeeds(navs[|navs| - 1], env) then {navs[|navs| - 1].id} else {})
  }

  /** Every success stored exactly one icon, but an icon is also stored when the
      record update then fails, so the store can grow by more than the number of
      successes; it grows by exactly that number when no update fails. */
  lemma {:induction false} DownloadsCoverSuccesses(navs: seq<Navigation>, env: Env)
    ensures CountSucceeds(navs, env) <= |Downloads(navs, env)|
    ensures (forall i | 0 <= i < |navs| :: env.dbError(navs[i].id).None?) ==>
      CountSucceeds(navs, env) == |Downloads(navs, env)|
    decreases |navs|
  {
    if navs != [] {
      var init := navs[..|navs| - 1];
      DownloadsCoverSuccesses(init, env);
      assert forall i | 0 <= i < |init| :: init[i] == navs[i];
    }
  }

  /** Extending the processed prefix by one navigation. */
  lemma PrefixStep(navs: seq<Navigation>, i: nat, env: Env)
    requires i < |navs|
    ensures Ids(navs[..i + 1]) == Ids(navs[..i]) + {navs[i].id}
    ensures SucceededIds(navs[..i + 1], env) == SucceededIds(navs[..i], env) + (if Succeeds(navs[i], env) then {navs[i].id} else {})
    ensures Downloads(navs[..i + 1], env) == Downloads(navs[..i], env) + (if Saved(navs[i], env) then [Fetched(navs[i], env).value] else [])
    ensures CountSucceeds(navs[..i + 1], env) == CountSucceeds(navs[..i], env) + (if Succeeds(navs[i], env) then 1 else 0)
  {
    assert navs[..i + 1][..i] == navs[..i];
  }

  /** An id is among the succeeded ones exactly when some navigation of
      `navs` with that id succeeds. */
  lemma {:induction false} SucceededIdsMeaning(navs: seq<Navigation>, env: Env, id: nat)
    ensures id in SucceededIds(navs, env) <==> exists i | 0 <= i < |navs| :: navs[i].id == id && Succeeds(navs[i], env)
    decreases |navs|
  {
    if navs != [] {
      var init := navs[..|navs| - 1];
      SucceededIdsMeaning(init, env, id);
      assert forall i | 0 <= i < |init| :: init[i] == navs[i];
    }
  }

  /** `now` is `row` pointing at a stored icon, added to `blobs` at or after
      position `base`, that is the icon downloaded for `row`. */
  predicate Updated(row: Navigation, now: Navigation, blobs: seq<IconBlob>, base: nat, env: Env) {
    now.iconId.Some? && base <= now.iconId.value < |blobs| &&
    now == row.(icon := Some(IconUrl(now.iconId.value)), iconId := now.iconId) &&
    Fetched(row, env).Some? && blobs[now.iconId.value] == Fetched(row, env).value
  }

  /** Only processed navigations succeed; every one that succeeded has been
      updated, and every other row, unprocessed or failed, is untouched. */
  predicate Progress(before: seq<Navigation>, rows: seq<Navigation>, blobs: seq<IconBlob>, base: nat,
                     processed: set<nat>, succeeded: set<nat>, env: Env)
  {
    |rows| == |before| && succeeded <= processed &&
    (forall j | 0 <= j < |before| && before[j].id in succeeded :: Updated(before[j], rows[j], blobs, base, env)) &&
    (forall j | 0 <= j < |before| && before[j].id !in succeeded :: rows[j] == before[j])
  }

  /** After the batch over `navs`, a row points at its newly stored icon when
      its navigation was selected and succeeded, and is exactly as before
      otherwise: unselected, no icon found, the icon row not stored, or the
      record update throwing. */
  lemma RowOutcome(before: seq<Navigation>, rows: seq<Navigation>, blobs: seq<IconBlob>, base: nat,
                   navs: seq<Navigation>, env: Env, j: nat)
    requires Progress(before, rows, blobs, base, Ids(navs), SucceededIds(navs, env), env)
    requires DistinctIds(before) && (forall i | 0 <= i < |navs| :: navs[i] in before) && j < |before|
    ensures before[j] in navs && Succeeds(before[j], env) ==> Updated(before[j], rows[j], blobs, base, env)
    ensures !(before[j] in navs && Succeeds(before[j], env)) ==> rows[j] == before[j]
  {
    SucceededIdsMeaning(navs, env, before[j].id);
    if before[j].id in SucceededIds(navs, env) {
      var i :| 0 <= i < |navs| && navs[i].id == before[j].id && Succeeds(navs[i], env);
      var j' :| 0 <= j' < |before| && before[j'] == navs[i];
      assert j' == j;
    }
  }

  lemma ProgressKeepsIds(before: seq<Navigation>, rows: seq<Navigation>, blobs: seq<IconBlob>, base: nat,
                         processed: set<nat>, succeeded: set<nat>, env: Env, j: nat)
    requires Progress(before, rows, blobs, base, processed, succeeded, env) && j < |before|
    ensures rows[j].id == before[j].id && rows[j].url == before[j].url
  {
  }

  /** Storing a further icon keeps the rows already updated pointing at theirs. */
  lemma ProgressExtendBlobs(before: seq<Navigation>, rows: seq<Navigation>, blobs: seq<IconBlob>, base: nat,
                            processed: set<nat>, succeeded: set<nat>, env: Env, more: seq<IconBlob>)
    requires Progress(before, rows, blobs, base, processed, succeeded, env)
    ensures Progress(before, rows, blobs + more, base, processed, succeeded, env)
  {
    forall j | 0 <= j < |before| && Updated(before[j], rows[j], blobs, base, env)
      ensures Updated(before[j], rows[j], blobs + more, base, env)
    {
      assert (blobs + more)[rows[j].iconId.value] == blobs[rows[j].iconId.value];
    }
  }

  /** The row of the processed navigation is updated to point at the icon just
      stored at position `k`. */
  lemma ProgressUpdate(before: seq<Navigation>, rows: seq<Navigation>, blobs: seq<IconBlob>, base: nat,
                       processed: set<nat>, succeeded: set<nat>, env: Env, j0: nat, k: nat)
    requires Progress(before, rows, blobs, base, processed, succeeded, env)
    requires DistinctIds(before) && j0 < |before|
    requires Fetched(before[j0], env).Some? && base <= k < |blobs| && blobs[k] == Fetched(before[j0], env).value
    ensures var now := rows[j0].(icon := Some(IconUrl(k)), iconId := Some(k));
      Progress(before, rows[j0 := now], blobs, base, processed + {before[j0].id}, succeeded + {before[j0].id}, env)
  {
    var now := rows[j0].(icon := Some(IconUrl(k)), iconId := Some(k));
    assert now == before[j0].(icon := Some(IconUrl(k)), iconId := Some(k));
    assert Updated(before[j0], now, blobs, base, env);
  }

  lemma ProgressWiden(before: seq<Navigation>, rows: seq<Navigation>, blobs: seq<IconBlob>, base: nat,
                      processed: set<nat>, succeeded: set<nat>, env: Env, id: nat)
    requires Progress(before, rows, blobs, base, processed, succeeded, env)
    ensures Progress(before, rows, blobs, base, processed + {id}, succeeded, env)
  {
  }

  /** The body of the loop for one navigation: download and store its icon,
      point the record at it, and report whether both went through. */
  method ProcessNavigation(table: NavigationTable, store: IconStore, nav: Navigation, env: Env,
                           ghost before: seq<Navigation>, ghost base: nat,
                           ghost processed: set<nat>, ghost succeeded: set<nat>, ghost j0: nat)
    returns (success: bool)
    requires table.Valid() && j0 < |before| && before[j0] == nav && DistinctIds(before)
    requires base <= |store.blobs| && Progress(before, table.rows, store.blobs, base, processed, succeeded, env)
    modifies table, store
    ensures table.Valid() && table.nextId == old(table.nextId)
    ensures success == Succeeds(nav, env)
    ensures store.blobs == old(store.blobs) + (if Saved(nav, env) then [Fetched(nav, env).value] else [])
    ensures Progress(before, table.rows, store.blobs, base, processed + {nav.id},
                     succeeded + (if Succeeds(nav, env) then {nav.id} else {}), env)
  {
    ghost var k := |store.blobs|;
    ProgressExtendBlobs(before, table.rows, store.blobs, base, processed, succeeded, env,
                        if Saved(nav, env) then [Fetched(nav, env).value] else []);
    var iconResult := DownloadAndSaveFavicon(nav.url, env.web, store, env.storeAvailable(nav.id));
    if iconResult.Some? {
      ghost var rows := table.rows;
      var error := UpdateNavigationIcon(table, nav.id, iconResult.value, env.dbError(nav.id));
      ProgressKeepsIds(before, rows, store.blobs, base, processed, succeeded, env, j0);
      if error.None? {
        ghost var j := FindNavigation(rows, nav.id).value;
        ProgressKeepsIds(before, rows, store.blobs, base, processed, succeeded, env, j);
        assert j == j0;
        ProgressUpdate(before, rows, store.blobs, base, processed, succeeded, env, j0, k);
        success := true;
      } else {
        ProgressWiden(before, rows, store.blobs, base, processed, succeeded, env, nav.id);
        success := false;
      }
    } else {
      ProgressWiden(before, table.rows, store.blobs, base, processed, succeeded, env, nav.id);
      success := false;
    }
  }

  /** The `for` loop over the selected navigations, one `ProcessNavigation`
      after another, counting successes and failures. */
  method RunBatch(table: NavigationTable, store: IconStore, navigations: seq<Navigation>, env: Env,
                  ghost before: seq<Navigation>)
    returns (successCount: nat, failCount: nat)
    requires table.Valid() && table.rows == before
    requires forall i | 0 <= i < |navigations| :: navigations[i] in before
    modifies table, store
    ensures table.Valid() && table.nextId == old(table.nextId)
    ensures successCount + failCount == |navigations|
    ensures successCount == CountSucceeds(navigations, env)
    ensures store.blobs == old(store.blobs) + Downloads(navigations, env)
    ensures Progress(before, table.rows, store.blobs, |old(store.blobs)|,
                     Ids(navigations), SucceededIds(navigations, env), env)
  {
    ghost var blobs0 := store.blobs;
    successCount, failCount := 0, 0;
    ghost var processed: set<nat> := {};
    ghost var succeeded: set<nat> := {};
    for i := 0 to |navigations|
      invariant table.Valid() && table.nextId == old(table.nextId)
      invariant processed == Ids(navigations[..i]) && succeeded == SucceededIds(navigations[..i], env)
      invariant store.blobs == blobs0 + Downloads(navigations[..i], env)
      invariant successCount == CountSucceeds(navigations[..i], env) && successCount + failCount == i
      invariant Progress(before, table.rows, store.blobs, |blobs0|, processed, succeeded, env)
    {
      var nav := navigations[i];
      ghost var j0 :| 0 <= j0 < |before| && before[j0] == nav;
      PrefixStep(navigations, i, env);
      ghost var stored := Downloads(navigations[..i], env);
      ghost var added := if Saved(nav, env) then [Fetched(nav, env).value] else [];
      var success := ProcessNavigation(table, store, nav, env, before, |blobs0|, processed, succeeded, j0);
      assert (blobs0 + stored) + added == blobs0 + (stored + added);
      if success {
        successCount := successCount + 1;
      } else {
        failCount := failCount + 1;
      }
      processed := processed + {nav.id};
      succeeded := succeeded + (if Succeeds(nav, env) then {nav.id} else {});
    }
    assert navigations[..|navigations|] == navigations;
  }

  /** The script. */
  method UpdateFavicons(table: NavigationTable, store: IconStore, env: Env)
    returns (successCount: nat, failCount: nat)
    requires table.Valid()
    modifies table, store
    ensures table.Valid() && table.nextId == old(table.nextId)
    ensures successCount + failCount == |Selected(old(table.rows))|
    ensures successCount == CountSucceeds(Selected(old(table.rows)), env)
    ensures store.blobs == old(store.blobs) + Downloads(Selected(old(table.rows)), env)
    ensures Progress(old(table.rows), table.rows, store.blobs, |old(store.blobs)|,
                     Ids(Selected(old(table.rows))), SucceededIds(Selected(old(table.rows)), env), env)
  {
    var navigations := Selected(table.rows);
    ghost var before := table.rows;
    FindManySelects(before, NeedsIcon, BatchSize);
    successCount, failCount := RunBatch(table, store, navigations, env, before);
  }
}
