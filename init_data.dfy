/** The seeding script: creates the tags of a fixed list of sample sites, then
    each site that is not there yet. `hostname` is the URL parser (`None` when
    `new URL` throws), `createFails` says which sites the database refuses,
    `visits` stands for the random visit count of the site at a position, and
    `now` and `defaultStatus` are the values the schema fills in. */
module InitData {
  import opened Wrappers
  import opened Store

  datatype Site = Site(title: string, url: string, shortDescription: string, description: string, tags: seq<string>)

  datatype Env = Env(hostname: string -> Option<string>, createFails: string -> bool, visits: nat -> int,
                     now: int, defaultStatus: string)

  /** The names occurring in `s`. */
  function Elems(s: seq<string>): set<string> {
    set t | t in s
  }

  lemma ElemsAppend(s: seq<string>, x: string)
    ensures Elems(s + [x]) == Elems(s) + {x}
  {
    assert forall t :: t in s + [x] <==> t in s || t == x;
  }

  /** The tag names of the given sites, each once. */
  ghost function AllTagNames(sites: seq<Site>): set<string>
    decreases |sites|
  {
    if sites == [] then {} else AllTagNames(sites[..|sites| - 1]) + Elems(sites[|sites| - 1].tags)
  }

  predicate Distinct(s: seq<string>) {
    forall i, j | 0 <= i < j < |s| :: s[i] != s[j]
  }

  /** `allTags`: inserting into a `Set` keeps the first occurrence of each
      name. */
  method CollectTags(sites: seq<Site>) returns (allTags: seq<string>)
    ensures Distinct(allTags)
    ensures Elems(allTags) == AllTagNames(sites)
  {
    allTags := [];
    for i := 0 to |sites|
      invariant Distinct(allTags)
      invariant Elems(allTags) == AllTagNames(sites[..i])
    {
      var site := sites[i];
      for j := 0 to |site.tags|
        invariant Distinct(allTags)
        invariant Elems(allTags) == AllTagNames(sites[..i]) + Elems(site.tags[..j])
      {
        ElemsAppend(site.tags[..j], site.tags[j]);
        ElemsAppend(allTags, site.tags[j]);
        if site.tags[j] !in allTags {
          allTags := allTags + [site.tags[j]];
        }
        assert site.tags[..j + 1] == site.tags[..j] + [site.tags[j]];
      }
      assert site.tags[..|site.tags|] == site.tags;
      assert sites[..i + 1][..i] == sites[..i];
    }
    assert sites[..|sites|] == sites;
  }

  /** The tag table holds a tag with this id and name. */
  predicate HasTag(tags: seq<Tag>, name: string, id: nat) {
    exists k | 0 <= k < |tags| :: tags[k] == Tag(id, name)
  }

  /** The upsert loop: one upsert per name, and `tagMap` maps each name to the
      id of the stored tag of that name. Earlier tags stay where they are. */
  method CreateTags(table: TagTable, allTags: seq<string>) returns (tagMap: map<string, nat>)
    requires table.Valid() && Distinct(allTags)
    modifies table
    ensures table.Valid()
    ensures tagMap.Keys == Elems(allTags)
    ensures forall name | name in tagMap :: HasTag(table.tags, name, tagMap[name])
    ensures |old(table.tags)| <= |table.tags| && table.tags[..|old(table.tags)|] == old(table.tags)
    ensures forall k | |old(table.tags)| <= k < |table.tags| :: table.tags[k].name in allTags
  {
    tagMap := map[];
    ghost var before := table.tags;
    for i := 0 to |allTags|
      invariant table.Valid()
      invariant tagMap.Keys == Elems(allTags[..i])
      invariant forall name | name in tagMap :: HasTag(table.tags, name, tagMap[name])
      invariant |before| <= |table.tags| && table.tags[..|before|] == before
      invariant forall k | |before| <= k < |table.tags| :: table.tags[k].name in allTags[..i]
    {
      var tagName := allTags[i];
      ghost var prev := table.tags;
      var tag := table.Upsert(tagName);
      assert prev <= table.tags;
      forall name | name in tagMap ensures HasTag(table.tags, name, tagMap[name]) {
        var k :| 0 <= k < |prev| && prev[k] == Tag(tagMap[name], name);
        assert table.tags[k] == prev[k];
      }
      if FindTagByName(prev, tagName).Some? {
        assert table.tags[FindTagByName(prev, tagName).value] == tag;
      } else {
        assert table.tags[|prev|] == tag;
      }
      tagMap := tagMap[tagName := tag.id];
      assert allTags[..i + 1] == allTags[..i] + [tagName];
      assert table.tags[..|before|] == prev[..|before|];
    }
    assert allTags[..|allTags|] == allTags;
  }

  /** `site.tags.map(name => tagMap.get(name)!)`; a name without an entry makes
      the create fail. */
  function TagIdsOf(names: seq<string>, tagMap: map<string, nat>): (r: Option<seq<nat>>)
    ensures r.Some? <==> forall k | 0 <= k < |names| :: names[k] in tagMap
    ensures r.Some? ==> |r.value| == |names| && forall k | 0 <= k < |names| :: r.value[k] == tagMap[names[k]]
  {
    if forall k | 0 <= k < |names| :: names[k] in tagMap
    then Some(seq(|names|, k requires 0 <= k < |names| => tagMap[names[k]]))
    else None
  }

  function GoogleIcon(hostname: string): string {
    "https://www.google.com/s2/favicons?domain=" + hostname + "&sz=64"
  }

  predicate UrlExists(rows: seq<Navigation>, url: string) {
    exists k | 0 <= k < |rows| :: rows[k].url == url
  }

  datatype SeedState = SeedState(rows: seq<Navigation>, nextId: nat, created: nat, skipped: nat)

  function SiteInput(site: Site, hostname: string, visits: int, env: Env): NavigationInput {
    NavigationInput(site.title, site.url, Some(site.shortDescription), Some(site.description),
                    Some(GoogleIcon(hostname)), visits, env.now, env.defaultStatus)
  }

  /** One site: skipped when its url is present, created when its url parses,
      its tags are known and the database accepts it, and otherwise dropped
      without counting it. */
  function Step(st: SeedState, site: Site, index: nat, tagMap: map<string, nat>, env: Env): SeedState {
    if UrlExists(st.rows, site.url) then st.(skipped := st.skipped + 1)
    else match env.hostname(site.url)
      case None => st
      case Some(h) =>
        match TagIdsOf(site.tags, tagMap)
        case None => st
        case Some(ids) =>
          if env.createFails(site.url) then st
          else SeedState(st.rows + [NewNavigation(st.nextId, SiteInput(site, h, env.visits(index), env), ids)],
                         st.nextId + 1, st.created + 1, st.skipped)
  }

  /** The state after the given sites, those before `sites` being `start`. */
  function Run(start: SeedState, sites: seq<Site>, tagMap: map<string, nat>, env: Env): SeedState
    decreases |sites|
  {
    if sites == [] then start
    else Step(Run(start, sites[..|sites| - 1], tagMap, env), sites[|sites| - 1], |sites| - 1, tagMap, env)
  }

  /** Created and skipped sites together never outnumber the sites, rows are
      only added, and each created site adds exactly one row. */
  lemma {:induction false} RunCounts(start: SeedState, sites: seq<Site>, tagMap: map<string, nat>, env: Env)
    ensures var st := Run(start, sites, tagMap, env);
      st.created + st.skipped <= start.created + start.skipped + |sites| &&
      |st.rows| == |start.rows| + (st.created - start.created) && st.created >= start.created &&
      st.rows[..|start.rows|] == start.rows
    decreases |sites|
  {
    if sites != [] {
      RunCounts(start, sites[..|sites| - 1], tagMap, env);
      var mid := Run(start, sites[..|sites| - 1], tagMap, env);
      assert (mid.rows + [NewNavigation(mid.nextId, SiteInput(sites[|sites| - 1], "", 0, env), [])])[..|start.rows|] ==
        mid.rows[..|start.rows|];
    }
  }

  predicate DistinctUrls(rows: seq<Navigation>) {
    forall i, j | 0 <= i < j < |rows| :: rows[i].url != rows[j].url
  }

  /** The skip rule keeps urls unique: running the seed twice, or a list that
      names a site twice, never stores a url twice. */
  lemma {:induction false} RunKeepsUrlsDistinct(start: SeedState, sites: seq<Site>, tagMap: map<string, nat>, env: Env)
    requires DistinctUrls(start.rows)
    ensures DistinctUrls(Run(start, sites, tagMap, env).rows)
    decreases |sites|
  {
    if sites != [] {
      RunKeepsUrlsDistinct(start, sites[..|sites| - 1], tagMap, env);
    }
  }

  /** Every row the seed creates carries Google's icon for its host and one tag
      link per tag of its site. */
  lemma StepCreates(st: SeedState, site: Site, index: nat, tagMap: map<string, nat>, env: Env)
    requires Step(st, site, index, tagMap, env).created == st.created + 1
    ensures var nav := Step(st, site, index, tagMap, env).rows[|st.rows|];
      !UrlExists(st.rows, site.url) && env.hostname(site.url).Some? && !env.createFails(site.url) &&
      nav.url == site.url && nav.icon == Some(GoogleIcon(env.hostname(site.url).value)) &&
      |nav.tagIds| == |site.tags| && (forall k | 0 <= k < |site.tags| :: nav.tagIds[k] == tagMap[site.tags[k]])
  {
  }

  /** The loop over the sites. A site whose creation throws is logged and
      counted nowhere. */
  method CreateSites(table: NavigationTable, sites: seq<Site>, tagMap: map<string, nat>, env: Env)
    returns (created: nat, skipped: nat)
    requires table.Valid()
    modifies table
    ensures table.Valid()
    ensures var st := Run(SeedState(old(table.rows), old(table.nextId), 0, 0), sites, tagMap, env);
      table.rows == st.rows && table.nextId == st.nextId && created == st.created && skipped == st.skipped
  {
    created := 0;
    skipped := 0;
    ghost var start := SeedState(table.rows, table.nextId, 0, 0);
    for i := 0 to |sites|
      invariant table.Valid()
      invariant SeedState(table.rows, table.nextId, created, skipped) == Run(start, sites[..i], tagMap, env)
    {
      assert sites[..i + 1][..i] == sites[..i];
      created, skipped := CreateSite(table, sites[i], i, tagMap, env, created, skipped);
    }
    assert sites[..|sites|] == sites;
  }

  /** The body of the loop for the site at position `index`; each `return` is a
      `continue` of the loop. */
  method CreateSite(table: NavigationTable, site: Site, index: nat, tagMap: map<string, nat>, env: Env,
                    created0: nat, skipped0: nat)
    returns (created: nat, skipped: nat)
    requires table.Valid()
    modifies table
    ensures table.Valid()
    ensures SeedState(table.rows, table.nextId, created, skipped) ==
      Step(SeedState(old(table.rows), old(table.nextId), created0, skipped0), site, index, tagMap, env)
  {
    created, skipped := created0, skipped0;
    var existing := FindUrl(table.rows, site.url);
    if existing {
      skipped := skipped + 1;
      return;
    }
    var h := env.hostname(site.url);
    if h.None? {
      return;
    }
    var ids := TagIdsOf(site.tags, tagMap);
    if ids.None? || env.createFails(site.url) {
      return;
    }
    var navigation := table.Create(SiteInput(site, h.value, env.visits(index), env), ids.value);
    created := created + 1;
  }

  /** `findFirst({ where: { url } })` taken as a yes/no answer. */
  method FindUrl(rows: seq<Navigation>, url: string) returns (found: bool)
    ensures found <==> UrlExists(rows, url)
  {
    found := false;
    for k := 0 to |rows|
      invariant found <==> UrlExists(rows[..k], url)
    {
      if rows[k].url == url {
        found := true;
      }
      assert rows[..k + 1] == rows[..k] + [rows[k]];
    }
    assert rows[..|rows|] == rows;
  }

  /** `initData`. */
  method InitData(tags: TagTable, table: NavigationTable, sites: seq<Site>, env: Env)
    returns (tagMap: map<string, nat>, created: nat, skipped: nat)
    requires tags.Valid() && table.Valid()
    modifies tags, table
    ensures tags.Valid() && table.Valid()
    ensures tagMap.Keys == AllTagNames(sites)
    ensures forall name | name in tagMap :: HasTag(tags.tags, name, tagMap[name])
    ensures var st := Run(SeedState(old(table.rows), old(table.nextId), 0, 0), sites, tagMap, env);
      table.rows == st.rows && created == st.created && skipped == st.skipped
    ensures created + skipped <= |sites|
  {
    var allTags := CollectTags(sites);
    tagMap := CreateTags(tags, allTags);
    created, skipped := CreateSites(table, sites, tagMap, env);
    RunCounts(SeedState(old(table.rows), old(table.nextId), 0, 0), sites, tagMap, env);
  }
}
