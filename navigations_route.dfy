/** `GET /api/navigations` and `POST /api/navigations`. The query result is the
    table filtered by a `where` record and ordered by an `orderBy` key; a
    database error is a parameter: `firstError` for the primary query and
    `retryError` for the query without the status filter. */
module NavigationsRoute {
  import opened Wrappers
  import opened Strings
  import opened Store
  import opened Sorting

  /** The `where` object: a status to match, a text to look for and a tag
      name some link must carry, each optional. */
  datatype Where = Where(status: Option<string>, text: Option<string>, tag: Option<string>)

  datatype OrderBy = VisitsDesc | CreatedAtDesc

  datatype DbError = DbError(message: string, code: Option<string>)

  datatype GetReply = NavigationList(navigations: seq<Navigation>) | FetchFailed

  /** `{ contains: q }` on an optional column: a `null` column never matches. */
  predicate ColumnContains(column: Option<string>, q: string) {
    column.Some? && Contains(column.value, q)
  }

  predicate MatchesText(nav: Navigation, q: string) {
    Contains(nav.title, q) || ColumnContains(nav.shortDescription, q) || ColumnContains(nav.description, q)
  }

  /** `tags: { some: { tag: { name } } }`: one of the navigation's links points
      at a tag of that name. */
  predicate HasTagNamed(nav: Navigation, tags: seq<Tag>, name: string) {
    exists i, j | 0 <= i < |nav.tagIds| && 0 <= j < |tags| :: tags[j].id == nav.tagIds[i] && tags[j].name == name
  }

  predicate Matches(where: Where, tags: seq<Tag>, nav: Navigation) {
    (where.status.Some? ==> nav.status == where.status.value) &&
    (where.text.Some? ==> MatchesText(nav, where.text.value)) &&
    (where.tag.Some? ==> HasTagNamed(nav, tags, where.tag.value))
  }

  /** The `where` object the handler builds, field by field. */
  method BuildWhere(q: Option<string>, tag: Option<string>, withStatus: bool) returns (where: Where)
    ensures where.status == (if withStatus then Some("approved") else None)
    ensures Truthy(q) ==> where.text == q
    ensures !Truthy(q) ==> where.text.None?
    ensures Truthy(tag) ==> where.tag == tag
    ensures !Truthy(tag) ==> where.tag.None?
  {
    where := Where(None, None, None);
    if withStatus {
      where := where.(status := Some("approved"));
    }
    if Truthy(q) {
      where := where.(text := q);
    }
    if Truthy(tag) {
      where := where.(tag := tag);
    }
  }

  /** The ordering: visits for `sortBy=visits`, creation time otherwise. */
  function Order(sortBy: Option<string>): (o: OrderBy)
    ensures o == VisitsDesc <==> sortBy == Some("visits")
  {
    if sortBy == Some("visits") then VisitsDesc
    else if sortBy == Some("created") then CreatedAtDesc
    else CreatedAtDesc
  }

  function VisitsKey(nav: Navigation): int {
    nav.visits
  }

  function CreatedAtKey(nav: Navigation): int {
    nav.createdAt
  }

  function KeyOf(order: OrderBy): Navigation -> int {
    if order == VisitsDesc then VisitsKey else CreatedAtKey
  }

  /** `findMany({ where, orderBy })`; rows with equal keys keep table order. */
  function Query(rows: seq<Navigation>, tags: seq<Tag>, where: Where, order: OrderBy): seq<Navigation> {
    SortDesc(Filter(rows, (nav: Navigation) => Matches(where, tags, nav)), KeyOf(order))
  }

  /** The query returns exactly the matching rows, each as often as in the
      table, ordered by the key, largest first. */
  lemma QueryMeaning(rows: seq<Navigation>, tags: seq<Tag>, where: Where, order: OrderBy)
    ensures SortedDesc(Query(rows, tags, where, order), KeyOf(order))
    ensures multiset(Query(rows, tags, where, order)) == multiset(Filter(rows, (nav: Navigation) => Matches(where, tags, nav)))
    ensures forall nav | nav in Query(rows, tags, where, order) :: Matches(where, tags, nav) && nav in rows
    ensures forall i | 0 <= i < |rows| && Matches(where, tags, rows[i]) :: rows[i] in Query(rows, tags, where, order)
  {
    var pred := (nav: Navigation) => Matches(where, tags, nav);
    var matching := Filter(rows, pred);
    SortDescSorted(matching, KeyOf(order));
    SortDescPermutes(matching, KeyOf(order));
    forall nav | nav in Query(rows, tags, where, order) ensures Matches(where, tags, nav) && nav in rows {
      assert nav in multiset(matching);
    }
    forall i | 0 <= i < |rows| && Matches(where, tags, rows[i]) ensures rows[i] in Query(rows, tags, where, order) {
      FilterKeepsMatches(rows, pred, i);
      assert rows[i] in multiset(Query(rows, tags, where, order));
    }
  }

  /** The primary query only ever answers approved navigations. */
  lemma PrimaryQueryApproved(rows: seq<Navigation>, tags: seq<Tag>, q: Option<string>, tag: Option<string>, order: OrderBy)
    ensures var where := Where(Some("approved"), if Truthy(q) then q else None, if Truthy(tag) then tag else None);
      forall nav | nav in Query(rows, tags, where, order) :: nav.status == "approved"
  {
    var where := Where(Some("approved"), if Truthy(q) then q else None, if Truthy(tag) then tag else None);
    QueryMeaning(rows, tags, where, order);
  }

  /** The error is taken for a missing `status` column: its message mentions
      `status`, or its code is `P2009`. */
  predicate IsStatusError(e: DbError) {
    Contains(e.message, "status") || e.code == Some("P2009")
  }

  method Get(rows: seq<Navigation>, tags: seq<Tag>, q: Option<string>, tag: Option<string>, sortBy: Option<string>,
             firstError: Option<DbError>, retryError: Option<DbError>)
    returns (reply: GetReply)
    ensures var text := if Truthy(q) then q else None;
      var tagName := if Truthy(tag) then tag else None;
      (firstError.None? ==>
        reply == NavigationList(Query(rows, tags, Where(Some("approved"), text, tagName), Order(sortBy)))) &&
      (firstError.Some? && IsStatusError(firstError.value) && retryError.None? ==>
        reply == NavigationList(Query(rows, tags, Where(None, text, tagName), Order(sortBy)))) &&
      (firstError.Some? && (!IsStatusError(firstError.value) || retryError.Some?) ==> reply == FetchFailed)
  {
    var where := BuildWhere(q, tag, true);
    var orderBy := Order(sortBy);
    if firstError.None? {
      return NavigationList(Query(rows, tags, where, orderBy));
    }
    if !IsStatusError(firstError.value) {
      return FetchFailed;
    }
    var whereWithoutStatus := BuildWhere(q, tag, false);
    if retryError.Some? {
      return FetchFailed;
    }
    return NavigationList(Query(rows, tags, whereWithoutStatus, orderBy));
  }

  /** The retry keeps the text and tag filters: it answers a superset of the
      primary query, the same rows except those the status filter removed. */
  lemma RetryWidensOnlyStatus(rows: seq<Navigation>, tags: seq<Tag>, text: Option<string>, tagName: Option<string>,
                              order: OrderBy, nav: Navigation)
    ensures nav in Query(rows, tags, Where(Some("approved"), text, tagName), order) <==>
      nav in Query(rows, tags, Where(None, text, tagName), order) && nav.status == "approved"
  {
    QueryMeaning(rows, tags, Where(Some("approved"), text, tagName), order);
    QueryMeaning(rows, tags, Where(None, text, tagName), order);
    if nav in Query(rows, tags, Where(None, text, tagName), order) && nav.status == "approved" {
      var i :| 0 <= i < |rows| && rows[i] == nav;
      assert Matches(Where(Some("approved"), text, tagName), tags, rows[i]);
    }
  }

  datatype PostReply = PostUnauthorized | Created(navigation: Navigation) | CreateFailed

  /** `POST`: 401 without a session; otherwise the navigation is created with
      one tag link per entry of `tagIds`. A body without `tagIds` makes
      `tagIds.map` throw, which is answered with status 500. */
  method Post(session: bool, table: NavigationTable, data: NavigationInput, tagIds: Option<seq<nat>>)
    returns (reply: PostReply)
    requires table.Valid()
    modifies table
    ensures table.Valid()
    ensures !session ==> reply == PostUnauthorized
    ensures session && tagIds.None? ==> reply == CreateFailed
    ensures !session || tagIds.None? ==> table.rows == old(table.rows) && table.nextId == old(table.nextId)
    ensures session && tagIds.Some? ==>
      reply == Created(NewNavigation(old(table.nextId), data, tagIds.value)) &&
      reply.navigation.tagIds == tagIds.value &&
      table.rows == old(table.rows) + [reply.navigation]
  {
    if !session {
      return PostUnauthorized;
    }
    if tagIds.None? {
      return CreateFailed;
    }
    var navigation := table.Create(data, tagIds.value);
    return Created(navigation);
  }
}
