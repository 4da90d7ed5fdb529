/** The admin table of navigations: how a cell shows a long URL and a list of
    tags, and the table's initial sort and pagination. */
module NavigationDataTable {
  import opened Strings
  import opened Wrappers

  const UrlLimit: nat := 50
  const TagLimit: nat := 3

  /** `url.length > 50 ? url.substring(0, 50) + "..." : url`. */
  function TruncateUrl(url: string): (r: string)
    ensures |r| <= UrlLimit + 3
    ensures |url| <= UrlLimit ==> r == url
    ensures |url| > UrlLimit ==> StartsWith(r, url[..UrlLimit]) && EndsWith(r, "...") && |r| == UrlLimit + 3
    ensures StartsWith(url, r) || StartsWith(r, url[..UrlLimit])
  {
    if |url| > UrlLimit then
      StartsWithAppend(url[..UrlLimit], "...");
      EndsWithAppend(url[..UrlLimit], "...");
      url[..UrlLimit] + "..."
    else
      url
  }

  /** `tags.slice(0, 3)`: the first three tags, in order. */
  function FirstTags<T>(tags: seq<T>): (r: seq<T>)
    ensures |r| == if |tags| < TagLimit then |tags| else TagLimit
    ensures r <= tags
  {
    if |tags| < TagLimit then tags else tags[..TagLimit]
  }

  /** The `+N` badge: present only when tags are hidden, naming how many. */
  function OverflowBadge<T>(tags: seq<T>): (r: Option<string>)
    ensures r.Some? <==> |tags| > TagLimit
    ensures r.Some? ==> r.value == "+" + NatToDecimal(|tags| - TagLimit)
  {
    if |tags| > TagLimit then Some("+" + NatToDecimal(|tags| - TagLimit)) else None
  }

  /** Shown and counted tags add up: every tag is either a badge or part of
      the `+N`. */
  lemma BadgesAccountForAllTags<T>(tags: seq<T>)
    ensures |FirstTags(tags)| + (if OverflowBadge(tags).Some? then |tags| - TagLimit else 0) == |tags|
    ensures OverflowBadge(tags).Some? ==> DecimalValue(OverflowBadge(tags).value[1..]) + |FirstTags(tags)| == |tags|
  {
    if OverflowBadge(tags).Some? {
      assert OverflowBadge(tags).value[1..] == NatToDecimal(|tags| - TagLimit);
      DecimalRoundTrip(|tags| - TagLimit);
    }
  }

  datatype SortKey = SortKey(id: string, desc: bool)

  datatype TableState = TableState(sorting: seq<SortKey>, pageIndex: nat, pageSize: nat)

  /** Sorted by visits, largest first, on the first page of ten. */
  const InitialState := TableState([SortKey("visits", true)], 0, 10)
}
