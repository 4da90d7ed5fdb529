/** The favicon acquisition pipeline: build an ordered list of candidate icon
    URLs for a page, download the candidates in order until one is accepted,
    store that one icon and point a navigation at it.

    The network and the HTML parser are inputs: `Web.origin` is what `new URL(u).origin`
    gives (`None` when the URL does not parse), `Web.page` the outcome of fetching
    the page and parsing its `<link>` elements, `Web.icon` the outcome of
    downloading one candidate (`None` when the request or the body read throws). */
module FaviconDownloader {
  import opened Wrappers
  import opened Strings
  import opened Store

  /** A `<link>` element of the page, in document order; `rel` is its `rel`
      attribute ("" when absent), `href` its `href` attribute. */
  datatype Link = Link(rel: string, href: Option<string>)

  /** Fetching the page HTML: it threw (timeout, network, parse error) or it
      answered with a status that is ok or not, and an ok page has links. */
  datatype PageFetch = PageThrew | PageResponse(ok: bool, links: seq<Link>)

  /** The answer to a GET of one candidate icon URL. */
  datatype IconResponse = IconResponse(ok: bool, contentType: Option<string>, body: seq<byte>)

  datatype Web = Web(
    origin: string -> Option<string>,
    page: string -> PageFetch,
    icon: string -> Option<IconResponse>)

  /** `{ iconId, iconUrl }`, the pipeline's result. */
  datatype IconResult = IconResult(iconId: nat, iconUrl: string)

  /** The `rel` values of the four `link[rel="…"]` selectors, in the order they are queried. */
  const IconSelectors: seq<string> := ["icon", "shortcut icon", "apple-touch-icon", "apple-touch-icon-precomposed"]

  /** Bodies shorter than this are rejected as error pages or empty responses. */
  const MinIconBytes: nat := 100

  const IconApiPrefix: string := "/api/icons/"

  function FaviconIco(origin: string): string {
    origin + "/favicon.ico"
  }

  /** The four-way prefix rule that turns an `href` into a candidate URL. Relative
      hrefs are resolved against the origin, not against the page's path. */
  function NormalizeHref(origin: string, href: string): string {
    if StartsWith(href, "http") then href
    else if StartsWith(href, "//") then "https:" + href
    else if StartsWith(href, "/") then origin + href
    else origin + "/" + href
  }

  /** What the rule promises: the href survives as the URL's tail; only an
      "http…" href is taken as it is; a protocol-relative one gets "https:"; every
      other one hangs off the origin (never off the page path); and over an
      http(s) origin every result starts with "http". */
  lemma NormalizeHrefMeaning(origin: string, href: string)
    ensures EndsWith(NormalizeHref(origin, href), href)
    ensures origin != "" ==> (NormalizeHref(origin, href) == href <==> StartsWith(href, "http"))
    ensures !StartsWith(href, "http") && StartsWith(href, "//") ==> NormalizeHref(origin, href) == "https:" + href
    ensures !StartsWith(href, "http") && !StartsWith(href, "//") ==>
      StartsWith(NormalizeHref(origin, href), origin) &&
      NormalizeHref(origin, href)[|origin|..] == (if StartsWith(href, "/") then href else "/" + href)
    ensures StartsWith(origin, "http") ==> StartsWith(NormalizeHref(origin, href), "http")
  {
    var r := NormalizeHref(origin, href);
    if StartsWith(href, "http") {
      EndsWithAppend([], href);
      assert [] + href == href;
    } else if StartsWith(href, "//") {
      EndsWithAppend("https:", href);
      StartsWithAppend("https:", href);
      StartsWithTransitive(r, "https:", "http");
      assert |r| > |href|;
    } else if StartsWith(href, "/") {
      EndsWithAppend(origin, href);
      StartsWithAppend(origin, href);
      assert r[|origin|..] == href;
      assert |r| == |origin| + |href|;
      if StartsWith(origin, "http") { StartsWithTransitive(r, origin, "http"); }
    } else {
      assert r == origin + ("/" + href);
      EndsWithAppend(origin + "/", href);
      StartsWithAppend(origin, "/" + href);
      assert r[|origin|..] == "/" + href;
      assert |r| > |href|;
      if StartsWith(origin, "http") { StartsWithTransitive(r, origin, "http"); }
    }
  }

  /** The candidate one link contributes under one selector: nothing unless its
      `rel` is exactly the selector's and its `href` is present and non-empty. */
  function LinkCandidate(origin: string, link: Link, rel: string): seq<string> {
    if link.rel == rel && Truthy(link.href) then [NormalizeHref(origin, link.href.value)] else []
  }

  /** The candidates of one selector, in document order. */
  function GroupCandidates(origin: string, links: seq<Link>, rel: string): seq<string>
    decreases |links|
  {
    if links == [] then []
    else GroupCandidates(origin, links[..|links| - 1], rel) + LinkCandidate(origin, links[|links| - 1], rel)
  }

  /** The candidates of several selectors, one group after the other. */
  function HtmlCandidates(origin: string, links: seq<Link>, selectors: seq<string>): seq<string>
    decreases |selectors|
  {
    if selectors == [] then []
    else HtmlCandidates(origin, links, selectors[..|selectors| - 1])
         + GroupCandidates(origin, links, selectors[|selectors| - 1])
  }

  /** The list `extractIconUrls` returns. */
  function IconCandidates(url: string, web: Web): seq<string> {
    match web.origin(url)
    case None => []
    case Some(origin) =>
      [FaviconIco(origin)]
      + (match web.page(url)
         case PageResponse(true, links) => HtmlCandidates(origin, links, IconSelectors)
         case _ => [])
  }

  /** `extractIconUrls`: pushes `origin/favicon.ico`, then walks the selectors
      and, within each, the matching links. */
  method ExtractIconUrls(url: string, web: Web) returns (iconUrls: seq<string>)
    ensures iconUrls == IconCandidates(url, web)
  {
    iconUrls := [];
    var parsed := web.origin(url);
    if parsed.None? {
      return;
    }
    var origin := parsed.value;
    iconUrls := iconUrls + [FaviconIco(origin)];
    var page := web.page(url);
    if page.PageResponse? && page.ok {
      var links := page.links;
      for s := 0 to |IconSelectors|
        invariant iconUrls == [FaviconIco(origin)] + HtmlCandidates(origin, links, IconSelectors[..s])
      {
        iconUrls := PushGroup(iconUrls, origin, links, IconSelectors[s]);
        HtmlCandidatesStep(origin, links, IconSelectors, s);
      }
      assert IconSelectors[..|IconSelectors|] == IconSelectors;
    }
  }

  /** The inner loop of `extractIconUrls`: pushes the candidates of one
      selector, in document order. */
  method PushGroup(iconUrls: seq<string>, origin: string, links: seq<Link>, selector: string)
    returns (next: seq<string>)
    ensures next == iconUrls + GroupCandidates(origin, links, selector)
  {
    next := iconUrls;
    for k := 0 to |links|
      invariant next == iconUrls + GroupCandidates(origin, links[..k], selector)
    {
      GroupCandidatesStep(origin, links, k, selector);
      next := PushCandidate(next, origin, links[k], selector);
    }
    assert links[..|links|] == links;
  }

  /** The body of the inner loop: pushes the normalised href of a link that
      matches the selector and has a non-empty href. */
  method PushCandidate(iconUrls: seq<string>, origin: string, link: Link, selector: string)
    returns (next: seq<string>)
    ensures next == iconUrls + LinkCandidate(origin, link, selector)
  {
    next := iconUrls;
    if link.rel == selector && Truthy(link.href) {
      var href := link.href.value;
      if StartsWith(href, "http") {
        next := next + [href];
      } else if StartsWith(href, "//") {
        next := next + ["https:" + href];
      } else if StartsWith(href, "/") {
        next := next + [origin + href];
      } else {
        next := next + [origin + "/" + href];
      }
    }
  }

  lemma GroupCandidatesStep(origin: string, links: seq<Link>, k: nat, rel: string)
    requires k < |links|
    ensures GroupCandidates(origin, links[..k + 1], rel)
      == GroupCandidates(origin, links[..k], rel) + LinkCandidate(origin, links[k], rel)
  {
    assert links[..k + 1][..k] == links[..k];
  }

  lemma HtmlCandidatesStep(origin: string, links: seq<Link>, selectors: seq<string>, s: nat)
    requires s < |selectors|
    ensures HtmlCandidates(origin, links, selectors[..s + 1])
      == HtmlCandidates(origin, links, selectors[..s]) + GroupCandidates(origin, links, selectors[s])
  {
    assert selectors[..s + 1][..s] == selectors[..s];
  }

  /** The list starts with `origin/favicon.ico` whenever the page URL parses, and
      is empty when it does not. */
  lemma CandidatesStartWithFavicon(url: string, web: Web)
    ensures web.origin(url).None? ==> IconCandidates(url, web) == []
    ensures web.origin(url).Some? ==>
      |IconCandidates(url, web)| >= 1 && IconCandidates(url, web)[0] == FaviconIco(web.origin(url).value)
  {
  }

  /** A page that throws or answers with a non-ok status leaves only the
      favicon.ico candidate. */
  lemma FailedPageGivesOnlyFavicon(url: string, web: Web)
    requires web.origin(url).Some?
    requires web.page(url).PageThrew? || !web.page(url).ok
    ensures IconCandidates(url, web) == [FaviconIco(web.origin(url).value)]
  {
  }

  /** The HTML candidates are the four groups in selector order. */
  lemma {:induction false} HtmlCandidatesGrouped(origin: string, links: seq<Link>)
    ensures HtmlCandidates(origin, links, IconSelectors)
      == GroupCandidates(origin, links, "icon")
         + GroupCandidates(origin, links, "shortcut icon")
         + GroupCandidates(origin, links, "apple-touch-icon")
         + GroupCandidates(origin, links, "apple-touch-icon-precomposed")
  {
    FourGroups(origin, links, IconSelectors[0], IconSelectors[1], IconSelectors[2], IconSelectors[3]);
    assert IconSelectors == [IconSelectors[0], IconSelectors[1], IconSelectors[2], IconSelectors[3]];
  }

  lemma {:induction false} FourGroups(origin: string, links: seq<Link>, a: string, b: string, c: string, d: string)
    ensures HtmlCandidates(origin, links, [a, b, c, d])
      == GroupCandidates(origin, links, a) + GroupCandidates(origin, links, b)
         + GroupCandidates(origin, links, c) + GroupCandidates(origin, links, d)
  {
    var s1 := [] + [a];
    var s2 := s1 + [b];
    var s3 := s2 + [c];
    var s4 := s3 + [d];
    HtmlSnoc(origin, links, [], a);
    HtmlSnoc(origin, links, s1, b);
    HtmlSnoc(origin, links, s2, c);
    HtmlSnoc(origin, links, s3, d);
    assert s4 == [a, b, c, d];
  }

  lemma HtmlSnoc(origin: string, links: seq<Link>, selectors: seq<string>, x: string)
    ensures HtmlCandidates(origin, links, selectors + [x])
      == HtmlCandidates(origin, links, selectors) + GroupCandidates(origin, links, x)
  {
    assert (selectors + [x])[..|selectors|] == selectors;
  }

  /** Within a group, candidates keep document order: the links of an earlier
      part of the document contribute before those of a later part. */
  lemma {:induction false} GroupCandidatesAppend(origin: string, a: seq<Link>, b: seq<Link>, rel: string)
    ensures GroupCandidates(origin, a + b, rel) == GroupCandidates(origin, a, rel) + GroupCandidates(origin, b, rel)
    decreases |b|
  {
    if b == [] {
      assert a + b == a;
    } else {
      var b' := b[..|b| - 1];
      assert (a + b)[..|a + b| - 1] == a + b';
      GroupCandidatesAppend(origin, a, b', rel);
    }
  }

  /** A link with no usable href (or another rel) adds nothing, wherever it stands. */
  lemma IgnoredLinkAddsNothing(origin: string, a: seq<Link>, link: Link, b: seq<Link>, rel: string)
    requires link.rel != rel || !Truthy(link.href)
    ensures GroupCandidates(origin, a + [link] + b, rel) == GroupCandidates(origin, a + b, rel)
  {
    var g := GroupCandidates(origin, a + [link], rel);
    assert g == GroupCandidates(origin, a, rel) by {
      assert (a + [link])[..|a|] == a;
    }
    GroupCandidatesAppend(origin, a + [link], b, rel);
    GroupCandidatesAppend(origin, a, b, rel);
  }

  /** Every candidate of a group comes from a matching link of the page. */
  lemma {:induction false} GroupCandidatesFromLinks(origin: string, links: seq<Link>, rel: string, x: string)
    requires x in GroupCandidates(origin, links, rel)
    ensures exists i | 0 <= i < |links| ::
      links[i].rel == rel && Truthy(links[i].href) && x == NormalizeHref(origin, links[i].href.value)
    decreases |links|
  {
    var last := links[|links| - 1];
    if x in GroupCandidates(origin, links[..|links| - 1], rel) {
      GroupCandidatesFromLinks(origin, links[..|links| - 1], rel, x);
      var i :| 0 <= i < |links| - 1 && links[..|links| - 1][i].rel == rel && Truthy(links[..|links| - 1][i].href)
               && x == NormalizeHref(origin, links[..|links| - 1][i].href.value);
      assert links[i] == links[..|links| - 1][i];
    } else {
      assert x in LinkCandidate(origin, last, rel);
    }
  }

  /** …and every matching link of the page yields its candidate. */
  lemma {:induction false} LinksGiveGroupCandidates(origin: string, links: seq<Link>, rel: string, i: nat)
    requires i < |links| && links[i].rel == rel && Truthy(links[i].href)
    ensures NormalizeHref(origin, links[i].href.value) in GroupCandidates(origin, links, rel)
    decreases |links|
  {
    if i < |links| - 1 {
      assert links[..|links| - 1][i] == links[i];
      LinksGiveGroupCandidates(origin, links[..|links| - 1], rel, i);
    }
  }

  /** The MIME type guessed from the candidate URL's file extension. */
  function MimeFromExtension(url: string): (mime: string)
    ensures StartsWith(mime, "image/")
  {
    ImageTypesArePrefixed();
    if EndsWith(url, ".png") then "image/png"
    else if EndsWith(url, ".jpg") || EndsWith(url, ".jpeg") then "image/jpeg"
    else if EndsWith(url, ".gif") then "image/gif"
    else if EndsWith(url, ".svg") then "image/svg+xml"
    else "image/x-icon"
  }

  lemma ImageTypesArePrefixed()
    ensures StartsWith("image/png", "image/") && StartsWith("image/jpeg", "image/")
    ensures StartsWith("image/gif", "image/") && StartsWith("image/svg+xml", "image/")
    ensures StartsWith("image/x-icon", "image/")
  {
    StartsWithAppend("image/", "png");
    assert "image/" + "png" == "image/png";
    StartsWithAppend("image/", "jpeg");
    assert "image/" + "jpeg" == "image/jpeg";
    StartsWithAppend("image/", "gif");
    assert "image/" + "gif" == "image/gif";
    StartsWithAppend("image/", "svg+xml");
    assert "image/" + "svg+xml" == "image/svg+xml";
    StartsWithAppend("image/", "x-icon");
    assert "image/" + "x-icon" == "image/x-icon";
  }

  /** The extension rules, checked in order: .png, then .jpg or .jpeg, then
      .gif, then .svg, and image/x-icon for anything else. */
  lemma MimeFromExtensionRules(url: string)
    ensures EndsWith(url, ".png") ==> MimeFromExtension(url) == "image/png"
    ensures !EndsWith(url, ".png") && (EndsWith(url, ".jpg") || EndsWith(url, ".jpeg")) ==>
      MimeFromExtension(url) == "image/jpeg"
    ensures !EndsWith(url, ".png") && !EndsWith(url, ".jpg") && !EndsWith(url, ".jpeg") && EndsWith(url, ".gif") ==>
      MimeFromExtension(url) == "image/gif"
    ensures !EndsWith(url, ".png") && !EndsWith(url, ".jpg") && !EndsWith(url, ".jpeg") && !EndsWith(url, ".gif") ==>
      MimeFromExtension(url) == (if EndsWith(url, ".svg") then "image/svg+xml" else "image/x-icon")
  {
  }

  /** The MIME type recorded for a download: the declared content type when it is
      an image type, `image/x-icon` when none is declared, otherwise the guess
      from the extension. */
  function ResolveMime(contentType: Option<string>, url: string): (mime: string)
    ensures StartsWith(mime, "image/")
    ensures Truthy(contentType) && StartsWith(contentType.value, "image/") ==> mime == contentType.value
    ensures !Truthy(contentType) ==> mime == "image/x-icon"
    ensures Truthy(contentType) && !StartsWith(contentType.value, "image/") ==> mime == MimeFromExtension(url)
  {
    var declared := if Truthy(contentType) then contentType.value else "image/x-icon";
    if StartsWith(declared, "image/") then declared else MimeFromExtension(url)
  }

  /** What `downloadIcon` returns for an answer. */
  function Download(url: string, response: Option<IconResponse>): Option<IconBlob> {
    match response
    case None => None
    case Some(r) =>
      if !r.ok || |r.body| < MinIconBytes then None
      else Some(IconBlob(r.body, ResolveMime(r.contentType, url)))
  }

  /** An accepted download keeps the whole body, has at least 100 bytes and an
      image MIME type; it is refused exactly when the request threw, the status
      was not ok or the body was too short. */
  lemma DownloadAccepted(url: string, response: Option<IconResponse>)
    ensures Download(url, response).Some? <==>
      response.Some? && response.value.ok && |response.value.body| >= MinIconBytes
    ensures Download(url, response).Some? ==>
      Download(url, response).value.data == response.value.body &&
      |Download(url, response).value.data| >= MinIconBytes &&
      StartsWith(Download(url, response).value.mimeType, "image/")
  {
  }

  /** `downloadIcon`. */
  method DownloadIcon(iconUrl: string, response: Option<IconResponse>) returns (result: Option<IconBlob>)
    ensures result == Download(iconUrl, response)
    ensures result.Some? <==> response.Some? && response.value.ok && |response.value.body| >= MinIconBytes
    ensures result.Some? ==> result.value.data == response.value.body && StartsWith(result.value.mimeType, "image/")
  {
    if response.None? {
      return None;
    }
    var r := response.value;
    if !r.ok {
      return None;
    }
    var mimeType := if Truthy(r.contentType) then r.contentType.value else "image/x-icon";
    if !StartsWith(mimeType, "image/") {
      if EndsWith(iconUrl, ".png") {
        mimeType := "image/png";
      } else if EndsWith(iconUrl, ".jpg") || EndsWith(iconUrl, ".jpeg") {
        mimeType := "image/jpeg";
      } else if EndsWith(iconUrl, ".gif") {
        mimeType := "image/gif";
      } else if EndsWith(iconUrl, ".svg") {
        mimeType := "image/svg+xml";
      } else {
        mimeType := "image/x-icon";
      }
    }
    if |r.body| < MinIconBytes {
      return None;
    }
    return Some(IconBlob(r.body, mimeType));
  }

  /** The download of the first candidate that is accepted. */
  function FirstIcon(candidates: seq<string>, icon: string -> Option<IconResponse>): Option<IconBlob>
    decreases |candidates|
  {
    if candidates == [] then None
    else if Download(candidates[0], icon(candidates[0])).Some? then Download(candidates[0], icon(candidates[0]))
    else FirstIcon(candidates[1..], icon)
  }

  /** There is a first accepted candidate exactly when some candidate is
      accepted, and the icon kept is that candidate's download. */
  lemma {:induction false} FirstIconIsFirstAccepted(candidates: seq<string>, icon: string -> Option<IconResponse>)
    ensures FirstIcon(candidates, icon).None? <==>
      forall k | 0 <= k < |candidates| :: Download(candidates[k], icon(candidates[k])).None?
    ensures FirstIcon(candidates, icon).Some? ==>
      exists k | 0 <= k < |candidates| ::
        FirstIcon(candidates, icon) == Download(candidates[k], icon(candidates[k])) &&
        forall j | 0 <= j < k :: Download(candidates[j], icon(candidates[j])).None?
    decreases |candidates|
  {
    if candidates != [] && Download(candidates[0], icon(candidates[0])).None? {
      FirstIconIsFirstAccepted(candidates[1..], icon);
      if FirstIcon(candidates, icon).Some? {
        var k :| 0 <= k < |candidates[1..]| &&
          FirstIcon(candidates[1..], icon) == Download(candidates[1..][k], icon(candidates[1..][k])) &&
          forall j | 0 <= j < k :: Download(candidates[1..][j], icon(candidates[1..][j])).None?;
        assert forall j | 0 <= j < k + 1 :: Download(candidates[j], icon(candidates[j])).None? by {
          forall j | 0 < j < k + 1 ensures Download(candidates[j], icon(candidates[j])).None? {
            assert candidates[j] == candidates[1..][j - 1];
          }
        }
        assert candidates[k + 1] == candidates[1..][k];
      } else {
        forall k | 0 <= k < |candidates| ensures Download(candidates[k], icon(candidates[k])).None? {
          if k > 0 { assert candidates[k] == candidates[1..][k - 1]; }
        }
      }
    }
  }

  /** The icon the pipeline keeps satisfies the blob invariant. */
  lemma {:induction false} FirstIconIsValid(candidates: seq<string>, icon: string -> Option<IconResponse>)
    requires FirstIcon(candidates, icon).Some?
    ensures |FirstIcon(candidates, icon).value.data| >= MinIconBytes
    ensures StartsWith(FirstIcon(candidates, icon).value.mimeType, "image/")
    decreases |candidates|
  {
    if Download(candidates[0], icon(candidates[0])).None? {
      FirstIconIsValid(candidates[1..], icon);
    }
  }

  function IconUrl(id: nat): string {
    IconApiPrefix + NatToDecimal(id)
  }

  /** `downloadAndSaveFavicon`. `storeAvailable` is false when creating the icon
      row throws; the error is caught and the result is `null`. */
  method DownloadAndSaveFavicon(url: string, web: Web, store: IconStore, storeAvailable: bool)
    returns (result: Option<IconResult>)
    modifies store
    ensures var first := FirstIcon(IconCandidates(url, web), web.icon);
      if first.Some? && storeAvailable then
        result == Some(IconResult(|old(store.blobs)|, IconUrl(|old(store.blobs)|))) &&
        store.blobs == old(store.blobs) + [first.value]
      else
        result.None? && store.blobs == old(store.blobs)
  {
    var iconUrls := ExtractIconUrls(url, web);
    if |iconUrls| == 0 {
      return None;
    }
    for i := 0 to |iconUrls|
      invariant FirstIcon(iconUrls, web.icon) == FirstIcon(iconUrls[i..], web.icon)
      invariant store.blobs == old(store.blobs)
    {
      assert iconUrls[i..][0] == iconUrls[i];
      var downloaded := DownloadIcon(iconUrls[i], web.icon(iconUrls[i]));
      if downloaded.Some? {
        if !storeAvailable {
          return None;
        }
        var iconId := store.Save(downloaded.value);
        return Some(IconResult(iconId, IconUrl(iconId)));
      }
      assert iconUrls[i..][1..] == iconUrls[i + 1..];
    }
    assert iconUrls[|iconUrls|..] == [];
    return None;
  }

  /** `updateNavigationIcon`: sets `icon` and `iconId` of the navigation with the
      given id and nothing else. The update throws, and changes nothing, when the
      database fails (`dbError`) or no row has that id. */
  method UpdateNavigationIcon(table: NavigationTable, navigationId: nat, iconResult: IconResult, dbError: Option<string>)
    returns (error: Option<string>)
    requires table.Valid()
    modifies table
    ensures table.Valid() && table.nextId == old(table.nextId)
    ensures error.None? <==> dbError.None? && FindNavigation(old(table.rows), navigationId).Some?
    ensures error.None? ==>
      var i := FindNavigation(old(table.rows), navigationId).value;
      table.rows == old(table.rows)[i := old(table.rows)[i].(icon := Some(iconResult.iconUrl), iconId := Some(iconResult.iconId))]
    ensures error.Some? ==> table.rows == old(table.rows)
  {
    if dbError.Some? {
      return dbError;
    }
    var found := FindNavigation(table.rows, navigationId);
    if found.None? {
      return Some(RecordNotFound);
    }
    var i := found.value;
    table.rows := table.rows[i := table.rows[i].(icon := Some(iconResult.iconUrl), iconId := Some(iconResult.iconId))];
    return None;
  }

  const RecordNotFound: string := "Record to update not found."
}
