/** The admin navigation list: its pagination record, the handlers that change
    it, and the list of page buttons it renders. */
module NavigationManagement {
  import opened Strings
  import opened Wrappers

  datatype Pagination = Pagination(page: int, pageSize: int, total: int, totalPages: int)

  /** An entry of the page bar: a page button or an ellipsis. */
  datatype PageItem = Page(n: int) | Ellipsis

  /** The buttons for pages `lo` to `hi`. */
  function Range(lo: int, hi: int): (r: seq<PageItem>)
    ensures |r| == if hi < lo then 0 else hi - lo + 1
    ensures forall k | 0 <= k < |r| :: r[k] == Page(lo + k)
    decreases hi - lo
  {
    if hi < lo then [] else Range(lo, hi - 1) + [Page(hi)]
  }

  /** The page numbers rise strictly from left to right. */
  predicate Increasing(pages: seq<PageItem>) {
    forall i, j | 0 <= i < j < |pages| && pages[i].Page? && pages[j].Page? :: pages[i].n < pages[j].n
  }

  predicate Within(pages: seq<PageItem>, totalPages: int) {
    forall i | 0 <= i < |pages| && pages[i].Page? :: 1 <= pages[i].n <= totalPages
  }

  /** The four shapes of the page bar. */
  predicate PageBarShape(page: int, totalPages: int, pages: seq<PageItem>) {
    (totalPages <= 7 ==> pages == Range(1, totalPages)) &&
    (totalPages > 7 && page <= 3 ==> pages == Range(1, 4) + [Ellipsis, Page(totalPages)]) &&
    (totalPages > 7 && 3 < page && page >= totalPages - 2 ==>
      pages == [Page(1), Ellipsis] + Range(totalPages - 3, totalPages)) &&
    (totalPages > 7 && 3 < page < totalPages - 2 ==>
      pages == [Page(1), Ellipsis] + Range(page - 1, page + 1) + [Ellipsis, Page(totalPages)])
  }

  /** Whatever the current page, the bar has at most seven entries, its page
      numbers rise and lie between 1 and the last page, and the current page is
      on it whenever it is a page at all. */
  lemma PageBarWellFormed(page: int, totalPages: int, pages: seq<PageItem>)
    requires PageBarShape(page, totalPages, pages)
    ensures |pages| <= 7
    ensures Increasing(pages) && Within(pages, totalPages)
    ensures 1 <= page <= totalPages ==> Page(page) in pages
  {
    if totalPages <= 7 {
      if 1 <= page <= totalPages {
        assert pages[page - 1] == Page(page);
      }
    } else if page <= 3 {
      FirstPagesWellFormed(page, totalPages, pages);
    } else if page >= totalPages - 2 {
      LastPagesWellFormed(page, totalPages, pages);
    } else {
      MiddlePagesWellFormed(page, totalPages, pages);
    }
  }

  lemma FirstPagesWellFormed(page: int, totalPages: int, pages: seq<PageItem>)
    requires totalPages > 7 && pages == Range(1, 4) + [Ellipsis, Page(totalPages)]
    ensures |pages| <= 7 && Increasing(pages) && Within(pages, totalPages)
    ensures 1 <= page <= 3 ==> Page(page) in pages
  {
    assert forall k | 0 <= k < 4 :: pages[k] == Page(k + 1);
    if 1 <= page <= 3 {
      assert pages[page - 1] == Page(page);
    }
  }

  lemma LastPagesWellFormed(page: int, totalPages: int, pages: seq<PageItem>)
    requires totalPages > 7 && pages == [Page(1), Ellipsis] + Range(totalPages - 3, totalPages)
    ensures |pages| <= 7 && Increasing(pages) && Within(pages, totalPages)
    ensures totalPages - 2 <= page <= totalPages ==> Page(page) in pages
  {
    assert forall k | 2 <= k < 6 :: pages[k] == Page(totalPages - 5 + k);
    if totalPages - 2 <= page <= totalPages {
      assert pages[page - totalPages + 5] == Page(page);
    }
  }

  lemma MiddlePagesWellFormed(page: int, totalPages: int, pages: seq<PageItem>)
    requires 3 < page < totalPages - 2
    requires pages == [Page(1), Ellipsis] + Range(page - 1, page + 1) + [Ellipsis, Page(totalPages)]
    ensures |pages| <= 7 && Increasing(pages) && Within(pages, totalPages)
    ensures Page(page) in pages
  {
    assert Range(page - 1, page + 1) == [Page(page - 1), Page(page), Page(page + 1)];
    assert pages == [Page(1), Ellipsis, Page(page - 1), Page(page), Page(page + 1), Ellipsis, Page(totalPages)];
    assert pages[3] == Page(page);
  }

  /** `renderPagination`: every page when there are at most seven, otherwise
      the first and last pages, the current one with its neighbours, and
      ellipses for the gaps. */
  method RenderPagination(page: int, totalPages: int) returns (pages: seq<PageItem>)
    ensures PageBarShape(page, totalPages, pages)
    ensures |pages| <= 7
    ensures Increasing(pages) && Within(pages, totalPages)
    ensures 1 <= page <= totalPages ==> Page(page) in pages
  {
    pages := [];
    if totalPages <= 7 {
      var i := 1;
      while i <= totalPages
        invariant 1 <= i && (totalPages >= 0 ==> i <= totalPages + 1) && (totalPages < 1 ==> i == 1)
        invariant pages == Range(1, i - 1)
      {
        pages := pages + [Page(i)];
        i := i + 1;
      }
      if totalPages < 1 {
        assert Range(1, totalPages) == [] == Range(1, 0);
      }
    } else {
      if page <= 3 {
        var i := 1;
        while i <= 4
          invariant 1 <= i <= 5 && pages == Range(1, i - 1)
        {
          pages := pages + [Page(i)];
          i := i + 1;
        }
        pages := pages + [Ellipsis];
        pages := pages + [Page(totalPages)];
      } else if page >= totalPages - 2 {
        pages := pages + [Page(1)];
        pages := pages + [Ellipsis];
        var i := totalPages - 3;
        while i <= totalPages
          invariant totalPages - 3 <= i <= totalPages + 1
          invariant pages == [Page(1), Ellipsis] + Range(totalPages - 3, i - 1)
        {
          pages := pages + [Page(i)];
          i := i + 1;
        }
      } else {
        pages := pages + [Page(1)];
        pages := pages + [Ellipsis];
        var i := page - 1;
        while i <= page + 1
          invariant page - 1 <= i <= page + 2
          invariant pages == [Page(1), Ellipsis] + Range(page - 1, i - 1)
        {
          pages := pages + [Page(i)];
          i := i + 1;
        }
        pages := pages + [Ellipsis];
        pages := pages + [Page(totalPages)];
      }
    }
    PageBarWellFormed(page, totalPages, pages);
  }

  /** The new pagination record after a successful fetch: `total` and
      `totalPages` from the response when it answered the current page and page
      size, the whole response otherwise. */
  function MergePagination(prev: Pagination, response: Pagination): Pagination {
    if prev.page == response.page && prev.pageSize == response.pageSize
    then prev.(total := response.total, totalPages := response.totalPages)
    else response
  }

  /** Both branches of the merge end with the response's record: keeping `page`
      and `pageSize` is only done when they already agree with it. */
  lemma MergeIsResponse(prev: Pagination, response: Pagination)
    ensures MergePagination(prev, response) == response
  {
  }

  /** The query string of `fetchNavigations`: page and page size always, the
      search text, the tag (unless it is `all`) and the sort key when set. */
  function QueryParams(page: int, pageSize: int, searchQuery: string, selectedTag: string, sortBy: string)
    : (r: seq<(string, string)>)
    ensures |r| >= 2 && r[0] == ("page", NatOrNegToDecimal(page)) && r[1] == ("pageSize", NatOrNegToDecimal(pageSize))
    ensures ("q", searchQuery) in r <==> searchQuery != ""
    ensures ("tag", selectedTag) in r <==> selectedTag != "" && selectedTag != "all"
    ensures ("sortBy", sortBy) in r <==> sortBy != ""
  {
    [("page", NatOrNegToDecimal(page)), ("pageSize", NatOrNegToDecimal(pageSize))]
      + (if searchQuery != "" then [("q", searchQuery)] else [])
      + (if selectedTag != "" && selectedTag != "all" then [("tag", selectedTag)] else [])
      + (if sortBy != "" then [("sortBy", sortBy)] else [])
  }

  /** `n.toString()` for an integer. */
  function NatOrNegToDecimal(n: int): (s: string)
    ensures n >= 0 ==> s == NatToDecimal(n)
    ensures n < 0 ==> s == "-" + NatToDecimal(-n)
  {
    if n >= 0 then NatToDecimal(n) else "-" + NatToDecimal(-n)
  }

  /** The component's list state. */
  class NavigationManagement {
    var pagination: Pagination
    var searchQuery: string
    var selectedTag: string
    var sortBy: string

    constructor ()
      ensures pagination == Pagination(1, 10, 0, 0)
      ensures searchQuery == "" && selectedTag == "all" && sortBy == "created"
    {
      pagination := Pagination(1, 10, 0, 0);
      searchQuery := "";
      selectedTag := "all";
      sortBy := "created";
    }

    /** The page is in range: there is a page to show and it is one of them. */
    predicate InRange()
      reads this
    {
      1 <= pagination.page <= pagination.totalPages
    }

    method HandleSearchChange(value: string)
      modifies this
      ensures searchQuery == value && pagination == old(pagination).(page := 1)
      ensures selectedTag == old(selectedTag) && sortBy == old(sortBy)
    {
      searchQuery := value;
      pagination := pagination.(page := 1);
    }

    method HandleTagChange(value: string)
      modifies this
      ensures selectedTag == value && pagination == old(pagination).(page := 1)
      ensures searchQuery == old(searchQuery) && sortBy == old(sortBy)
    {
      selectedTag := value;
      pagination := pagination.(page := 1);
    }

    method HandleSortChange(value: string)
      modifies this
      ensures sortBy == value && pagination == old(pagination).(page := 1)
      ensures searchQuery == old(searchQuery) && selectedTag == old(selectedTag)
    {
      sortBy := value;
      pagination := pagination.(page := 1);
    }

    method HandlePageChange(page: int)
      modifies this
      ensures pagination == old(pagination).(page := page)
      ensures searchQuery == old(searchQuery) && selectedTag == old(selectedTag) && sortBy == old(sortBy)
    {
      pagination := pagination.(page := page);
    }

    /** `handlePageSizeChange`, given the value `parseInt` reads from the
        selected option. */
    method HandlePageSizeChange(pageSize: int)
      modifies this
      ensures pagination == old(pagination).(pageSize := pageSize, page := 1)
      ensures searchQuery == old(searchQuery) && selectedTag == old(selectedTag) && sortBy == old(sortBy)
    {
      pagination := pagination.(pageSize := pageSize, page := 1);
    }

    /** The "previous" button: a step back, only from a page after the first. */
    method Previous()
      modifies this
      ensures old(pagination.page) > 1 ==> pagination == old(pagination).(page := old(pagination.page) - 1)
      ensures old(pagination.page) <= 1 ==> pagination == old(pagination)
      ensures old(InRange()) ==> InRange()
      ensures searchQuery == old(searchQuery) && selectedTag == old(selectedTag) && sortBy == old(sortBy)
    {
      if pagination.page > 1 {
        HandlePageChange(pagination.page - 1);
      }
    }

    /** The "next" button: a step forward, only from a page before the last. */
    method Next()
      modifies this
      ensures old(pagination.page) < old(pagination.totalPages) ==>
        pagination == old(pagination).(page := old(pagination.page) + 1)
      ensures old(pagination.page) >= old(pagination.totalPages) ==> pagination == old(pagination)
      ensures old(InRange()) ==> InRange()
      ensures searchQuery == old(searchQuery) && selectedTag == old(selectedTag) && sortBy == old(sortBy)
    {
      if pagination.page < pagination.totalPages {
        HandlePageChange(pagination.page + 1);
      }
    }

    /** A successful fetch answered with `response`. */
    method ApplyResponse(response: Pagination)
      modifies this
      ensures pagination == MergePagination(old(pagination), response) == response
      ensures searchQuery == old(searchQuery) && selectedTag == old(selectedTag) && sortBy == old(sortBy)
    {
      MergeIsResponse(pagination, response);
      pagination := MergePagination(pagination, response);
    }
  }
}
