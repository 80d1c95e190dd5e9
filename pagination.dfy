/** The pagination bar under the restaurant listing: the page-number window
    with '...' gaps, the "Showing a to b of n" range and the Previous/Next
    buttons. */
module Pagination {
  import opened Wrappers

  /** One entry of the page list: a page number button or a '...' gap. */
  datatype PageEntry = Page(number: int) | Gap

  /** `maxVisiblePages`: up to this many pages the list shows them all. */
  const MaxVisiblePages: int := 5

  /** Page(lo), Page(lo + 1), ..., Page(hi). */
  function PageRange(lo: int, hi: int): (r: seq<PageEntry>)
    decreases hi - lo
    ensures |r| == if hi < lo then 0 else hi - lo + 1
    ensures forall i :: 0 <= i < |r| ==> r[i] == Page(lo + i)
  {
    if hi < lo then [] else [Page(lo)] + PageRange(lo + 1, hi)
  }

  /** The list `getPageNumbers` returns. */
  function PageNumbers(currentPage: int, totalPages: int): seq<PageEntry>
  {
    if totalPages <= MaxVisiblePages then PageRange(1, totalPages)
    else if currentPage <= 3 then
      [Page(1), Page(2), Page(3), Page(4), Gap, Page(totalPages)]
    else if currentPage >= totalPages - 2 then
      [Page(1), Gap, Page(totalPages - 3), Page(totalPages - 2), Page(totalPages - 1), Page(totalPages)]
    else
      [Page(1), Gap, Page(currentPage - 1), Page(currentPage), Page(currentPage + 1), Gap, Page(totalPages)]
  }

  /** `getPageNumbers`: a counting loop up to five pages, a fixed window otherwise. */
  method GetPageNumbers(currentPage: int, totalPages: int) returns (pages: seq<PageEntry>)
    ensures pages == PageNumbers(currentPage, totalPages)
  {
    pages := [];
    if totalPages <= MaxVisiblePages {
      var i := 1;
      while i <= totalPages
        invariant 1 <= i <= if totalPages < 1 then 1 else totalPages + 1
        invariant |pages| == i - 1
        invariant forall j :: 0 <= j < |pages| ==> pages[j] == Page(j + 1)
      {
        pages := pages + [Page(i)];
        i := i + 1;
      }
    } else {
      if currentPage <= 3 {
        pages := pages + [Page(1), Page(2), Page(3), Page(4), Gap, Page(totalPages)];
      } else if currentPage >= totalPages - 2 {
        pages := pages + [Page(1), Gap, Page(totalPages - 3), Page(totalPages - 2), Page(totalPages - 1), Page(totalPages)];
      } else {
        pages := pages + [Page(1), Gap, Page(currentPage - 1), Page(currentPage), Page(currentPage + 1), Gap, Page(totalPages)];
      }
    }
  }

  /** The numbered entries strictly increase and lie within 1..totalPages. */
  ghost predicate IncreasingWithin(pages: seq<PageEntry>, totalPages: int)
  {
    && (forall i :: 0 <= i < |pages| && pages[i].Page? ==> 1 <= pages[i].number <= totalPages)
    && (forall i, j :: 0 <= i < j < |pages| && pages[i].Page? && pages[j].Page? ==> pages[i].number < pages[j].number)
  }

  /** Every gap stands between two numbered entries that are at least 2 apart,
      so it hides at least one page. */
  ghost predicate GapsHidePages(pages: seq<PageEntry>)
  {
    forall i :: 0 <= i < |pages| && pages[i] == Gap ==>
      0 < i < |pages| - 1 && pages[i - 1].Page? && pages[i + 1].Page?
      && pages[i + 1].number - pages[i - 1].number >= 2
  }

  /** Up to five pages the list is exactly the pages 1..totalPages, without gaps. */
  lemma SmallListsShowEveryPage(currentPage: int, totalPages: int, p: int)
    requires totalPages <= MaxVisiblePages
    ensures Gap !in PageNumbers(currentPage, totalPages)
    ensures Page(p) in PageNumbers(currentPage, totalPages) <==> 1 <= p <= totalPages
  {
    var r := PageNumbers(currentPage, totalPages);
    if 1 <= p <= totalPages {
      assert r[p - 1] == Page(p);
    }
  }

  /** Beyond five pages the list has 6 or 7 entries, from page 1 to the last page. */
  lemma LargeListsShape(currentPage: int, totalPages: int)
    requires totalPages > MaxVisiblePages
    ensures var r := PageNumbers(currentPage, totalPages);
      (|r| == 6 || |r| == 7) && r[0] == Page(1) && r[|r| - 1] == Page(totalPages)
  {
  }

  /** Whatever the current page, the numbers increase within 1..totalPages and
      every gap hides at least one page. */
  lemma {:induction false} PageNumbersWellFormed(currentPage: int, totalPages: int)
    ensures IncreasingWithin(PageNumbers(currentPage, totalPages), totalPages)
    ensures GapsHidePages(PageNumbers(currentPage, totalPages))
  {
    if totalPages <= MaxVisiblePages {
      RangeWellFormed(totalPages);
    } else if currentPage <= 3 {
      WindowWellFormed([Page(1), Page(2), Page(3), Page(4), Gap, Page(totalPages)], totalPages);
    } else if currentPage >= totalPages - 2 {
      WindowWellFormed([Page(1), Gap, Page(totalPages - 3), Page(totalPages - 2), Page(totalPages - 1), Page(totalPages)], totalPages);
    } else {
      WindowWellFormed([Page(1), Gap, Page(currentPage - 1), Page(currentPage), Page(currentPage + 1), Gap, Page(totalPages)], totalPages);
    }
  }

  /** The pages 1..totalPages, one after another, increase within range and
      have no gap. */
  lemma RangeWellFormed(totalPages: int)
    ensures IncreasingWithin(PageRange(1, totalPages), totalPages)
    ensures GapsHidePages(PageRange(1, totalPages))
  {
    var r := PageRange(1, totalPages);
    assert forall i :: 0 <= i < |r| ==> r[i] == Page(1 + i);
  }

  /** Neighbouring entries are well placed: no two gaps side by side, two
      neighbouring numbers increase, and a gap's neighbours are numbers at least
      2 apart. */
  ghost predicate NeighboursWellPlaced(r: seq<PageEntry>)
  {
    && (forall k :: 0 <= k < |r| - 1 ==> r[k].Page? || r[k + 1].Page?)
    && (forall k :: 0 <= k < |r| - 1 && r[k].Page? && r[k + 1].Page? ==> r[k].number < r[k + 1].number)
    && (forall k :: 0 < k < |r| - 1 && r[k] == Gap ==>
          r[k - 1].Page? && r[k + 1].Page? && r[k + 1].number - r[k - 1].number >= 2)
  }

  /** A window from page 1 to the last page whose neighbours are well placed is
      well formed: the global order follows from the neighbours alone. */
  lemma {:induction false} WindowWellFormed(r: seq<PageEntry>, totalPages: int)
    requires |r| >= 1 && r[0] == Page(1) && r[|r| - 1] == Page(totalPages)
    requires NeighboursWellPlaced(r)
    ensures IncreasingWithin(r, totalPages)
    ensures GapsHidePages(r)
  {
    WindowIncreasing(r);
    WindowWithin(r, totalPages);
  }

  lemma {:induction false} WindowIncreasing(r: seq<PageEntry>)
    requires NeighboursWellPlaced(r)
    ensures forall i, j :: 0 <= i < j < |r| && r[i].Page? && r[j].Page? ==> r[i].number < r[j].number
  {
    forall i, j | 0 <= i < j < |r| && r[i].Page? && r[j].Page?
      ensures r[i].number < r[j].number
    {
      NumbersIncrease(r, i, j);
    }
  }

  lemma {:induction false} WindowWithin(r: seq<PageEntry>, totalPages: int)
    requires |r| >= 1 && r[0] == Page(1) && r[|r| - 1] == Page(totalPages)
    requires NeighboursWellPlaced(r)
    ensures forall i :: 0 <= i < |r| && r[i].Page? ==> 1 <= r[i].number <= totalPages
  {
    forall i | 0 <= i < |r| && r[i].Page?
      ensures 1 <= r[i].number <= totalPages
    {
      if i > 0 { NumbersIncrease(r, 0, i); }
      if i < |r| - 1 { NumbersIncrease(r, i, |r| - 1); }
    }
  }

  lemma {:induction false} NumbersIncrease(r: seq<PageEntry>, i: int, j: int)
    requires 0 <= i < j < |r| && r[i].Page? && r[j].Page?
    requires NeighboursWellPlaced(r)
    ensures r[i].number < r[j].number
    decreases j - i
  {
    if j == i + 1 {
    } else if r[i + 1].Page? {
      NumbersIncrease(r, i + 1, j);
    } else {
      assert r[i + 2].Page?;
      if i + 2 < j { NumbersIncrease(r, i + 2, j); }
    }
  }

  /** No two gaps are ever adjacent. */
  lemma NoAdjacentGaps(currentPage: int, totalPages: int, i: int)
    requires 0 <= i < |PageNumbers(currentPage, totalPages)| - 1
    ensures !(PageNumbers(currentPage, totalPages)[i] == Gap && PageNumbers(currentPage, totalPages)[i + 1] == Gap)
  {
    PageNumbersWellFormed(currentPage, totalPages);
  }

  /** A current page within 1..totalPages always has its own button. */
  lemma CurrentPageShown(currentPage: int, totalPages: int)
    requires 1 <= currentPage <= totalPages
    ensures Page(currentPage) in PageNumbers(currentPage, totalPages)
  {
    var r := PageNumbers(currentPage, totalPages);
    if totalPages <= MaxVisiblePages {
      assert r[currentPage - 1] == Page(currentPage);
    }
  }

  /** `startItem`: the 1-based number of the first item on the page. */
  function StartItem(currentPage: int, itemsPerPage: int): int
  {
    (currentPage - 1) * itemsPerPage + 1
  }

  /** `endItem`: the last item on the page, cut at the total. */
  function EndItem(currentPage: int, itemsPerPage: int, totalItems: int): (r: int)
    ensures r <= totalItems
    ensures r <= currentPage * itemsPerPage
    ensures r == totalItems || r == currentPage * itemsPerPage
  {
    if currentPage * itemsPerPage < totalItems then currentPage * itemsPerPage else totalItems
  }

  /** On a page that holds at least one item, the range starts at 1 or later,
      is not empty and spans at most one page of items. */
  lemma {:induction false} ItemRangeOnPage(currentPage: int, itemsPerPage: int, totalItems: int)
    requires currentPage >= 1 && itemsPerPage >= 1
    requires (currentPage - 1) * itemsPerPage < totalItems
    ensures 1 <= StartItem(currentPage, itemsPerPage) <= EndItem(currentPage, itemsPerPage, totalItems) <= totalItems
    ensures EndItem(currentPage, itemsPerPage, totalItems) - StartItem(currentPage, itemsPerPage) + 1 <= itemsPerPage
  {
    assert currentPage * itemsPerPage == (currentPage - 1) * itemsPerPage + itemsPerPage;
    assert (currentPage - 1) * itemsPerPage >= 0;
  }

  /** The "Showing a to b of n restaurants" line. */
  datatype Info = Info(startItem: int, endItem: int, totalItems: int)

  /** What the bar renders: the optional info line, the disabled flags of the
      Previous and Next buttons and the page list. */
  datatype Bar = Bar(info: Option<Info>, prevDisabled: bool, nextDisabled: bool, pages: seq<PageEntry>)

  /** The component's output: nothing when there is at most one page. */
  function Render(currentPage: int, totalPages: int, totalItems: int, itemsPerPage: int, showInfo: bool): Option<Bar>
  {
    if totalPages <= 1 then None
    else
      var info := if showInfo then Some(Info(StartItem(currentPage, itemsPerPage), EndItem(currentPage, itemsPerPage, totalItems), totalItems)) else None;
      Some(Bar(info, currentPage == 1, currentPage == totalPages, PageNumbers(currentPage, totalPages)))
  }

  /** The bar is rendered exactly when there are two pages or more; Previous is
      disabled exactly on page 1 and Next exactly on the last page, so an
      enabled button always leads to a page within 1..totalPages. */
  lemma RenderedBar(currentPage: int, totalPages: int, totalItems: int, itemsPerPage: int, showInfo: bool)
    ensures Render(currentPage, totalPages, totalItems, itemsPerPage, showInfo).Some? <==> totalPages > 1
    ensures Render(currentPage, totalPages, totalItems, itemsPerPage, showInfo).Some? ==>
      var bar := Render(currentPage, totalPages, totalItems, itemsPerPage, showInfo).value;
      && (bar.prevDisabled <==> currentPage == 1)
      && (bar.nextDisabled <==> currentPage == totalPages)
      && (1 <= currentPage <= totalPages && !bar.prevDisabled ==> 1 <= currentPage - 1 <= totalPages)
      && (1 <= currentPage <= totalPages && !bar.nextDisabled ==> 1 <= currentPage + 1 <= totalPages)
      && (bar.info.Some? <==> showInfo)
  {
  }
}
