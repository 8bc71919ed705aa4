/** The page-button window shared by the book dashboard and the borrow
    records table: at most five consecutive page numbers around the current
    page, plus Previous/Next buttons. */
module Pagination {

  const MaxVisiblePages: int := 5

  function Min(a: int, b: int): int { if a <= b then a else b }
  function Max(a: int, b: int): int { if a >= b then a else b }

  /** The pages `lo..hi`, ascending. */
  function Range(lo: int, hi: int): (r: seq<int>)
    requires lo <= hi + 1
    ensures |r| == hi - lo + 1
    ensures forall k :: 0 <= k < |r| ==> r[k] == lo + k
  {
    seq(hi - lo + 1, k => lo + k)
  }

  /** Reference definition of the window: all pages when there are at most
      five, otherwise the five pages centred on the current one, slid back
      inside `1..total` when the centre is too close to either end. */
  function WindowStart(current: int, total: int): int {
    if total <= MaxVisiblePages then 1
    else Max(1, Min(current - 2, total - MaxVisiblePages + 1))
  }

  function WindowEnd(current: int, total: int): int {
    if total <= MaxVisiblePages then total
    else WindowStart(current, total) + MaxVisiblePages - 1
  }

  /** What the pagination bar shows: nothing, or the page buttons and whether
      Previous and Next are disabled. */
  datatype Bar = Hidden | Shown(pages: seq<int>, prevDisabled: bool, nextDisabled: bool)

  /** `renderPagination`: `startPage = max(1, current - floor(5 / 2))`,
      `endPage = min(total, startPage + 4)`, `startPage` pulled back to
      `max(1, endPage - 4)` when fewer than five pages result, then one
      button per page from `startPage` to `endPage`. */
  method RenderPagination(currentPage: int, totalPages: int) returns (bar: Bar)
    ensures bar.Hidden? <==> totalPages <= 1
    ensures bar.Shown? ==>
              bar.pages == Range(WindowStart(currentPage, totalPages), WindowEnd(currentPage, totalPages))
    ensures bar.Shown? ==> |bar.pages| == Min(MaxVisiblePages, totalPages)
    ensures bar.Shown? ==> forall k :: 0 <= k < |bar.pages| ==> 1 <= bar.pages[k] <= totalPages
    ensures bar.Shown? && 1 <= currentPage <= totalPages ==> currentPage in bar.pages
    ensures bar.Shown? ==> (bar.prevDisabled <==> currentPage == 1)
    ensures bar.Shown? ==> (bar.nextDisabled <==> currentPage == totalPages)
  {
    if totalPages <= 1 {
      return Hidden;
    }
    var startPage := Max(1, currentPage - MaxVisiblePages / 2);
    var endPage := Min(totalPages, startPage + MaxVisiblePages - 1);
    if endPage - startPage + 1 < MaxVisiblePages {
      startPage := Max(1, endPage - MaxVisiblePages + 1);
    }
    assert startPage == WindowStart(currentPage, totalPages);
    assert endPage == WindowEnd(currentPage, totalPages);

    var pages: seq<int> := [];
    var i := startPage;
    while i <= endPage
      invariant startPage <= i <= endPage + 1
      invariant pages == Range(startPage, i - 1)
    {
      pages := pages + [i];
      i := i + 1;
    }
    WindowFacts(currentPage, totalPages);
    if 1 <= currentPage <= totalPages {
      assert pages[currentPage - startPage] == currentPage;
    }
    bar := Shown(pages, currentPage == 1, currentPage == totalPages);
  }

  /** For every current page, in range or not, the window lies inside
      `1..total` and holds `min(5, total)` pages; a current page in range
      lies inside its window. */
  lemma WindowFacts(current: int, total: int)
    requires total >= 1
    ensures 1 <= WindowStart(current, total) <= WindowEnd(current, total) <= total
    ensures WindowEnd(current, total) - WindowStart(current, total) + 1 == Min(MaxVisiblePages, total)
    ensures 1 <= current <= total ==>
              WindowStart(current, total) <= current <= WindowEnd(current, total)
  {
  }

  /** Away from both ends the window is centred: two pages either side. */
  lemma WindowCentred(current: int, total: int)
    requires 3 <= current <= total - 2
    ensures WindowStart(current, total) == current - 2
    ensures WindowEnd(current, total) == Min(total, current + 2)
  {
  }
}
