/** The librarian's table of all borrow records: the paged fetch, the
    status filter and the pagination bar. */
module BorrowRecords {
  import opened Common
  import opened Loans
  import Pagination

  /** Body of a successful `GET /api/borrow/all`. */
  datatype RecordsPage = RecordsPage(borrows: seq<Borrow>, totalPages: int)

  /** Query string of `GET /api/borrow/all`. */
  datatype RecordsQuery = RecordsQuery(page: int, limit: int, status: Option<string>)

  class BorrowRecordsView {
    var borrows: seq<Borrow>
    var loading: bool
    var error: string
    var currentPage: int
    var totalPages: int
    var statusFilter: string

    constructor ()
      ensures borrows == [] && loading && error == ""
      ensures currentPage == 1 && totalPages == 1 && statusFilter == ""
    {
      borrows := [];
      loading := true;
      error := "";
      currentPage := 1;
      totalPages := 1;
      statusFilter := "";
    }

    /** The fetch effect, run whenever the page or the filter changes. The
        request goes out with `page` and `limit` only: `status` is put into
        the parameter object after the request has been sent, so the filter
        never reaches the server. */
    method FetchBorrowRecords(resp: Response<RecordsPage>) returns (sent: RecordsQuery)
      modifies this`borrows, this`loading, this`error, this`totalPages
      ensures sent == RecordsQuery(old(currentPage), 10, None)
      ensures !loading
      ensures resp.Ok? ==>
                borrows == resp.payload.borrows && totalPages == resp.payload.totalPages && error == ""
      ensures resp.Err? ==>
                borrows == old(borrows) && totalPages == old(totalPages) &&
                error == "Failed to fetch borrow records"
    {
      loading := true;
      error := "";
      var params := RecordsQuery(currentPage, 10, None);
      sent := params;
      if resp.Ok? {
        if statusFilter != "" {
          params := params.(status := Some(statusFilter));
        }
        borrows := resp.payload.borrows;
        totalPages := resp.payload.totalPages;
      } else {
        error := "Failed to fetch borrow records";
      }
      loading := false;
    }

    /** `handleStatusFilter(status)`: new filter, back to page 1. */
    method HandleStatusFilter(status: string)
      modifies this`statusFilter, this`currentPage
      ensures statusFilter == status && currentPage == 1
    {
      statusFilter := status;
      currentPage := 1;
    }

    /** A page button, Previous or Next: `setCurrentPage(page)`. */
    method SetCurrentPage(page: int)
      modifies this`currentPage
      ensures currentPage == page
    {
      currentPage := page;
    }

    /** The table's `renderPagination`: the same window as the dashboard's. */
    method RenderPagination() returns (bar: Pagination.Bar)
      ensures bar.Hidden? <==> totalPages <= 1
      ensures bar.Shown? ==> |bar.pages| == Pagination.Min(Pagination.MaxVisiblePages, totalPages)
      ensures bar.Shown? ==> forall k :: 0 <= k < |bar.pages| ==>
                bar.pages[k] == bar.pages[0] + k && 1 <= bar.pages[k] <= totalPages
      ensures bar.Shown? && 1 <= currentPage <= totalPages ==>
                bar.pages[0] <= currentPage <= bar.pages[|bar.pages| - 1]
      ensures bar.Shown? ==> (bar.prevDisabled <==> currentPage == 1)
      ensures bar.Shown? ==> (bar.nextDisabled <==> currentPage == totalPages)
    {
      bar := Pagination.RenderPagination(currentPage, totalPages);
      if bar.Shown? && 1 <= currentPage <= totalPages {
        Pagination.WindowFacts(currentPage, totalPages);
      }
    }
  }

  /** The "Days Borrowed" column: never negative, and the same whichever of
      the two dates is read as the start. */
  lemma DaysBorrowedColumn(borrowDate: int, returnDate: int, now: int)
    ensures DaysBorrowed(borrowDate, Some(returnDate), now) == DaysBorrowed(returnDate, Some(borrowDate), now)
    ensures DaysBorrowed(borrowDate, None, now) == DaysBetween(now, borrowDate)
  {
    DaysBetweenSymmetric(borrowDate, returnDate);
    DaysBetweenSymmetric(borrowDate, now);
  }
}
