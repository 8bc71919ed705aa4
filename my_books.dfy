/** The borrower's own loans: the filtered fetch, the return action with
    its per-book busy flag, and the day counts on each card. */
module MyBooks {
  import opened Common
  import opened Loans

  /** Body of a `POST /api/borrow/return` answer as this page reads it. */
  datatype ReturnReply = ReturnReply(success: bool)

  /** What a card shows under "Days Remaining". */
  datatype RemainingLabel = Overdue | DaysLeft(days: int)

  /** `borrows.filter(borrow => borrow.bookId._id !== bookId)` */
  function WithoutBook(borrows: seq<Borrow>, bookId: string): (r: seq<Borrow>)
    ensures forall b :: b in r <==> b in borrows && b.bookRef != bookId
    ensures |r| <= |borrows|
  {
    if borrows == [] then []
    else if borrows[0].bookRef != bookId then [borrows[0]] + WithoutBook(borrows[1..], bookId)
    else WithoutBook(borrows[1..], bookId)
  }

  /** The filter keeps the remaining loans in their order: it works piece by
      piece over a concatenation. */
  lemma {:induction false} WithoutBookAppend(xs: seq<Borrow>, ys: seq<Borrow>, bookId: string)
    ensures WithoutBook(xs + ys, bookId) == WithoutBook(xs, bookId) + WithoutBook(ys, bookId)
  {
    if xs == [] {
      assert xs + ys == ys;
    } else {
      assert (xs + ys)[1..] == xs[1..] + ys;
      WithoutBookAppend(xs[1..], ys, bookId);
    }
  }

  /** A list with no loan of that book is left exactly as it was. */
  lemma {:induction false} WithoutAbsentBook(borrows: seq<Borrow>, bookId: string)
    requires forall b :: b in borrows ==> b.bookRef != bookId
    ensures WithoutBook(borrows, bookId) == borrows
  {
    if borrows != [] {
      assert borrows[0] in borrows;
      assert forall b :: b in borrows[1..] ==> b in borrows;
      WithoutAbsentBook(borrows[1..], bookId);
      assert [borrows[0]] + borrows[1..] == borrows;
    }
  }

  /** Filtering twice by the same book is filtering once. */
  lemma WithoutBookIdempotent(borrows: seq<Borrow>, bookId: string)
    ensures WithoutBook(WithoutBook(borrows, bookId), bookId) == WithoutBook(borrows, bookId)
  {
    WithoutAbsentBook(WithoutBook(borrows, bookId), bookId);
  }

  /** The "Days Remaining" cell of a card without a return date: "Overdue"
      when the count is negative, otherwise the count. */
  function RemainingLabelOf(borrowDate: int, now: int): (l: RemainingLabel)
    ensures l.Overdue? <==> now - borrowDate >= 15 * DayMs
    ensures l.DaysLeft? ==>
              l.days >= 0 && DayMs * (l.days - 1) < borrowDate + LoanPeriodMs - now <= DayMs * l.days
  {
    OverdueIff(borrowDate, now);
    var d := DaysRemaining(borrowDate, now);
    if d < 0 then Overdue else DaysLeft(d)
  }

  /** The "Days Borrowed" cell. The page passes only the borrow date, so the
      count always runs to "now"; it is shown only on cards without a return
      date. */
  function DaysBorrowedSoFar(borrowDate: int, now: int): (days: nat)
    ensures DayMs * (days - 1) < Abs(now - borrowDate) <= DayMs * days
  {
    DaysBorrowed(borrowDate, None, now)
  }

  class MyBooksView {
    var borrows: seq<Borrow>
    var loading: bool
    var error: string
    var statusFilter: string
    /** `actionLoading[bookId]`: the book's Return button is busy. */
    var actionLoading: map<string, bool>

    constructor ()
      ensures borrows == [] && loading && error == "" && statusFilter == "borrowed"
      ensures actionLoading == map[]
    {
      borrows := [];
      loading := true;
      error := "";
      statusFilter := "borrowed";
      actionLoading := map[];
    }

    /** `fetchMyBooks`: `GET /api/borrow/my-books?status=<filter>`. The
        result is the status the request carried. */
    method FetchMyBooks(resp: Response<seq<Borrow>>) returns (status: string)
      modifies this`borrows, this`loading, this`error
      ensures status == statusFilter
      ensures !loading
      ensures resp.Ok? ==> borrows == resp.payload && error == ""
      ensures resp.Err? ==> borrows == old(borrows) && error == "Failed to fetch your books"
    {
      loading := true;
      error := "";
      status := statusFilter;
      if resp.Ok? {
        borrows := resp.payload;
      } else {
        error := "Failed to fetch your books";
      }
      loading := false;
    }

    /** A filter tab. The page then fetches again. */
    method SetStatusFilter(status: string)
      modifies this`statusFilter
      ensures statusFilter == status
    {
      statusFilter := status;
    }

    /** `handleReturnBook(bookId)`. On a reply whose `success` is true the
        book's loans leave the list, and `refetch` asks for a new fetch when
        the returned tab is open; on a failed request `alert` carries the
        message shown. The busy flag is on during the request and off after. */
    method HandleReturnBook(bookId: string, resp: Response<ReturnReply>)
      returns (refetch: bool, alert: Option<string>)
      modifies this`borrows, this`actionLoading
      ensures actionLoading == old(actionLoading)[bookId := false]
      ensures resp.Ok? && resp.payload.success ==> borrows == WithoutBook(old(borrows), bookId)
      ensures !(resp.Ok? && resp.payload.success) ==> borrows == old(borrows)
      ensures refetch <==> resp.Ok? && resp.payload.success && statusFilter == "returned"
      ensures alert.Some? <==> resp.Err?
      ensures resp.Err? ==>
                alert == Some("Failed to return book: " + OrElse(resp.serverMsg, "Unknown error"))
    {
      refetch := false;
      alert := None;
      actionLoading := actionLoading[bookId := true];
      if resp.Ok? {
        if resp.payload.success {
          borrows := WithoutBook(borrows, bookId);
          if statusFilter == "returned" {
            refetch := true;
          }
        }
      } else {
        alert := Some("Failed to return book: " + OrElse(resp.serverMsg, "Unknown error"));
      }
      actionLoading := actionLoading[bookId := false];
    }
  }
}
