/** Borrow records as the server returns them, and the day counts the loan
    views derive from their dates. Dates are milliseconds since the epoch,
    supplied by the caller ("now" included). */
module Loans {
  import opened Common

  /** One borrow record. `bookRef` is the `_id` of the populated `bookId`
      object; a record that has not been returned has no `returnDate`. */
  datatype Borrow = Borrow(
    id: string,
    bookRef: string,
    borrowDate: int,
    returnDate: Option<int>,
    status: string)

  const DayMs: int := 1000 * 60 * 60 * 24

  /** Fourteen days, the loan period the "days remaining" count assumes. */
  const LoanPeriodMs: int := 14 * DayMs

  function Abs(x: int): (r: nat)
    ensures r == x || r == -x
  {
    if x < 0 then -x else x
  }

  /** `Math.ceil(x / d)` for a positive divisor: the least integer `r` with
      `x <= d * r`. */
  function CeilDiv(x: int, d: int): (r: int)
    requires d > 0
    ensures d * (r - 1) < x <= d * r
  {
    var q := (-x) / d;
    assert -x == d * q + (-x) % d;
    -q
  }

  /** `calculateDaysBorrowed(borrowDate, returnDate)`: whole days, rounded
      up, between the borrow date and the return date, or "now" when the
      record has no return date. */
  function DaysBorrowed(borrowDate: int, returnDate: Option<int>, now: int): (days: nat)
    ensures var end := if returnDate.Some? then returnDate.value else now;
            DayMs * (days - 1) < Abs(end - borrowDate) <= DayMs * days
  {
    DaysBetween(borrowDate, returnDate.GetOr(now))
  }

  function DaysBetween(start: int, end: int): (days: int)
    ensures days >= 0
    ensures days == 0 <==> start == end
    ensures DayMs * (days - 1) < Abs(end - start) <= DayMs * days
  {
    CeilDiv(Abs(end - start), DayMs)
  }

  /** The count does not depend on which date comes first. */
  lemma DaysBetweenSymmetric(a: int, b: int)
    ensures DaysBetween(a, b) == DaysBetween(b, a)
  {
    assert Abs(b - a) == Abs(a - b);
  }

  /** `calculateDaysRemaining(borrowDate)`: whole days, rounded up, from now
      to the end of the fourteen-day loan period. It is 0 throughout the day
      after the period ends and negative from fifteen full days after the
      borrow date on. */
  function DaysRemaining(borrowDate: int, now: int): (days: int)
    ensures DayMs * (days - 1) < borrowDate + LoanPeriodMs - now <= DayMs * days
  {
    CeilDiv(borrowDate + LoanPeriodMs - now, DayMs)
  }

  /** The view shows "Overdue" exactly when the remaining count is negative,
      that is from a full fifteen days after the borrow date on: during the
      fifteenth day the count is still 0. */
  lemma OverdueIff(borrowDate: int, now: int)
    ensures DaysRemaining(borrowDate, now) < 0 <==> now - borrowDate >= 15 * DayMs
  {
    var r := DaysRemaining(borrowDate, now);
    var x := borrowDate + LoanPeriodMs - now;
    if r < 0 {
      assert DayMs * r <= DayMs * -1 by {
        assert DayMs * r == -(DayMs * -r);
        assert DayMs * -r >= DayMs * 1;
      }
    } else {
      assert DayMs * (r - 1) >= -DayMs;
    }
  }
}
