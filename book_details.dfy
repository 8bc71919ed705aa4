/** One book's page: loading it from the store, the borrow and return
    actions with their feedback message, and the figures the page derives
    from the record. */
module BookDetails {
  import opened Common
  import opened Books

  /** `book.available > 0` */
  predicate IsAvailable(b: Book) {
    b.available > 0
  }

  /** The "Borrowed" figure: copies not on the shelf. While the record's
      stock is consistent the figure is a count of copies. */
  function BorrowedCount(b: Book): (n: int)
    ensures 0 <= b.available <= b.quantity ==> 0 <= n <= b.quantity
    ensures n == 0 <==> b.available == b.quantity
  {
    b.quantity - b.available
  }

  /** `sub` occurs in `s` starting at `i`. */
  predicate OccursAt(s: string, sub: string, i: int) {
    0 <= i && i + |sub| <= |s| && s[i..i + |sub|] == sub
  }

  /** `s.includes(sub)` */
  predicate Includes(s: string, sub: string) {
    exists i :: 0 <= i <= |s| && OccursAt(s, sub, i)
  }

  /** The feedback box is styled as a success when its text includes
      "success". */
  predicate SuccessStyled(message: string) {
    Includes(message, "success")
  }

  const BorrowedMessage: string := "Book borrowed successfully!"
  const ReturnedMessage: string := "Book returned successfully!"

  /** An occurrence starts with the first character of what occurs. */
  lemma OccursAtHead(s: string, sub: string, i: int)
    requires OccursAt(s, sub, i) && sub != []
    ensures s[i] == sub[0]
  {
    assert s[i..i + |sub|][0] == s[i];
  }

  /** A text without the letter 's' never includes "success". */
  lemma NoSuccessWithoutS(s: string)
    requires forall k :: 0 <= k < |s| ==> s[k] != 's'
    ensures !SuccessStyled(s)
  {
    forall i | 0 <= i <= |s| && OccursAt(s, "success", i)
      ensures false
    {
      OccursAtHead(s, "success", i);
    }
  }

  /** The feedback box's colour follows the text, not the outcome: both
      confirmations are styled as successes, the two fallbacks are not, and a
      failure is styled as a success exactly when the server's own message
      includes "success" (as "Borrow unsuccessful" would). */
  lemma FeedbackStyling<T>(resp: Response<T>)
    requires resp.Err?
    ensures SuccessStyled(BorrowedMessage) && SuccessStyled(ReturnedMessage)
    ensures SuccessStyled(ServerMessage(resp, "Failed to borrow book")) <==>
            OrElse(resp.serverMsg, "") != "" && SuccessStyled(resp.serverMsg.value)
    ensures SuccessStyled(ServerMessage(resp, "Failed to return book")) <==>
            OrElse(resp.serverMsg, "") != "" && SuccessStyled(resp.serverMsg.value)
  {
    assert OccursAt(BorrowedMessage, "success", 14);
    assert OccursAt(ReturnedMessage, "success", 14);
    NoSuccessWithoutS("Failed to borrow book");
    NoSuccessWithoutS("Failed to return book");
  }

  /** `handleReturn` adds a copy without checking the stock: a return on a
      record with every copy on the shelf leaves the "Borrowed" figure at -1. */
  lemma ReturnOnFullShelf(b: Book)
    requires b.available == b.quantity
    ensures BorrowedCount(b.(available := b.available + 1)) == -1
  {
  }

  class BookDetailsView {
    var book: Option<Book>
    var actionLoading: bool
    var actionMessage: string

    constructor ()
      ensures book == None && !actionLoading && actionMessage == ""
    {
      book := None;
      actionLoading := false;
      actionMessage := "";
    }

    /** `loadBook`: the record is kept only when the store's fetch
        succeeded. */
    method LoadBook(store: BookStore, id: string, resp: Response<Book>)
      modifies this`book, store`loading, store`error
      ensures !store.loading
      ensures resp.Ok? ==> book == Some(resp.payload) && store.error == None
      ensures resp.Err? ==>
                book == old(book) && store.error == Some(ServerMessage(resp, "Failed to fetch book"))
    {
      var r := store.FetchBook(id, resp);
      if r.Success? {
        book := Some(r.value);
      }
    }

    /** `handleBorrow`: nothing happens without a record or without a copy
        on the shelf; otherwise the store borrows the book, the page's own
        record loses one available copy on success, and the message says
        how it went. */
    method HandleBorrow(store: BookStore, resp: Response<Loans.Borrow>) returns (called: bool)
      modifies this, store`books, store`loading, store`error
      ensures called <==> old(book).Some? && IsAvailable(old(book).value)
      ensures !called ==>
                book == old(book) && actionLoading == old(actionLoading) &&
                actionMessage == old(actionMessage) && store.books == old(store.books) &&
                store.error == old(store.error) && store.loading == old(store.loading)
      ensures called ==> !actionLoading && !store.loading
      ensures called && resp.Ok? ==> store.error == None
      ensures called && resp.Err? ==> store.error == Some(ServerMessage(resp, "Failed to borrow book"))
      ensures called && resp.Ok? ==>
                book == Some(old(book).value.(available := old(book).value.available - 1)) &&
                actionMessage == BorrowedMessage &&
                store.books == AdjustAvailable(old(store.books), old(book).value.id, -1)
      ensures called && resp.Err? ==>
                book == old(book) && store.books == old(store.books) &&
                actionMessage == ServerMessage(resp, "Failed to borrow book")
    {
      if book.None? || book.value.available <= 0 {
        return false;
      }
      called := true;
      actionLoading := true;
      actionMessage := "";
      var r := store.BorrowBook(book.value.id, resp);
      if r.Success? {
        book := Some(book.value.(available := book.value.available - 1));
        actionMessage := BorrowedMessage;
      } else {
        actionMessage := OrElse(Some(r.message), "Failed to borrow book");
      }
      actionLoading := false;
    }

    /** `handleReturn`: needs only a record; on success the page's record
        gains one available copy, with no upper bound. */
    method HandleReturn(store: BookStore, resp: Response<Loans.Borrow>) returns (called: bool)
      modifies this, store`books, store`loading, store`error
      ensures called <==> old(book).Some?
      ensures !called ==>
                book == old(book) && actionLoading == old(actionLoading) &&
                actionMessage == old(actionMessage) && store.books == old(store.books) &&
                store.error == old(store.error) && store.loading == old(store.loading)
      ensures called ==> !actionLoading && !store.loading
      ensures called && resp.Ok? ==> store.error == None
      ensures called && resp.Err? ==> store.error == Some(ServerMessage(resp, "Failed to return book"))
      ensures called && resp.Ok? ==>
                book == Some(old(book).value.(available := old(book).value.available + 1)) &&
                actionMessage == ReturnedMessage &&
                store.books == AdjustAvailable(old(store.books), old(book).value.id, 1)
      ensures called && resp.Err? ==>
                book == old(book) && store.books == old(store.books) &&
                actionMessage == ServerMessage(resp, "Failed to return book")
    {
      if book.None? {
        return false;
      }
      called := true;
      actionLoading := true;
      actionMessage := "";
      var r := store.ReturnBook(book.value.id, resp);
      if r.Success? {
        book := Some(book.value.(available := book.value.available + 1));
        actionMessage := ReturnedMessage;
      } else {
        actionMessage := OrElse(Some(r.message), "Failed to return book");
      }
      actionLoading := false;
    }
  }
}
