/** The book store (`BookProvider`): the current page of books, the page
    cursor, the search term and the shared loading/error slots. Every
    operation is one request to the server, given here as its `Response`,
    followed by a fixed local change to the page of books. */
module Books {
  import opened Common
  import Loans

  datatype Book = Book(
    id: string,
    title: string,
    author: string,
    isbn: string,
    quantity: int,
    available: int)

  /** The fields a create or update request carries. */
  datatype BookData = BookData(title: string, author: string, isbn: string, quantity: int)

  /** Body of a successful `GET /api/books`. */
  datatype BookPage = BookPage(books: seq<Book>, totalPages: int, currentPage: int, total: int)

  /** Query string of `GET /api/books`. */
  datatype BookQuery = BookQuery(page: int, limit: int, search: Option<string>)

  const PageSize: int := 10

  // ---------------------------------------------------------------------
  // The local changes applied to the page after a successful request

  /** `books.map(b => b._id === id ? updated : b)` */
  function ReplaceById(books: seq<Book>, id: string, updated: Book): (r: seq<Book>)
    ensures |r| == |books|
    ensures forall i :: 0 <= i < |r| ==>
              (books[i].id == id ==> r[i] == updated) && (books[i].id != id ==> r[i] == books[i])
  {
    if books == [] then []
    else [if books[0].id == id then updated else books[0]] + ReplaceById(books[1..], id, updated)
  }

  /** `books.filter(b => b._id !== id)` */
  function RemoveById(books: seq<Book>, id: string): (r: seq<Book>)
    ensures |r| <= |books|
    ensures forall b :: b in r <==> b in books && b.id != id
  {
    if books == [] then []
    else if books[0].id == id then RemoveById(books[1..], id)
    else [books[0]] + RemoveById(books[1..], id)
  }

  /** `books.map(b => b._id === id ? { ...b, available: b.available + delta } : b)` */
  function AdjustAvailable(books: seq<Book>, id: string, delta: int): (r: seq<Book>)
    ensures |r| == |books|
    ensures forall i :: 0 <= i < |r| ==>
              (books[i].id == id ==> r[i] == books[i].(available := books[i].available + delta)) &&
              (books[i].id != id ==> r[i] == books[i])
  {
    if books == [] then []
    else
      [if books[0].id == id then books[0].(available := books[0].available + delta) else books[0]] +
      AdjustAvailable(books[1..], id, delta)
  }

  predicate HasId(books: seq<Book>, id: string) {
    exists i :: 0 <= i < |books| && books[i].id == id
  }

  /** Filtering keeps the survivors in their order: it distributes over
      concatenation. */
  lemma {:induction false} RemoveByIdAppend(xs: seq<Book>, ys: seq<Book>, id: string)
    ensures RemoveById(xs + ys, id) == RemoveById(xs, id) + RemoveById(ys, id)
  {
    if xs != [] {
      assert (xs + ys)[1..] == xs[1..] + ys;
      RemoveByIdAppend(xs[1..], ys, id);
    } else {
      assert xs + ys == ys;
    }
  }

  /** Deleting an id that is not on the page leaves the page as it was. */
  lemma {:induction false} RemoveAbsentId(books: seq<Book>, id: string)
    requires !HasId(books, id)
    ensures RemoveById(books, id) == books
  {
    if books != [] {
      assert !HasId(books[1..], id) by {
        forall i | 0 <= i < |books[1..]| ensures books[1..][i].id != id {
          assert books[1..][i] == books[i + 1];
        }
      }
      RemoveAbsentId(books[1..], id);
    }
  }

  /** Updating an id that is not on the page leaves the page as it was. */
  lemma ReplaceAbsentId(books: seq<Book>, id: string, updated: Book)
    requires !HasId(books, id)
    ensures ReplaceById(books, id, updated) == books
  {
  }

  /** A successful borrow followed by a successful return of the same book
      restores the page exactly. */
  lemma BorrowThenReturn(books: seq<Book>, id: string)
    ensures AdjustAvailable(AdjustAvailable(books, id, -1), id, 1) == books
  {
  }

  /** A successful create followed by a successful delete of the created
      book restores the page, provided the server gave it a fresh id. */
  lemma {:induction false} CreateThenDelete(books: seq<Book>, created: Book)
    requires !HasId(books, created.id)
    ensures RemoveById([created] + books, created.id) == books
  {
    RemoveByIdAppend([created], books, created.id);
    RemoveAbsentId(books, created.id);
  }

  // ---------------------------------------------------------------------
  // The store

  /** `fetchBooks`' query: page, limit 10, and `search` only when the term
      is non-empty. */
  function BooksQuery(page: int, search: string): (q: BookQuery)
    ensures q.page == page && q.limit == PageSize
    ensures q.search.Some? <==> search != ""
    ensures q.search.Some? ==> q.search.value == search
  {
    BookQuery(page, PageSize, if search != "" then Some(search) else None)
  }

  class BookStore {
    var books: seq<Book>
    var loading: bool
    var error: Option<string>
    var searchTerm: string
    var currentPage: int
    var totalPages: int
    var totalBooks: int

    /** The store shows an answered page: its books and cursor, with no
        error and no spinner. */
    predicate Shows(p: BookPage)
      reads this
    {
      books == p.books && currentPage == p.currentPage && totalPages == p.totalPages &&
      totalBooks == p.total && error == None && !loading
    }

    constructor ()
      ensures books == [] && !loading && error == None && searchTerm == ""
      ensures currentPage == 1 && totalPages == 1 && totalBooks == 0
    {
      books := [];
      loading := false;
      error := None;
      searchTerm := "";
      currentPage := 1;
      totalPages := 1;
      totalBooks := 0;
    }

    /** `fetchBooks(page, search)`: replaces the page and the cursor with the
        response; on failure keeps them and reports the server's message or
        'Failed to fetch books'. */
    method FetchBooks(page: int, search: string, resp: Response<BookPage>)
      returns (query: BookQuery, r: OpResult<seq<Book>>)
      modifies this
      ensures query == BooksQuery(page, search)
      ensures !loading && searchTerm == old(searchTerm)
      ensures resp.Ok? ==>
                && books == resp.payload.books && totalPages == resp.payload.totalPages
                && currentPage == resp.payload.currentPage && totalBooks == resp.payload.total
                && error == None && r == Success(resp.payload.books)
      ensures resp.Err? ==>
                && books == old(books) && totalPages == old(totalPages)
                && currentPage == old(currentPage) && totalBooks == old(totalBooks)
                && error == Some(ServerMessage(resp, "Failed to fetch books"))
                && r == Failure(ServerMessage(resp, "Failed to fetch books"))
    {
      loading := true;
      error := None;
      query := BooksQuery(page, search);
      if resp.Ok? {
        var body := resp.payload;
        books := body.books;
        totalPages := body.totalPages;
        currentPage := body.currentPage;
        totalBooks := body.total;
        r := Success(body.books);
      } else {
        var message := ServerMessage(resp, "Failed to fetch books");
        error := Some(message);
        r := Failure(message);
      }
      loading := false;
    }

    /** `fetchBook(id)`: hands the book to the caller; the page is not
        touched. */
    method FetchBook(id: string, resp: Response<Book>) returns (r: OpResult<Book>)
      modifies this`loading, this`error
      ensures !loading
      ensures resp.Ok? ==> error == None && r == Success(resp.payload)
      ensures resp.Err? ==>
                error == Some(ServerMessage(resp, "Failed to fetch book")) &&
                r == Failure(ServerMessage(resp, "Failed to fetch book"))
    {
      loading := true;
      error := None;
      if resp.Ok? {
        r := Success(resp.payload);
      } else {
        var message := ServerMessage(resp, "Failed to fetch book");
        error := Some(message);
        r := Failure(message);
      }
      loading := false;
    }

    /** `createBook(data)`: the created book goes to the front of the page
        and the total grows by one. */
    method CreateBook(data: BookData, resp: Response<Book>) returns (r: OpResult<Book>)
      modifies this`books, this`totalBooks, this`loading, this`error
      ensures !loading
      ensures resp.Ok? ==>
                books == [resp.payload] + old(books) && totalBooks == old(totalBooks) + 1 &&
                error == None && r == Success(resp.payload)
      ensures resp.Err? ==>
                books == old(books) && totalBooks == old(totalBooks) &&
                error == Some(ServerMessage(resp, "Failed to create book")) &&
                r == Failure(ServerMessage(resp, "Failed to create book"))
    {
      loading := true;
      error := None;
      if resp.Ok? {
        books := [resp.payload] + books;
        totalBooks := totalBooks + 1;
        r := Success(resp.payload);
      } else {
        var message := ServerMessage(resp, "Failed to create book");
        error := Some(message);
        r := Failure(message);
      }
      loading := false;
    }

    /** `updateBook(id, data)`: every entry with that id is replaced by the
        server's copy; an id not on the page changes nothing. */
    method UpdateBook(id: string, data: BookData, resp: Response<Book>) returns (r: OpResult<Book>)
      modifies this`books, this`loading, this`error
      ensures !loading
      ensures resp.Ok? ==>
                books == ReplaceById(old(books), id, resp.payload) &&
                error == None && r == Success(resp.payload)
      ensures resp.Err? ==>
                books == old(books) &&
                error == Some(ServerMessage(resp, "Failed to update book")) &&
                r == Failure(ServerMessage(resp, "Failed to update book"))
    {
      loading := true;
      error := None;
      if resp.Ok? {
        books := ReplaceById(books, id, resp.payload);
        r := Success(resp.payload);
      } else {
        var message := ServerMessage(resp, "Failed to update book");
        error := Some(message);
        r := Failure(message);
      }
      loading := false;
    }

    /** `deleteBook(id)`: entries with that id leave the page and the total
        drops by one, whether or not the id was on the page. */
    method DeleteBook(id: string, resp: Response<()>) returns (r: OpResult<()>)
      modifies this`books, this`totalBooks, this`loading, this`error
      ensures !loading
      ensures resp.Ok? ==>
                books == RemoveById(old(books), id) && totalBooks == old(totalBooks) - 1 &&
                error == None && r == Success(())
      ensures resp.Err? ==>
                books == old(books) && totalBooks == old(totalBooks) &&
                error == Some(ServerMessage(resp, "Failed to delete book")) &&
                r == Failure(ServerMessage(resp, "Failed to delete book"))
    {
      loading := true;
      error := None;
      if resp.Ok? {
        books := RemoveById(books, id);
        totalBooks := totalBooks - 1;
        r := Success(());
      } else {
        var message := ServerMessage(resp, "Failed to delete book");
        error := Some(message);
        r := Failure(message);
      }
      loading := false;
    }

    /** `borrowBook(id)`: one fewer copy available of that book on the page. */
    method BorrowBook(id: string, resp: Response<Loans.Borrow>) returns (r: OpResult<Loans.Borrow>)
      modifies this`books, this`loading, this`error
      ensures !loading
      ensures resp.Ok? ==>
                books == AdjustAvailable(old(books), id, -1) &&
                error == None && r == Success(resp.payload)
      ensures resp.Err? ==>
                books == old(books) &&
                error == Some(ServerMessage(resp, "Failed to borrow book")) &&
                r == Failure(ServerMessage(resp, "Failed to borrow book"))
    {
      loading := true;
      error := None;
      if resp.Ok? {
        books := AdjustAvailable(books, id, -1);
        r := Success(resp.payload);
      } else {
        var message := ServerMessage(resp, "Failed to borrow book");
        error := Some(message);
        r := Failure(message);
      }
      loading := false;
    }

    /** `returnBook(id)`: one more copy available of that book on the page. */
    method ReturnBook(id: string, resp: Response<Loans.Borrow>) returns (r: OpResult<Loans.Borrow>)
      modifies this`books, this`loading, this`error
      ensures !loading
      ensures resp.Ok? ==>
                books == AdjustAvailable(old(books), id, 1) &&
                error == None && r == Success(resp.payload)
      ensures resp.Err? ==>
                books == old(books) &&
                error == Some(ServerMessage(resp, "Failed to return book")) &&
                r == Failure(ServerMessage(resp, "Failed to return book"))
    {
      loading := true;
      error := None;
      if resp.Ok? {
        books := AdjustAvailable(books, id, 1);
        r := Success(resp.payload);
      } else {
        var message := ServerMessage(resp, "Failed to return book");
        error := Some(message);
        r := Failure(message);
      }
      loading := false;
    }

    /** `searchBooks(term)`: records the term, goes back to page 1 and
        fetches page 1 with the term. */
    method SearchBooks(term: string, resp: Response<BookPage>)
      returns (query: BookQuery, r: OpResult<seq<Book>>)
      modifies this
      ensures searchTerm == term && !loading
      ensures query == BooksQuery(1, term)
      ensures resp.Ok? ==>
                books == resp.payload.books && currentPage == resp.payload.currentPage &&
                totalPages == resp.payload.totalPages && totalBooks == resp.payload.total &&
                error == None && r == Success(resp.payload.books)
      ensures resp.Err? ==>
                books == old(books) && currentPage == 1 &&
                totalPages == old(totalPages) && totalBooks == old(totalBooks) &&
                error == Some(ServerMessage(resp, "Failed to fetch books")) &&
                r == Failure(ServerMessage(resp, "Failed to fetch books"))
    {
      searchTerm := term;
      currentPage := 1;
      query, r := FetchBooks(1, term, resp);
    }

    /** `setCurrentPage(page)`, exposed to the views. */
    method SetCurrentPage(page: int)
      modifies this`currentPage
      ensures currentPage == page
    {
      currentPage := page;
    }

    method ClearError()
      modifies this`error
      ensures error == None
    {
      error := None;
    }
  }

  /** A successful create followed by a successful delete of the created
      book, run on the store, gives back the page and the total it had. */
  method CreateThenDeleteOnStore(store: BookStore, data: BookData, created: Book)
    requires !HasId(store.books, created.id)
    modifies store
    ensures store.books == old(store.books) && store.totalBooks == old(store.totalBooks)
  {
    var r1 := store.CreateBook(data, Ok(created));
    var r2 := store.DeleteBook(created.id, Ok(()));
    CreateThenDelete(old(store.books), created);
  }

  /** The same for a successful borrow and return. */
  method BorrowThenReturnOnStore(store: BookStore, id: string, b1: Loans.Borrow, b2: Loans.Borrow)
    modifies store
    ensures store.books == old(store.books)
  {
    var r1 := store.BorrowBook(id, Ok(b1));
    var r2 := store.ReturnBook(id, Ok(b2));
    BorrowThenReturn(old(store.books), id);
  }
}
