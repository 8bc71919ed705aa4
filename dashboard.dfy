/** The book dashboard: the first fetch, the search box, page changes and
    the pagination bar over the book store. */
module Dashboard {
  import opened Common
  import opened Books
  import Pagination

  class DashboardView {
    /** The search box's own copy of the term. */
    var localSearchTerm: string

    constructor ()
      ensures localSearchTerm == ""
    {
      localSearchTerm := "";
    }

    /** First render: `fetchBooks(1, '')`. */
    method Mount(store: BookStore, resp: Response<BookPage>) returns (query: BookQuery)
      modifies store
      ensures query == BookQuery(1, PageSize, None)
      ensures store.searchTerm == old(store.searchTerm) && !store.loading
      ensures resp.Ok? ==> store.Shows(resp.payload)
      ensures resp.Err? ==>
                store.books == old(store.books) && store.currentPage == old(store.currentPage) &&
                store.totalPages == old(store.totalPages) && store.totalBooks == old(store.totalBooks) &&
                store.error == Some(ServerMessage(resp, "Failed to fetch books"))
    {
      var r;
      query, r := store.FetchBooks(1, "", resp);
    }

    /** `handleSearch(term)`: the store records the term and fetches page 1. */
    method HandleSearch(store: BookStore, term: string, resp: Response<BookPage>) returns (query: BookQuery)
      modifies this, store
      ensures localSearchTerm == term && store.searchTerm == term
      ensures query.page == 1 && query.limit == PageSize
      ensures query.search.Some? <==> term != ""
      ensures !store.loading
      ensures resp.Ok? ==> store.Shows(resp.payload)
      ensures resp.Err? ==>
                store.books == old(store.books) && store.currentPage == 1 &&
                store.totalPages == old(store.totalPages) && store.totalBooks == old(store.totalBooks) &&
                store.error == Some(ServerMessage(resp, "Failed to fetch books"))
    {
      localSearchTerm := term;
      var r;
      query, r := store.SearchBooks(term, resp);
    }

    /** `handlePageChange(page)`: the cursor moves to `page` and that page
        is fetched with the term already in the store. */
    method HandlePageChange(store: BookStore, page: int, resp: Response<BookPage>) returns (query: BookQuery)
      modifies store
      ensures query == BooksQuery(page, old(store.searchTerm))
      ensures store.searchTerm == old(store.searchTerm) && !store.loading
      ensures resp.Ok? ==> store.Shows(resp.payload)
      ensures resp.Err? ==>
                store.books == old(store.books) && store.currentPage == page &&
                store.totalPages == old(store.totalPages) && store.totalBooks == old(store.totalBooks) &&
                store.error == Some(ServerMessage(resp, "Failed to fetch books"))
    {
      store.SetCurrentPage(page);
      var r;
      query, r := store.FetchBooks(page, store.searchTerm, resp);
    }
  }

  /** The dashboard's `renderPagination`, over the store's cursor. */
  method RenderBookPagination(store: BookStore) returns (bar: Pagination.Bar)
    ensures bar.Hidden? <==> store.totalPages <= 1
    ensures bar.Shown? ==> |bar.pages| == Pagination.Min(Pagination.MaxVisiblePages, store.totalPages)
    ensures bar.Shown? ==> forall k :: 0 <= k < |bar.pages| ==>
              bar.pages[k] == bar.pages[0] + k && 1 <= bar.pages[k] <= store.totalPages
    ensures bar.Shown? && 1 <= store.currentPage <= store.totalPages ==> store.currentPage in bar.pages
    ensures bar.Shown? ==> (bar.prevDisabled <==> store.currentPage == 1)
    ensures bar.Shown? ==> (bar.nextDisabled <==> store.currentPage == store.totalPages)
  {
    bar := Pagination.RenderPagination(store.currentPage, store.totalPages);
  }
}
