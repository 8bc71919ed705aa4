# Library frontend — a Dafny model of its client-side core

The library frontend is a React single-page application. Borrowers browse the
catalogue, borrow and return books, and follow their loans. Librarians add
and edit books and see every borrow record. Everyone can edit a profile and
send a contact message. This project models the client-side core of that
application:

- the two shared stores: the book store (catalogue page, search term,
  pagination, CRUD, borrow/return) and the session store (user, token,
  login, register, logout, profile update);
- the pages that drive them: the dashboard, the librarian's borrow records,
  the borrower's own books, a book's details, the add/edit book form, the
  contact form and the profile page.

Every HTTP answer is a parameter, `Response<T> = Ok(payload) | Err(serverMsg,
transportMsg)`, and each asynchronous handler runs as one atomic step. A
store or a page whose state changes becomes a `class` whose fields are
updated by methods with `modifies` clauses. The rules behind that state
(validation, list updates, day counts, the pagination window) are pure
functions. Lemmas state what those rules promise.

Modules, one per concern:

| file | module | models |
|---|---|---|
| common.dfy | Common | `Option`, `Response`, `{ success, message }` results, the `a \|\| 'fallback'` message idiom |
| text.dfy | Text | JavaScript whitespace and `trim()`, the `\S+@\S+\.\S+` e-mail test, the ISBN expression, `parseInt` |
| forms.dfy | Forms | the error objects shared by the three forms |
| pagination.dfy | Pagination | the five-button page window and its loop |
| loans.dfy | Loans | borrow records and the `Math.ceil` day counts |
| books.dfy | Books | `contexts/BookContext.js` |
| session.dfy | Session | `contexts/AuthContext.js` |
| dashboard.dfy | Dashboard | `pages/Dashboard.js` |
| borrow_records.dfy | BorrowRecords | `pages/BorrowRecords.js` |
| my_books.dfy | MyBooks | `pages/MyBooks.js` |
| book_details.dfy | BookDetails | `pages/BookDetails.js` |
| book_form.dfy | BookForm | `pages/BookForm.js` |
| contact.dfy | Contact | `pages/Contact.js` |
| profile.dfy | Profile | `pages/Profile.js` |

Where a page reads a field of an answer, the model keeps only that field.
Timestamps are whole milliseconds.

## Model

| member | source | states |
|---|---|---|
| Common.OrElse | src/pages/BookDetails.js:39 | `m \|\| fallback`: the message when it is present and non-empty, otherwise the fallback; never empty when the fallback is not |
| Common.ServerMessage | src/contexts/BookContext.js:152-155 | the message a failed request reports: the server's `message` when present and non-empty; the fallback when it is absent or empty; never empty |
| Text.TrimStart | src/pages/BookForm.js:60 | leading whitespace removal never lengthens the text |
| Text.TrimEnd | src/pages/BookForm.js:60 | trailing whitespace removal never lengthens the text |
| Text.TrimStartShape | src/pages/BookForm.js:60 | the result is a suffix of the input, only whitespace was dropped, and it starts with a non-space or is empty |
| Text.TrimEndShape | src/pages/BookForm.js:60 | the result is a prefix of the input, only whitespace was dropped, and it ends with a non-space or is empty |
| Text.TrimIsCore | src/pages/BookForm.js:60 | `Text.Trim` is `s.trim()`: a slice of the input with whitespace-only margins whose ends are not whitespace |
| Text.TrimEmptyIff | src/pages/BookForm.js:60 | `!s.trim()` holds exactly when the text is all whitespace |
| Text.TrimIdempotent | src/pages/BookForm.js:109-111 | trimming a trimmed text changes nothing, so the payload's texts pass their own trim |
| Text.EmailPatternIffMatch | src/pages/Contact.js:41 | `Text.EmailPattern`, the `\S+@\S+\.\S+` test shared by the contact form and the profile e-mail (src/pages/Profile.js:56), holds exactly when the scan's match state is reached |
| Text.EmailPatternNotBlank | src/pages/Contact.js:39-43 | a text the e-mail pattern accepts is never blank, so "Email is required" and the pattern never both apply |
| Text.TestEmailPattern | src/pages/Contact.js:41 | the one-pass loop answers true exactly when the pattern occurs somewhere in the text |
| Text.OpenStep | src/pages/Contact.js:41 | one character of the scan: how the "inside a partial match" states advance |
| Text.MatchStep | src/pages/Contact.js:41 | one character of the scan: a full match is found by now iff it was found before or ends here |
| Text.DigitRun | src/pages/BookForm.js:86 | the length of the leading run of decimal digits |
| Text.IsbnLayoutLength | src/pages/BookForm.js:80-81 | every text `Text.IsbnLayout` (the ISBN expression) accepts is 10 to 26 characters long |
| Text.ParseInt | src/pages/BookForm.js:86 | `parseInt`: NaN exactly when no digit follows the optional whitespace, sign and `0x` prefix |
| Text.ParseDecimalDigits | src/pages/BookForm.js:86 | a run of decimal digits parses to its decimal value |
| Text.DigitRunAll | src/pages/BookForm.js:86 | a text made only of digits is one whole digit run |
| Forms.ClearFieldError | src/pages/BookForm.js:49-54 | the field's message becomes empty when one is shown; every other entry and an absent entry stay as they were |
| Forms.WithError | src/pages/BookForm.js:58-66 | recording a rule's verdict: the field is present exactly when the rule failed, with its message; other fields untouched |
| Forms.RequiredMinLength | src/pages/Contact.js:33-37 | accepted iff the trimmed text has at least `min` characters; "required" exactly when the trimmed text is empty |
| Forms.EmailFieldError | src/pages/Contact.js:39-43 | the e-mail field is accepted exactly when the pattern occurs; "Email is required" exactly when it is blank |
| Forms.CheckEmail | src/pages/Contact.js:39-43 | computes the e-mail rule's verdict with the scanning loop |
| Pagination.RenderPagination | src/pages/Dashboard.js:38-81 | hidden iff one page or fewer; otherwise min(5, total) consecutive pages inside 1..total that include the current page; previous/next disabled exactly on the first/last page |
| Pagination.WindowFacts | src/pages/Dashboard.js:39-48 | the window lies in 1..total, has min(5, total) pages and holds the current page |
| Pagination.WindowCentred | src/pages/Dashboard.js:39-48 | away from the edges the window is centred on the current page |
| Loans.Abs | src/pages/BorrowRecords.js:69 | `Math.abs` |
| Loans.CeilDiv | src/pages/BorrowRecords.js:70 | `Math.ceil(x / d)` on whole numbers: the least r with x <= d·r |
| Loans.DaysBorrowed | src/pages/BorrowRecords.js:66-71 | the count of started days between the borrow date and the return date, or now when there is none |
| Loans.DaysBetween | src/pages/BorrowRecords.js:66-71 | zero exactly for equal dates; otherwise the least number of whole days covering the gap |
| Loans.DaysBetweenSymmetric | src/pages/BorrowRecords.js:69 | the absolute difference makes the count independent of argument order |
| Loans.DaysRemaining | src/pages/MyBooks.js:74-80 | the started days left until 14 days after the borrow date: 0 throughout the day after that, negative from 15 full days after the borrow date |
| Loans.OverdueIff | src/pages/MyBooks.js:74-80 | the remaining count is negative exactly when 15 or more days have passed since the borrow |
| Books.ReplaceById | src/contexts/BookContext.js:102-104 | every book with the id becomes the updated record; every other position keeps its book |
| Books.RemoveById | src/contexts/BookContext.js:123 | exactly the books with another id remain |
| Books.AdjustAvailable | src/contexts/BookContext.js:145-149 | books with the id have `available` moved by delta; every other book and field kept |
| Books.RemoveByIdAppend | src/contexts/BookContext.js:123 | the filter works piece by piece over a concatenation, so order is kept |
| Books.RemoveAbsentId | src/contexts/BookContext.js:123 | deleting an id no book has leaves the list as it was |
| Books.ReplaceAbsentId | src/contexts/BookContext.js:102-104 | updating an id no book has leaves the list as it was |
| Books.BorrowThenReturn | src/contexts/BookContext.js:137-183 | a borrow followed by a return of the same book restores every list entry |
| Books.CreateThenDelete | src/contexts/BookContext.js:71-135 | creating a book with a new id and deleting it restores the list |
| Books.BookStore.constructor | src/contexts/BookContext.js:15-21 | the initial store: no books, not loading, no error, page 1 of 1, empty search |
| Books.BookStore.FetchBooks | src/contexts/BookContext.js:23-53 | sends `{ page, limit: 10 }` with `search` exactly when the term is non-empty; on success takes the page's books and counts; on failure keeps them and records the server's or the fallback message |
| Books.BookStore.FetchBook | src/contexts/BookContext.js:55-69 | returns the fetched book or a failure carrying the server's or the fallback message, which also becomes the store's error |
| Books.BookStore.CreateBook | src/contexts/BookContext.js:71-91 | success prepends the created book and increments the total; failure keeps both and reports the message |
| Books.BookStore.UpdateBook | src/contexts/BookContext.js:93-114 | success replaces the book by id; failure keeps the list and reports the message |
| Books.BookStore.DeleteBook | src/contexts/BookContext.js:116-135 | success removes the book by id and decrements the total; failure keeps both |
| Books.BookStore.BorrowBook | src/contexts/BookContext.js:137-159 | success takes one available copy from the book; failure keeps the list and reports the message |
| Books.BookStore.ReturnBook | src/contexts/BookContext.js:161-183 | success puts one copy back on the book; failure keeps the list and reports the message |
| Books.BookStore.SearchBooks | src/contexts/BookContext.js:185-189 | records the term and fetches page 1 for it; success takes the page and clears the error; failure keeps the books, leaves page 1 and records the message |
| Books.BookStore.SetCurrentPage | src/contexts/BookContext.js:19 | the page shown becomes the given one |
| Books.BookStore.ClearError | src/contexts/BookContext.js:191-193 | the store's error becomes null |
| Books.CreateThenDeleteOnStore | src/contexts/BookContext.js:71-135 | on the store, a successful create then delete of the new book restores the list and the total |
| Books.BorrowThenReturnOnStore | src/contexts/BookContext.js:137-183 | on the store, a successful borrow then return restores the list |
| Session.BearerHeader | src/contexts/AuthContext.js:23 | the header is `Bearer ` followed by exactly the token |
| Session.RolesExclusive | src/contexts/AuthContext.js:134-136 | of the derived flags `IsAuthenticated`, `IsLibrarian` and `IsBorrower`, nobody is both librarian and borrower, and either role implies being signed in |
| Session.Initial | src/contexts/AuthContext.js:15-25 | no user, loading, no error; the header is attached exactly when a non-empty token is stored |
| Session.AfterCheckAuth | src/contexts/AuthContext.js:29-46 | without a token only loading ends; with one, success sets the user and failure drops the token and the header |
| Session.FailureMessage | src/contexts/AuthContext.js:67-68 | the server's non-empty message first, else the non-empty transport message (`error.message`), else the fallback; never empty |
| Session.AfterAuth | src/contexts/AuthContext.js:51-98 | success stores the token, attaches the header and sets the user; failure records the message and changes nothing else |
| Session.AfterLogout | src/contexts/AuthContext.js:100-105 | no token, no header, no user, no error |
| Session.AfterUpdateProfile | src/contexts/AuthContext.js:107-119 | the user gets the new name and e-mail and keeps every other field; no error |
| Session.LogoutIdempotent | src/contexts/AuthContext.js:100-105 | logging out twice is logging out once |
| Session.UpdateProfileKeepsRole | src/contexts/AuthContext.js:112 | a profile update never changes whether the user is librarian or borrower |
| Session.TokenAttachedInvariant | src/contexts/AuthContext.js:20-123 | every transition keeps the request header equal to `Bearer` + the stored token, and absent without one |
| Session.CheckAuthSignsInOnlyWithToken | src/contexts/AuthContext.js:29-46 | the start-up check signs a user in exactly when a token is stored and the check succeeds |
| Session.SessionStore.constructor | src/contexts/AuthContext.js:15-25 | the store starts in the initial state for the persisted token |
| Session.SessionStore.CheckAuth | src/contexts/AuthContext.js:29-46 | the store takes the state after the start-up check |
| Session.SessionStore.Login | src/contexts/AuthContext.js:51-71 | the state after authentication with the "Login failed" fallback; success iff the request succeeded |
| Session.SessionStore.Register | src/contexts/AuthContext.js:73-98 | sends the body with role defaulting to "borrower"; the state after authentication with the "Registration failed" fallback |
| Session.SessionStore.Authenticate | src/contexts/AuthContext.js:51-98 | the shared success and failure handling of login and register |
| Session.SessionStore.Logout | src/contexts/AuthContext.js:100-105 | the store takes the logged-out state |
| Session.SessionStore.UpdateProfile | src/contexts/AuthContext.js:107-119 | the store takes the updated-profile state, and the result is always a success |
| Session.SessionStore.ClearError | src/contexts/AuthContext.js:121-123 | only the error is cleared |
| Dashboard.DashboardView.constructor | src/pages/Dashboard.js:22 | the local search term starts empty |
| Dashboard.DashboardView.Mount | src/pages/Dashboard.js:24-26 | fetches page 1 with no search term; on success the store shows the answered page with no error; on failure it keeps its page and shows the message; never left loading |
| Dashboard.DashboardView.HandleSearch | src/pages/Dashboard.js:28-31 | records the term locally and in the store and asks for page 1, with a search exactly when the term is non-empty; on success the store shows the answered page; on failure it keeps its books at page 1 and shows the message |
| Dashboard.DashboardView.HandlePageChange | src/pages/Dashboard.js:33-36 | fetches the page with the store's current term; on success the store shows the answered page; on failure it keeps its books, sits on the requested page and shows the message |
| Dashboard.RenderBookPagination | src/pages/Dashboard.js:38-81 | the bar for the store's page and page count: hidden iff one page or fewer; consecutive in-range pages holding the current one; edges disabled |
| BorrowRecords.BorrowRecordsView.constructor | src/pages/BorrowRecords.js:5-10 | no records, loading, no error, page 1 of 1, every status |
| BorrowRecords.BorrowRecordsView.FetchBorrowRecords | src/pages/BorrowRecords.js:14-47 | the request carries the page and limit 10 but never the status; success takes records and page count; failure keeps them and shows "Failed to fetch borrow records" |
| BorrowRecords.BorrowRecordsView.HandleStatusFilter | src/pages/BorrowRecords.js:51-54 | the filter changes and the page goes back to 1 |
| BorrowRecords.BorrowRecordsView.SetCurrentPage | src/pages/BorrowRecords.js:100-108 | the page shown becomes the given one |
| BorrowRecords.BorrowRecordsView.RenderPagination | src/pages/BorrowRecords.js:73-116 | the same window, bounds and disabled edges as the dashboard's bar |
| BorrowRecords.DaysBorrowedColumn | src/pages/BorrowRecords.js:66-71 | the count does not depend on which date is the borrow date; without a return date it runs to now |
| MyBooks.WithoutBook | src/pages/MyBooks.js:45 | exactly the loans of other books remain |
| MyBooks.WithoutBookAppend | src/pages/MyBooks.js:45 | the filter works piece by piece over a concatenation, so order is kept |
| MyBooks.WithoutAbsentBook | src/pages/MyBooks.js:45 | a list without loans of the book is left as it was |
| MyBooks.WithoutBookIdempotent | src/pages/MyBooks.js:45 | filtering twice by one book is filtering once |
| MyBooks.RemainingLabelOf | src/pages/MyBooks.js:173-181 | "Overdue" exactly from 15 days after the borrow; otherwise the non-negative started days left |
| MyBooks.DaysBorrowedSoFar | src/pages/MyBooks.js:166-171 | the started days between the borrow and now |
| MyBooks.MyBooksView.constructor | src/pages/MyBooks.js:5-9 | no loans, loading, no error, the "borrowed" tab, no busy buttons |
| MyBooks.MyBooksView.FetchMyBooks | src/pages/MyBooks.js:12-28 | asks for the open tab's status; success takes the loans; failure keeps them and shows "Failed to fetch your books" |
| MyBooks.MyBooksView.SetStatusFilter | src/pages/MyBooks.js:94-104 | the tab becomes the given status |
| MyBooks.MyBooksView.HandleReturnBook | src/pages/MyBooks.js:37-57 | a `success` reply drops the book's loans and asks for a refetch iff the returned tab is open; a failed request alerts with the server's message or "Unknown error"; the busy flag ends off |
| BookDetails.BorrowedCount | src/pages/BookDetails.js:179 | with a consistent stock (0 <= available <= quantity) the figure is between 0 and the quantity; it is 0 exactly when every copy is on the shelf |
| BookDetails.FeedbackStyling | src/pages/BookDetails.js:39-57 | both confirmations are styled as successes and both fallbacks are not; a failure is styled as a success exactly when the server's own non-empty message includes "success" |
| BookDetails.ReturnOnFullShelf | src/pages/BookDetails.js:53-55 | the uncapped increment: a return on a record with every copy on the shelf leaves the "Borrowed" figure at -1 |
| BookDetails.BookDetailsView.constructor | src/pages/BookDetails.js:12-14 | no book, not busy, no message |
| BookDetails.BookDetailsView.LoadBook | src/pages/BookDetails.js:16-25 | keeps the fetched record and clears the store's error on success; keeps the previous record and sets the store's error on failure; never left loading |
| BookDetails.BookDetailsView.HandleBorrow | src/pages/BookDetails.js:27-43 | acts exactly when a record with an available copy is shown; success takes a copy off the page and the store, clears the store's error and confirms; failure shows the server's or the fallback message on the page and in the store; otherwise nothing changes; the condition for acting is `BookDetails.IsAvailable` (`book.available > 0`), the same test that disables the Borrow button at src/pages/BookDetails.js:91 |
| BookDetails.BookDetailsView.HandleReturn | src/pages/BookDetails.js:45-61 | acts exactly when a record is shown; success puts a copy back on the page and the store, clears the store's error and confirms; failure shows the message on the page and in the store |
| BookForm.TitleError | src/pages/BookForm.js:60-66 | accepted iff the trimmed title has 1 to 200 characters; "required" iff blank; "cannot exceed 200 characters" when longer; "cannot be empty" never produced |
| BookForm.AuthorError | src/pages/BookForm.js:68-74 | accepted iff the trimmed author has 1 to 100 characters; "required" iff blank; "cannot exceed 100 characters" when longer; "cannot be empty" never produced |
| BookForm.IsbnError | src/pages/BookForm.js:76-84 | accepted iff the trimmed ISBN is non-blank and matches the expression, and then it has 10 to 26 characters; "required" iff blank; "Please enter a valid ISBN" for a non-blank text that does not match |
| BookForm.QuantityError | src/pages/BookForm.js:86-93 | accepted iff the quantity parses to a whole number from 1 to 1000; "required" iff it is falsy or NaN; otherwise "at least 1" below 1 and "cannot exceed 1000" above 1000 |
| BookForm.BookFormErrors | src/pages/BookForm.js:57-97 | the error object holds exactly the failing fields, each with its rule's message |
| BookForm.NoErrorsIffValid | src/pages/BookForm.js:96 | `Forms.NoErrors` (`Object.keys(newErrors).length === 0`) holds exactly when all four rules accept |
| BookForm.ZeroQuantityMessages | src/pages/BookForm.js:86-91 | the number 0 counts as missing, the typed "0" as too small |
| BookForm.TypedDigitsQuantity | src/pages/BookForm.js:86-93 | `BookForm.ParseQuantity` on typed digits gives their decimal value, which passes exactly when it is from 1 to 1000 |
| BookForm.Submission | src/pages/BookForm.js:99-113 | a payload is sent exactly when the error object is empty |
| BookForm.SubmissionWithinRules | src/pages/BookForm.js:99-113 | `BookForm.Payload` is sent iff every rule accepts, and then it holds the trimmed texts within their bounds and the parsed quantity, from 1 to 1000 |
| BookForm.BookFormView.constructor | src/pages/BookForm.js:10-18 | the empty form with quantity 1, no errors, not editing |
| BookForm.BookFormView.Mount | src/pages/BookForm.js:21-38 | with a route id the form edits and, when the fetch succeeds, is filled from the book; the store's error follows the fetch and it is not left loading; without an id the store is untouched; editing never happens without an id |
| BookForm.BookFormView.HandleChange | src/pages/BookForm.js:41-55 | the named field takes the typed text (quantity as text); only that field's error is blanked |
| BookForm.BookFormView.ValidateForm | src/pages/BookForm.js:57-97 | the error object becomes the rules' verdict; valid iff it is empty |
| BookForm.BookFormView.HandleSubmit | src/pages/BookForm.js:99-127 | sends the submission of the form; updates by id when editing; when creating, prepends and adds one to the total; the store's error is cleared or set with the update or create fallback; navigates iff sent and successful; nothing happens to the store when invalid |
| Contact.NameError | src/pages/Contact.js:33-37 | accepted iff the trimmed name has at least 2 characters |
| Contact.SubjectError | src/pages/Contact.js:45-49 | accepted iff the trimmed subject has at least 5 characters |
| Contact.MessageError | src/pages/Contact.js:51-55 | accepted iff the trimmed message has at least 10 characters |
| Contact.ContactErrors | src/pages/Contact.js:30-59 | the error object holds exactly the failing fields, each with its rule's message |
| Contact.ContactNoErrorsIffValid | src/pages/Contact.js:58 | the error object is empty exactly when all four rules accept |
| Contact.EmptiedFormIsAllRequired | src/pages/Contact.js:76-81 | the form emptied after sending would report every field as required |
| Contact.CollectErrors | src/pages/Contact.js:30-59 | computes the error object, the e-mail rule with the scanning loop |
| Contact.ContactView.constructor | src/pages/Contact.js:4-12 | the empty form, no errors, not submitting, no message |
| Contact.ContactView.HandleChange | src/pages/Contact.js:14-28 | the named field takes the text; only that field's error is blanked |
| Contact.ContactView.ValidateForm | src/pages/Contact.js:30-59 | the error object becomes the rules' verdict; valid iff it is empty |
| Contact.ContactView.HandleSubmit | src/pages/Contact.js:61-87 | an invalid form only shows its errors; a valid one shows the thank-you message and is emptied |
| Contact.ContactView.Send | src/pages/Contact.js:68-86 | the simulated send always thanks the user and empties the form |
| Profile.FormFromUser | src/pages/Profile.js:14-21 | the form shows the user's name and e-mail, or empty texts where they are absent |
| Profile.ProfileNameError | src/pages/Profile.js:46-52 | accepted iff the trimmed name has at least 2 characters, all ASCII letters or whitespace; "required" iff blank; "at least 2 characters" for one character; "letters and spaces" for a longer name with another character |
| Profile.AcceptedNameIsLetterBounded | src/pages/Profile.js:50 | `Text.LettersAndSpaces`, the `^[a-zA-Z\s]+$` test: an accepted name, as saved, begins and ends with a letter |
| Profile.ProfileErrors | src/pages/Profile.js:43-62 | the error object holds exactly the failing fields, each with its rule's message |
| Profile.ProfileNoErrorsIffValid | src/pages/Profile.js:61 | the error object is empty exactly when both rules accept |
| Profile.CollectErrors | src/pages/Profile.js:43-62 | computes the error object, the e-mail rule with the scanning loop |
| Profile.ProfileView.constructor | src/pages/Profile.js:6-12 | the empty form, no errors, not submitting, no message |
| Profile.ProfileView.SyncFromUser | src/pages/Profile.js:14-21 | a present user refills the form; an absent one leaves it |
| Profile.ProfileView.Mount | src/pages/Profile.js:14-25 | the form mirrors the signed-in user and the session's error is cleared |
| Profile.ProfileView.HandleChange | src/pages/Profile.js:27-41 | the named field takes the text; only that field's error is blanked |
| Profile.ProfileView.ValidateForm | src/pages/Profile.js:43-62 | the error object becomes the rules' verdict; valid iff it is empty |
| Profile.ProfileView.HandleSubmit | src/pages/Profile.js:64-81 | an invalid form only shows its errors; a valid one saves the trimmed name and the e-mail as typed, confirms, and shows what was saved |
| Profile.ProfileView.Save | src/pages/Profile.js:71-80 | the session takes the updated profile, the success message shows and the form mirrors the saved user |
| Profile.ProfileView.HandleCancel | src/pages/Profile.js:83-92 | back to the user's values, with no errors and no message |

## Left out

- HTTP, `localStorage` and the request defaults: each answer is a `Response` parameter and each handler one atomic step. Interleavings of concurrent requests and React's batching of state updates are not modelled.
- Transport failures that carry no server body are `Err` with no `serverMsg`. The console logging is not modelled.
- Rendering, CSS classes, routing (`navigate`, `useParams`), `alert` and `window.confirm` are not modelled. Where a handler navigates or alerts, it returns that fact as a result.
- Dates are whole milliseconds. `new Date(...)` parsing, `toLocaleDateString` formatting and the floating-point division behind the day counts are not modelled.
- Loans.DaysBorrowed: `Math.ceil` of an exact quotient on whole milliseconds; floating-point rounding of very large differences is not modelled.
- Text.ParseInt: reads decimal and `0x` hexadecimal digit runs after whitespace and a sign, as `parseInt` with no radix does. Values beyond double precision, and the number-to-string conversion of non-integer numbers, are not modelled.
- Text.TrimStart and Text.TrimEnd treat the ASCII whitespace characters, U+00A0, U+FEFF, the Unicode space separators and the line/paragraph separators as whitespace. Characters outside the Basic Multilingual Plane are not modelled.
- Text.IsbnLayout transcribes the lookaheads of the ISBN expression as predicates; general regular-expression matching is not modelled.
- Contact.ContactView.HandleSubmit: the simulated send is a timer that always resolves, so the `catch` branch with its error message can never run and is not modelled.
- MyBooks.MyBooksView.HandleReturnBook: a successful request whose reply has `success` false changes nothing and shows nothing, as in the source.
- BookDetails.BookDetailsView.HandleReturn is modelled even though the page renders no button for it; its increment has no upper bound (see BookDetails.ReturnOnFullShelf).
- BorrowRecords.BorrowRecordsView.FetchBorrowRecords: the status is added to the query object after the request has been sent, so the filter is never transmitted. The model keeps this behaviour.
- Profile.ProfileView.Save: the `user` effect that refills the form after the update is run inside the same step.
- BookForm.BookFormView.ValidateForm, Contact.ContactView.ValidateForm and Profile.ProfileView.ValidateForm are specified by the error-object function that the rules define, not field by field in the method's own contract.
- BookForm.BookFormView.Mount and BookDetails.BookDetailsView.LoadBook load the book once per route id. In the source both effects also depend on the store's `fetchBook`, which is a new closure on every render of the book store. The fetch itself toggles the store's `loading`, so the load repeats, and each successful repeat in the form overwrites what the user has typed. The model does not capture these repeated loads.
- MyBooks.WithoutBook and MyBooks.MyBooksView.HandleReturnBook assume every loan references a book. A loan whose book was deleted (a null `bookId`) is shown with its title guarded, but the page's return filter and Return button read `borrow.bookId._id`, which throws. The model does not represent such a loan.
- The Cancel and Edit buttons of the form and details pages only navigate, so they are not modelled.
- `App.js`, the components (`Navbar`, `SearchBar`, `BookCard`, `ApiTest`), `About.js`, `LibrarianDashboard.js` and `vercel-detect.js` are not part of this model.
