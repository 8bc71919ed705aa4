/** The librarian's add/edit form: field editing, the four validation
    rules, and submission through the book store. */
module BookForm {
  import opened Common
  import opened Text
  import opened Forms
  import opened Books

  datatype BookField = Title | Author | Isbn | Quantity

  /** The quantity slot holds a number until the user types in it, and the
      input's text afterwards. */
  datatype QuantityValue = Number(n: int) | Text(s: string)

  datatype BookFormData = BookFormData(title: string, author: string, isbn: string, quantity: QuantityValue)

  const EmptyForm: BookFormData := BookFormData("", "", "", Number(1))

  /** `!formData.quantity`: the number 0 and the empty text are falsy. */
  predicate QuantityFalsy(q: QuantityValue) {
    q == Number(0) || q == Text("")
  }

  /** `parseInt(formData.quantity)`. A whole number is printed in decimal
      and read back unchanged. */
  function ParseQuantity(q: QuantityValue): Option<int> {
    match q
    case Number(n) => Some(n)
    case Text(s) => ParseInt(s)
  }

  // ---------------------------------------------------------------------
  // The rules, one per field, in the order `validateForm` applies them

  /** The "cannot be empty" message is never produced: a trimmed title
      that is not empty has at least one character. */
  function TitleError(title: string): (r: Option<string>)
    ensures r.None? <==> 1 <= |Trim(title)| <= 200
    ensures r == Some("Title is required") <==> Trim(title) == ""
    ensures |Trim(title)| > 200 ==> r == Some("Title cannot exceed 200 characters")
    ensures r != Some("Title cannot be empty")
  {
    var t := Trim(title);
    if t == "" then Some("Title is required")
    else if |t| < 1 then Some("Title cannot be empty")
    else if |t| > 200 then Some("Title cannot exceed 200 characters")
    else None
  }

  function AuthorError(author: string): (r: Option<string>)
    ensures r.None? <==> 1 <= |Trim(author)| <= 100
    ensures r == Some("Author is required") <==> Trim(author) == ""
    ensures |Trim(author)| > 100 ==> r == Some("Author name cannot exceed 100 characters")
    ensures r != Some("Author name cannot be empty")
  {
    var t := Trim(author);
    if t == "" then Some("Author is required")
    else if |t| < 1 then Some("Author name cannot be empty")
    else if |t| > 100 then Some("Author name cannot exceed 100 characters")
    else None
  }

  /** An accepted ISBN, once trimmed, is 10 to 26 characters long. */
  function IsbnError(isbn: string): (r: Option<string>)
    ensures r.None? <==> Trim(isbn) != "" && IsbnLayout(Trim(isbn))
    ensures r.None? ==> 10 <= |Trim(isbn)| <= 26
    ensures r == Some("ISBN is required") <==> Trim(isbn) == ""
    ensures Trim(isbn) != "" && !IsbnLayout(Trim(isbn)) ==> r == Some("Please enter a valid ISBN")
  {
    var t := Trim(isbn);
    if t == "" then Some("ISBN is required")
    else if !IsbnLayout(t) then Some("Please enter a valid ISBN")
    else (IsbnLayoutLength(t); None)
  }

  function QuantityError(q: QuantityValue): (r: Option<string>)
    ensures r.None? <==> ParseQuantity(q).Some? && 1 <= ParseQuantity(q).value <= 1000
    ensures r == Some("Quantity is required") <==> QuantityFalsy(q) || ParseQuantity(q).None?
    ensures !QuantityFalsy(q) && ParseQuantity(q).Some? && ParseQuantity(q).value < 1 ==>
              r == Some("Quantity must be at least 1")
    ensures !QuantityFalsy(q) && ParseQuantity(q).Some? && ParseQuantity(q).value > 1000 ==>
              r == Some("Quantity cannot exceed 1000")
  {
    var n := ParseQuantity(q);
    if QuantityFalsy(q) || n.None? then Some("Quantity is required")
    else if n.value < 1 then Some("Quantity must be at least 1")
    else if n.value > 1000 then Some("Quantity cannot exceed 1000")
    else None
  }

  /** The error object `validateForm` builds: exactly the failing fields,
      each with its rule's message. */
  function BookFormErrors(fd: BookFormData): (e: map<BookField, string>)
    ensures Title in e <==> TitleError(fd.title).Some?
    ensures Author in e <==> AuthorError(fd.author).Some?
    ensures Isbn in e <==> IsbnError(fd.isbn).Some?
    ensures Quantity in e <==> QuantityError(fd.quantity).Some?
    ensures Title in e ==> e[Title] == TitleError(fd.title).value
    ensures Author in e ==> e[Author] == AuthorError(fd.author).value
    ensures Isbn in e ==> e[Isbn] == IsbnError(fd.isbn).value
    ensures Quantity in e ==> e[Quantity] == QuantityError(fd.quantity).value
  {
    var e1 := WithError(map[], Title, TitleError(fd.title));
    var e2 := WithError(e1, Author, AuthorError(fd.author));
    var e3 := WithError(e2, Isbn, IsbnError(fd.isbn));
    WithError(e3, Quantity, QuantityError(fd.quantity))
  }

  /** What the four rules accept. */
  predicate Valid(fd: BookFormData) {
    1 <= |Trim(fd.title)| <= 200 &&
    1 <= |Trim(fd.author)| <= 100 &&
    IsbnLayout(Trim(fd.isbn)) &&
    ParseQuantity(fd.quantity).Some? && 1 <= ParseQuantity(fd.quantity).value <= 1000
  }

  /** The form submits exactly when the error object is empty, and that is
      exactly when every rule accepts. */
  lemma NoErrorsIffValid(fd: BookFormData)
    ensures NoErrors(BookFormErrors(fd)) <==> Valid(fd)
  {
    var e := BookFormErrors(fd);
    if Valid(fd) {
      forall f: BookField ensures f !in e {
        match f
        case Title =>
        case Author =>
        case Isbn =>
        case Quantity =>
      }
      assert e.Keys == {};
    } else if !(1 <= |Trim(fd.title)| <= 200) {
      assert Title in e.Keys;
    } else if !(1 <= |Trim(fd.author)| <= 100) {
      assert Author in e.Keys;
    } else if !IsbnLayout(Trim(fd.isbn)) {
      assert Isbn in e.Keys;
    } else {
      assert Quantity in e.Keys;
    }
  }

  /** The number 0 is reported as missing, not as too small; the typed text
      "0" is reported as too small. */
  lemma ZeroQuantityMessages()
    ensures QuantityError(Number(0)) == Some("Quantity is required")
    ensures QuantityError(Text("0")) == Some("Quantity must be at least 1")
  {
    ParseDecimalDigits("0");
  }

  /** Typed text made only of digits passes exactly when its decimal value
      is between 1 and 1000. */
  lemma TypedDigitsQuantity(s: string)
    requires s != [] && AllIn(s, Digits)
    ensures QuantityError(Text(s)).None? <==> 1 <= DecimalValue(s) <= 1000
  {
    ParseDecimalDigits(s);
  }

  /** The body sent on submit: the trimmed texts and the parsed quantity. */
  function Payload(fd: BookFormData): BookData
    requires ParseQuantity(fd.quantity).Some?
  {
    BookData(Trim(fd.title), Trim(fd.author), Trim(fd.isbn), ParseQuantity(fd.quantity).value)
  }

  /** What a submit sends: nothing while the error object is not empty,
      the payload otherwise. */
  function Submission(fd: BookFormData): (sent: Option<BookData>)
    ensures sent.Some? <==> NoErrors(BookFormErrors(fd))
  {
    var e := BookFormErrors(fd);
    if |e| == 0 then
      assert Quantity !in e;
      Some(Payload(fd))
    else None
  }

  /** A submit sends exactly the forms every rule accepts, and what it
      sends meets every bound the rules check. */
  lemma SubmissionWithinRules(fd: BookFormData)
    ensures Submission(fd).Some? <==> Valid(fd)
    ensures Submission(fd).Some? ==>
              var d := Submission(fd).value;
              1 <= |d.title| <= 200 && 1 <= |d.author| <= 100 &&
              IsbnLayout(d.isbn) && 10 <= |d.isbn| <= 26 && 1 <= d.quantity <= 1000 &&
              d.title == Trim(fd.title) && d.author == Trim(fd.author) && d.isbn == Trim(fd.isbn) &&
              d.quantity == ParseQuantity(fd.quantity).value
  {
    NoErrorsIffValid(fd);
    IsbnLayoutLength(Trim(fd.isbn));
  }

  /** `if (id)`: an empty route parameter is no parameter. */
  predicate HasRouteId(id: Option<string>) {
    id.Some? && id.value != ""
  }

  class BookFormView {
    const routeId: Option<string>
    var formData: BookFormData
    var errors: map<BookField, string>
    var isSubmitting: bool
    var isEditing: bool

    /** Editing is only ever switched on by a route id. */
    predicate EditingHasId()
      reads this
    {
      isEditing ==> HasRouteId(routeId)
    }

    constructor (id: Option<string>)
      ensures routeId == id && formData == EmptyForm && errors == map[]
      ensures !isSubmitting && !isEditing && EditingHasId()
    {
      routeId := id;
      formData := EmptyForm;
      errors := map[];
      isSubmitting := false;
      isEditing := false;
    }

    /** The mount effect: with a route id the form switches to editing and
        is filled from the fetched book, when the fetch succeeds. */
    method Mount(store: BookStore, resp: Response<Book>)
      modifies this`formData, this`isEditing, store`loading, store`error
      ensures EditingHasId()
      ensures isEditing <==> old(isEditing) || HasRouteId(routeId)
      ensures HasRouteId(routeId) && resp.Ok? ==>
                formData == BookFormData(resp.payload.title, resp.payload.author,
                                         resp.payload.isbn, Number(resp.payload.quantity))
      ensures !(HasRouteId(routeId) && resp.Ok?) ==> formData == old(formData)
      ensures HasRouteId(routeId) ==> !store.loading
      ensures HasRouteId(routeId) && resp.Ok? ==> store.error == None
      ensures HasRouteId(routeId) && resp.Err? ==>
                store.error == Some(ServerMessage(resp, "Failed to fetch book"))
      ensures !HasRouteId(routeId) ==>
                store.loading == old(store.loading) && store.error == old(store.error)
      requires EditingHasId()
    {
      if HasRouteId(routeId) {
        isEditing := true;
        var r := store.FetchBook(routeId.value, resp);
        if r.Success? {
          var book := r.value;
          formData := BookFormData(book.title, book.author, book.isbn, Number(book.quantity));
        }
      }
    }

    /** `handleChange`: the field takes the typed text and its error, if
        present and non-empty, is blanked. */
    method HandleChange(field: BookField, value: string)
      modifies this`formData, this`errors
      ensures formData == match field
                          case Title => old(formData).(title := value)
                          case Author => old(formData).(author := value)
                          case Isbn => old(formData).(isbn := value)
                          case Quantity => old(formData).(quantity := Text(value))
      ensures errors == ClearFieldError(old(errors), field)
    {
      match field {
        case Title => formData := formData.(title := value);
        case Author => formData := formData.(author := value);
        case Isbn => formData := formData.(isbn := value);
        case Quantity => formData := formData.(quantity := Text(value));
      }
      errors := ClearFieldError(errors, field);
    }

    /** `validateForm`: the error object the rules produce replaces the
        old one, and the form is valid when it is empty. */
    method ValidateForm() returns (valid: bool)
      modifies this`errors
      ensures errors == BookFormErrors(old(formData))
      ensures valid <==> NoErrors(errors)
    {
      errors := BookFormErrors(formData);
      valid := |errors| == 0;
    }

    /** `handleSubmit`: an invalid form only shows its errors; a valid one
        sends the trimmed payload, as an update when editing and as a
        creation otherwise, and navigates away on success. */
    method HandleSubmit(store: BookStore, resp: Response<Book>)
      returns (sent: Option<BookData>, navigated: bool)
      requires EditingHasId()
      modifies this`errors, this`isSubmitting, store`books, store`totalBooks, store`loading, store`error
      ensures errors == BookFormErrors(old(formData))
      ensures sent == Submission(old(formData))
      ensures sent.Some? ==> !isSubmitting && !store.loading
      ensures sent.Some? && resp.Ok? ==> store.error == None
      ensures sent.Some? && resp.Err? && isEditing ==>
                store.error == Some(ServerMessage(resp, "Failed to update book"))
      ensures sent.Some? && resp.Err? && !isEditing ==>
                store.error == Some(ServerMessage(resp, "Failed to create book"))
      ensures sent.Some? && resp.Ok? && !isEditing ==> store.totalBooks == old(store.totalBooks) + 1
      ensures !(sent.Some? && resp.Ok? && !isEditing) ==> store.totalBooks == old(store.totalBooks)
      ensures sent.None? ==> isSubmitting == old(isSubmitting) && unchanged(store)
      ensures navigated <==> sent.Some? && resp.Ok?
      ensures sent.Some? && resp.Ok? && isEditing ==>
                store.books == ReplaceById(old(store.books), routeId.value, resp.payload)
      ensures sent.Some? && resp.Ok? && !isEditing ==>
                store.books == [resp.payload] + old(store.books)
      ensures sent.Some? && resp.Err? ==> store.books == old(store.books)
    {
      var fd := formData;
      sent, navigated := None, false;
      var valid := ValidateForm();
      if valid {
        isSubmitting := true;
        sent := Submission(fd);
        var bookData := sent.value;
        var result;
        if isEditing {
          result := store.UpdateBook(routeId.value, bookData, resp);
        } else {
          result := store.CreateBook(bookData, resp);
        }
        navigated := result.Success?;
        isSubmitting := false;
      }
    }
  }
}
