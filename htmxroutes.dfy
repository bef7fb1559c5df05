/**
 * services/flask/htmxroutes.py: the page-progress form handler update_page,
 * which interleaves its checks with database effects, and the result cap of the
 * book search fragment. The database calls become recorded effects; the
 * OpenLibrary request is a parameter.
 */
module HtmxRoutes {
  import opened Wrappers
  import opened Text

  /** The posted form; a missing key is None. */
  datatype Form = Form(bookId: Option<string>, currentPage: Option<string>, totalPages: Option<string>)

  /** What update_page hands back. MissingKey is Flask's 400 for a form key that is
      absent; ValueErrorRaised is the uncaught ValueError of int(), a 500; Reload is
      the success fragment, a script that reloads the page. */
  datatype Reply = MissingDataReply | InvalidDataTypeReply | Reload | MissingKey | ValueErrorRaised

  function Status(r: Reply): int {
    match r
    case Reload => 200
    case ValueErrorRaised => 500
    case _ => 400
  }

  /** The database calls update_page makes. */
  datatype Effect =
    | CompleteCurrentBook(user: Option<string>, bookIdText: string)
    | UpdateBookProgress(user: Option<string>, bookId: int, pagesRead: int)

  predicate HasAllKeys(form: Form) {
    form.bookId.Some? && form.currentPage.Some? && form.totalPages.Some?
  }

  /** The decision of update_page once the three form values are present, given the
      book id and current page as strings and what int() makes of the three values
      (None for a ValueError). Both page numbers are parsed, and the book completed when
      they are equal, before the missing-data and type checks run. */
  function Decide(user: Option<string>, bookIdStr: string, currentStr: string,
                  bookId: Option<int>, current: Option<int>, total: Option<int>): (Reply, seq<Effect>)
  {
    if current.None? || total.None? then (ValueErrorRaised, [])
    else
      var completion := if current.value == total.value then [CompleteCurrentBook(user, bookIdStr)] else [];
      if bookIdStr == [] || currentStr == [] then (MissingDataReply, completion)
      else if bookId.None? then (InvalidDataTypeReply, completion)
      else (Reload, completion + [UpdateBookProgress(user, bookId.value, current.value)])
  }

  /** update_page as written. */
  function UpdatePageOutcome(user: Option<string>, form: Form): (Reply, seq<Effect>)
  {
    if !HasAllKeys(form) then (MissingKey, [])
    else
      var bookIdStr, currentStr, totalStr := form.bookId.value, form.currentPage.value, form.totalPages.value;
      Decide(user, bookIdStr, currentStr, PyInt(bookIdStr), PyInt(currentStr), PyInt(totalStr))
  }

  /** update_page. */
  method UpdatePage(user: Option<string>, form: Form) returns (reply: Reply, effects: seq<Effect>)
    ensures (reply, effects) == UpdatePageOutcome(user, form)
  {
    effects := [];
    if form.bookId.None? || form.currentPage.None? || form.totalPages.None? {
      return MissingKey, [];
    }
    var bookIdStr := form.bookId.value;
    var currentPageStr := form.currentPage.value;
    var totalPagesStr := form.totalPages.value;
    var currentParsed := PyInt(currentPageStr);
    var totalParsed := PyInt(totalPagesStr);
    ghost var bookIdParsed := PyInt(bookIdStr);
    ghost var expected := Decide(user, bookIdStr, currentPageStr, bookIdParsed, currentParsed, totalParsed);
    assert UpdatePageOutcome(user, form) == expected;
    if currentParsed.None? || totalParsed.None? {
      return ValueErrorRaised, effects;
    }
    if currentParsed.value == totalParsed.value {
      effects := effects + [CompleteCurrentBook(user, bookIdStr)];
    }
    assert effects == if currentParsed.value == totalParsed.value then [CompleteCurrentBook(user, bookIdStr)] else [];
    if bookIdStr == [] || currentPageStr == [] {
      return MissingDataReply, effects;
    }
    var bookId := PyInt(bookIdStr);
    assert bookId == bookIdParsed;
    if bookId.None? {
      return InvalidDataTypeReply, effects;
    }
    effects := effects + [UpdateBookProgress(user, bookId.value, currentParsed.value)];
    reply := Reload;
  }

  /** The completion effect fires exactly when both page numbers parse to the same
      value, whatever the book id, and it comes first. */
  lemma CompletionBeforeValidation(user: Option<string>, bookIdStr: string, currentStr: string,
                                   bookId: Option<int>, current: Option<int>, total: Option<int>)
    ensures var (reply, effects) := Decide(user, bookIdStr, currentStr, bookId, current, total);
      && ((|effects| > 0 && effects[0].CompleteCurrentBook?) <==> current.Some? && current == total)
      && (|effects| > 0 && effects[0].CompleteCurrentBook? ==> effects[0] == CompleteCurrentBook(user, bookIdStr))
  {
  }

  /** The progress update happens exactly on a 200, once and last, with the parsed book
      id and current page; every other reply leaves at most the completion behind. */
  lemma ProgressOnlyOnSuccess(user: Option<string>, bookIdStr: string, currentStr: string,
                              bookId: Option<int>, current: Option<int>, total: Option<int>)
    ensures var (reply, effects) := Decide(user, bookIdStr, currentStr, bookId, current, total);
      && (Status(reply) == 200 <==>
            bookIdStr != [] && currentStr != [] && bookId.Some? && current.Some? && total.Some?)
      && (Status(reply) == 200 ==>
            effects[|effects| - 1] == UpdateBookProgress(user, bookId.value, current.value)
            && forall k :: 0 <= k < |effects| - 1 ==> effects[k].CompleteCurrentBook?)
      && (Status(reply) != 200 ==> forall k :: 0 <= k < |effects| ==> effects[k].CompleteCurrentBook?)
  {
  }

  /** On the form itself: a 200 exactly when all three values parse as integers. */
  lemma UpdatePageSucceedsIff(user: Option<string>, form: Form)
    ensures Status(UpdatePageOutcome(user, form).0) == 200 <==>
      HasAllKeys(form) && PyInt(form.bookId.value).Some?
      && PyInt(form.currentPage.value).Some? && PyInt(form.totalPages.value).Some?
  {
    PyIntNeedsADigit("");
    if HasAllKeys(form) {
      var b, c, t := form.bookId.value, form.currentPage.value, form.totalPages.value;
      ProgressOnlyOnSuccess(user, b, c, PyInt(b), PyInt(c), PyInt(t));
      assert PyInt(b).Some? ==> b != [];
      assert PyInt(c).Some? ==> c != [];
    }
  }

  /** A non-integer book id with parseable page numbers is answered with the type
      error, and no progress is written. */
  lemma BadBookIdRejected(user: Option<string>, form: Form)
    requires HasAllKeys(form) && form.bookId.value != []
    requires PyInt(form.currentPage.value).Some? && PyInt(form.totalPages.value).Some?
    requires PyInt(form.bookId.value).None?
    ensures UpdatePageOutcome(user, form).0 == InvalidDataTypeReply
    ensures forall e :: e in UpdatePageOutcome(user, form).1 ==> e.CompleteCurrentBook?
  {
    var b, c, t := form.bookId.value, form.currentPage.value, form.totalPages.value;
    PyIntNeedsADigit([]);
    assert c != [];
    assert UpdatePageOutcome(user, form) == Decide(user, b, c, PyInt(b), PyInt(c), PyInt(t));
  }

  /** An empty current page never reaches the missing-data check: int("") raises first,
      so the request ends in a server error instead of "Error: Missing Data". */
  lemma EmptyCurrentPageRaises(user: Option<string>, form: Form)
    requires HasAllKeys(form) && form.currentPage.value == []
    ensures UpdatePageOutcome(user, form) == (ValueErrorRaised, [])
  {
    PyIntNeedsADigit([]);
  }

  /** A finished book submitted without its id is completed under the empty id, and
      the handler then reports missing data. */
  lemma CompletionWithoutBookId(user: Option<string>, pages: nat)
    ensures UpdatePageOutcome(user, Form(Some([]), Some(NatToString(pages)), Some(NatToString(pages))))
         == (MissingDataReply, [CompleteCurrentBook(user, [])])
  {
    PyIntOfNatToString(pages);
  }

  /** The decision as the handler's comments describe it: every value is checked before
      anything is written. */
  function DecideChecked(user: Option<string>, bookIdStr: string, currentStr: string,
                         bookId: Option<int>, current: Option<int>, total: Option<int>): (Reply, seq<Effect>)
  {
    if bookIdStr == [] || currentStr == [] then (MissingDataReply, [])
    else if bookId.None? || current.None? || total.None? then (InvalidDataTypeReply, [])
    else
      var completion := if current.value == total.value then [CompleteCurrentBook(user, bookIdStr)] else [];
      (Reload, completion + [UpdateBookProgress(user, bookId.value, current.value)])
  }

  /** update_page with the checks moved ahead of the completion. */
  function UpdatePageChecked(user: Option<string>, form: Form): (Reply, seq<Effect>)
  {
    if !HasAllKeys(form) then (MissingKey, [])
    else
      var bookIdStr, currentStr, totalStr := form.bookId.value, form.currentPage.value, form.totalPages.value;
      DecideChecked(user, bookIdStr, currentStr, PyInt(bookIdStr), PyInt(currentStr), PyInt(totalStr))
  }

  /** The checked decision never raises, writes nothing on a 400, reports an empty value
      as missing data, completes only under a book id that parsed, and agrees with the
      decision as written whenever everything is valid. */
  lemma DecideCheckedIsSafe(user: Option<string>, bookIdStr: string, currentStr: string,
                            bookId: Option<int>, current: Option<int>, total: Option<int>)
    ensures var (reply, effects) := DecideChecked(user, bookIdStr, currentStr, bookId, current, total);
      && reply != ValueErrorRaised
      && (Status(reply) == 400 ==> effects == [])
      && (currentStr == [] ==> reply == MissingDataReply)
      && (|effects| > 0 ==> bookId.Some? && bookIdStr != [])
    ensures Status(DecideChecked(user, bookIdStr, currentStr, bookId, current, total).0) == 200 ==>
      DecideChecked(user, bookIdStr, currentStr, bookId, current, total)
        == Decide(user, bookIdStr, currentStr, bookId, current, total)
  {
  }

  /** On the form itself: an empty current page is reported as missing data, and every
      effect of the checked handler concerns a book id int() accepts. */
  lemma UpdatePageCheckedIsSafe(user: Option<string>, form: Form)
    ensures UpdatePageChecked(user, form).0 != ValueErrorRaised
    ensures HasAllKeys(form) && form.currentPage.value == [] ==>
      UpdatePageChecked(user, form) == (MissingDataReply, [])
    ensures forall e :: e in UpdatePageChecked(user, form).1 ==>
      HasAllKeys(form) && PyInt(form.bookId.value).Some?
  {
    if HasAllKeys(form) {
      var b, c, t := form.bookId.value, form.currentPage.value, form.totalPages.value;
      DecideCheckedIsSafe(user, b, c, PyInt(b), PyInt(c), PyInt(t));
    }
  }

  /** The OpenLibrary search URL; a missing query is formatted as "None". */
  function SearchUrl(query: Option<string>): (url: string)
    ensures |url| >= 38
    ensures url[..38] == "https://openlibrary.org/search.json?q="
    ensures url[38..] == (if query.Some? then query.value else "None")
  {
    "https://openlibrary.org/search.json?q=" + (if query.Some? then query.value else "None")
  }

  /** The docs handed to the template: the first ten, or all when fewer. */
  function FirstResults<D>(docs: seq<D>): (r: seq<D>)
    ensures |r| == (if |docs| < 10 then |docs| else 10)
    ensures r == docs[..|r|]
  {
    if |docs| <= 10 then docs else docs[..10]
  }

  /** htmx_search: search returns the reply's `docs`, None when the key is absent. */
  method HtmxSearch<D>(query: Option<string>, search: string -> Option<seq<D>>) returns (books: seq<D>)
    ensures var docs := if search(SearchUrl(query)).Some? then search(SearchUrl(query)).value else [];
      books == FirstResults(docs)
  {
    var url := "https://openlibrary.org/search.json?q=" + (if query.Some? then query.value else "None");
    var data := search(url);
    var docs := if data.Some? then data.value else [];
    books := if |docs| <= 10 then docs else docs[..10];
  }
}
