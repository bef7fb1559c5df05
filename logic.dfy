/**
 * application/logic.py: the book-detail lookup against the public book catalogue
 * (title, author names, page count inferred from the editions) and process_data.
 * Every HTTP fetch is a parameter: the decoded reply, or None where
 * fetch_data_from_api returns None or the reply is falsy.
 */
module Logic {
  import opened Wrappers
  import opened Text
  import opened Seqs

  /** A field of an edition record, as dict.get returns it (Null also stands for a
      missing key). Other is any other JSON value (a float, a list, an object). */
  datatype Value = Null | Bool(b: bool) | Int(i: int) | Str(s: string) | Other(truthy: bool)

  predicate Truthy(v: Value) {
    match v
    case Null => false
    case Bool(b) => b
    case Int(i) => i != 0
    case Str(s) => s != []
    case Other(t) => t
  }

  /** Python's `a or b`. */
  function Or(a: Value, b: Value): Value {
    if Truthy(a) then a else b
  }

  datatype Edition = Edition(numberOfPages: Value, pagination: Value, physicalDimensions: Value, notes: Value)

  /** `isinstance(np, int) and np > 0`; a JSON `true` is an int to Python and counts as 1. */
  function DirectPageCount(v: Value): (r: Option<nat>)
    ensures r.Some? <==> (v.Int? && v.i > 0) || v == Bool(true)
    ensures v.Int? && v.i > 0 ==> r == Some(v.i)
    ensures v == Bool(true) ==> r == Some(1)
    ensures r.Some? ==> r.value > 0
  {
    match v
    case Int(n) => if n > 0 then Some(n) else None
    case Bool(b) => if b then Some(1) else None
    case _ => None
  }

  /** The values of the maximal runs of digits in s, left to right: re.findall(r"\d+", s)
      read with int(). */
  function DigitRuns(s: string): (r: seq<nat>)
    ensures r == [] <==> forall i :: 0 <= i < |s| ==> !IsDigit(s[i])
    decreases |s|
  {
    if s == [] then []
    else if !IsDigit(s[0]) then
      var r := DigitRuns(s[1..]);
      assert forall i :: 1 <= i < |s| ==> s[i] == s[1..][i - 1];
      r
    else
      var n := LeadingDigits(s);
      [DigitsValue(s[..n])] + DigitRuns(s[n..])
  }

  /** The largest element. */
  function MaxOf(xs: seq<nat>): (m: nat)
    requires xs != []
    ensures m in xs && forall i :: 0 <= i < |xs| ==> xs[i] <= m
  {
    if |xs| == 1 then xs[0]
    else
      var m := MaxOf(xs[1..]);
      assert forall i :: 1 <= i < |xs| ==> xs[i] == xs[1..][i - 1];
      if xs[0] >= m then xs[0] else m
  }

  /** What one edition contributes to page_counts. */
  function EditionPageCount(e: Edition): (r: Option<nat>)
    ensures r.Some? ==> r.value > 0
  {
    match DirectPageCount(e.numberOfPages)
    case Some(n) => Some(n)
    case None =>
      match Or(e.pagination, Or(e.physicalDimensions, e.notes))
      case Str(s) =>
        var nums := DigitRuns(s);
        if nums != [] && MaxOf(nums) > 0 then Some(MaxOf(nums)) else None
      case _ => None
  }

  /** The page counts the edition loop collects. */
  function PageCounts(entries: seq<Edition>): seq<nat>
  {
    FilterMap(entries, EditionPageCount)
  }

  /** The edition loop of get_book_details_from_openlibrary. */
  method CollectPageCounts(entries: seq<Edition>) returns (counts: seq<nat>)
    ensures counts == PageCounts(entries)
    ensures forall i :: 0 <= i < |counts| ==> counts[i] > 0
  {
    counts := [];
    for i := 0 to |entries|
      invariant counts == PageCounts(entries[..i])
      invariant forall k :: 0 <= k < |counts| ==> counts[k] > 0
    {
      FilterMapSnoc(entries[..i], entries[i], EditionPageCount);
      assert entries[..i + 1] == entries[..i] + [entries[i]];
      match EditionPageCount(entries[i]) {
        case Some(n) => counts := counts + [n];
        case None =>
      }
    }
    assert entries[..|entries|] == entries;
  }

  /** A positive number_of_pages is taken as it is, and a JSON `true` as 1, whatever the
      pagination text says. */
  lemma DirectCountWins(e: Edition, n: int)
    requires (e.numberOfPages == Int(n) && n > 0) || (e.numberOfPages == Bool(true) && n == 1)
    ensures EditionPageCount(e) == Some(n)
  {
  }

  /** Otherwise the first truthy text field is read: the largest digit run, if positive. */
  lemma PaginationCount(e: Edition, s: string)
    requires DirectPageCount(e.numberOfPages).None?
    requires Or(e.pagination, Or(e.physicalDimensions, e.notes)) == Str(s)
    ensures EditionPageCount(e).Some? <==> exists i :: 0 <= i < |s| && IsDigit(s[i]) && MaxOf(DigitRuns(s)) > 0
    ensures EditionPageCount(e).Some? ==> EditionPageCount(e).value == MaxOf(DigitRuns(s))
  {
  }

  /** An edition whose text has no digit, or whose chosen field is not a string,
      contributes nothing. */
  lemma NoDigitsNoCount(e: Edition)
    requires DirectPageCount(e.numberOfPages).None?
    requires var v := Or(e.pagination, Or(e.physicalDimensions, e.notes));
      !v.Str? || forall i :: 0 <= i < |v.s| ==> !IsDigit(v.s[i])
    ensures EditionPageCount(e).None?
  {
  }

  /** A text that ends in a non-digit splits the runs cleanly. */
  lemma {:induction false} DigitRunsConcat(p: string, q: string)
    requires p == [] || !IsDigit(p[|p| - 1])
    ensures DigitRuns(p + q) == DigitRuns(p) + DigitRuns(q)
    decreases |p|
  {
    if p == [] {
      assert p + q == q;
    } else if !IsDigit(p[0]) {
      assert (p + q)[1..] == p[1..] + q;
      DigitRunsConcat(p[1..], q);
    } else {
      var n := LeadingDigits(p);
      LeadingDigitsOfRun(p[..n], p[n..]);
      assert p[..n] + p[n..] == p;
      assert p + q == p[..n] + (p[n..] + q);
      LeadingDigitsOfRun(p[..n], p[n..] + q);
      assert (p + q)[..n] == p[..n];
      assert (p + q)[n..] == p[n..] + q;
      DigitRunsConcat(p[n..], q);
    }
  }

  /** A run of digits followed by a non-digit is read as one number. */
  lemma DigitRunsOfRun(ds: string, q: string)
    requires ds != [] && AllDigits(ds)
    requires q == [] || !IsDigit(q[0])
    ensures DigitRuns(ds + q) == [DigitsValue(ds)] + DigitRuns(q)
  {
    LeadingDigitsOfRun(ds, q);
    assert (ds + q)[..|ds|] == ds;
    assert (ds + q)[|ds|..] == q;
  }

  /** A number written between non-digits is found back among the runs, in place. */
  lemma {:induction false} DigitRunsAroundNumber(p: string, n: nat, q: string)
    requires p == [] || !IsDigit(p[|p| - 1])
    requires q == [] || !IsDigit(q[0])
    ensures DigitRuns(p + NatToString(n) + q) == DigitRuns(p) + [n] + DigitRuns(q)
  {
    DigitRunsAroundRun(p, NatToString(n), q);
    NatToStringRoundTrip(n);
  }

  lemma {:induction false} DigitRunsAroundRun(p: string, ds: string, q: string)
    requires p == [] || !IsDigit(p[|p| - 1])
    requires ds != [] && AllDigits(ds)
    requires q == [] || !IsDigit(q[0])
    ensures DigitRuns(p + ds + q) == DigitRuns(p) + [DigitsValue(ds)] + DigitRuns(q)
  {
    assert p + ds + q == p + (ds + q);
    DigitRunsConcat(p, ds + q);
    DigitRunsOfRun(ds, q);
  }

  /** The pagination text "xviii, 312 p." yields 312: the roman numerals carry no digit. */
  lemma PaginationExample(e: Edition, p: string, ds: string, q: string)
    requires p == "xviii, " && ds == "312" && q == " p."
    requires e.numberOfPages == Null && e.pagination == Str(p + ds + q)
    ensures EditionPageCount(e) == Some(312)
  {
    assert DigitRuns(p) == [] && DigitRuns(q) == [];
    assert ds[..2] == "31" && "31"[..1] == "3" && "3"[..0] == [];
    assert DigitsValue("3") == 3;
    assert DigitsValue("31") == 31;
    assert DigitsValue(ds) == 312;
    DigitRunsAroundRun(p, ds, q);
    assert DigitRuns(p + ds + q) == [312];
  }

  /** How often v occurs in xs. */
  function Occurrences(xs: seq<nat>, v: nat): nat {
    multiset(xs)[v]
  }

  /** The scan behind most_common(1): best is the earliest index seen so far whose value
      has the highest count; a later value replaces it only with a strictly higher count. */
  function MostCommonFrom(xs: seq<nat>, i: nat, best: nat): (r: nat)
    requires best < i <= |xs|
    requires forall k :: 0 <= k < i ==> Occurrences(xs, xs[k]) <= Occurrences(xs, xs[best])
    requires forall k :: 0 <= k < best ==> Occurrences(xs, xs[k]) < Occurrences(xs, xs[best])
    ensures r < |xs|
    ensures forall k :: 0 <= k < |xs| ==> Occurrences(xs, xs[k]) <= Occurrences(xs, xs[r])
    ensures forall k :: 0 <= k < r ==> Occurrences(xs, xs[k]) < Occurrences(xs, xs[r])
    decreases |xs| - i
  {
    if i == |xs| then best
    else if Occurrences(xs, xs[i]) > Occurrences(xs, xs[best]) then MostCommonFrom(xs, i + 1, i)
    else MostCommonFrom(xs, i + 1, best)
  }

  /** Index of Counter(xs).most_common(1)[0][0]: the first position holding a value of
      the highest count (Counter keeps first-seen order and max keeps the first maximum). */
  function MostCommonIndex(xs: seq<nat>): (r: nat)
    requires xs != []
    ensures r < |xs|
    ensures forall k :: 0 <= k < |xs| ==> Occurrences(xs, xs[k]) <= Occurrences(xs, xs[r])
    ensures forall k :: 0 <= k < r ==> Occurrences(xs, xs[k]) < Occurrences(xs, xs[r])
  {
    MostCommonFrom(xs, 1, 0)
  }

  function MostCommon(xs: seq<nat>): nat
    requires xs != []
  {
    xs[MostCommonIndex(xs)]
  }

  /** The most common value is unique: the two properties of MostCommonIndex pin it down,
      and ties go to the value seen first. */
  lemma MostCommonIsFirstMaximum(xs: seq<nat>, j: nat)
    requires j < |xs|
    requires forall k :: 0 <= k < |xs| ==> Occurrences(xs, xs[k]) <= Occurrences(xs, xs[j])
    requires forall k :: 0 <= k < j ==> Occurrences(xs, xs[k]) < Occurrences(xs, xs[j])
    ensures j == MostCommonIndex(xs) && xs[j] == MostCommon(xs)
  {
    var r := MostCommonIndex(xs);
    assert Occurrences(xs, xs[j]) <= Occurrences(xs, xs[r]);
    assert Occurrences(xs, xs[r]) <= Occurrences(xs, xs[j]);
  }

  /** The value chosen is the first occurrence of itself. */
  lemma MostCommonFirstOccurrence(xs: seq<nat>)
    requires xs != []
    ensures MostCommon(xs) !in xs[..MostCommonIndex(xs)]
  {
    var r := MostCommonIndex(xs);
    forall k | 0 <= k < r ensures xs[..r][k] != xs[r] {
      assert Occurrences(xs, xs[k]) < Occurrences(xs, xs[r]);
    }
  }

  predicate StrictlyIncreasing(s: seq<nat>) {
    forall i, j :: 0 <= i < j < |s| ==> s[i] < s[j]
  }

  /** Adds x to an ascending list of distinct values, keeping it so. */
  function InsertSorted(s: seq<nat>, x: nat): (r: seq<nat>)
    requires StrictlyIncreasing(s)
    ensures StrictlyIncreasing(r)
    ensures forall v :: v in r <==> v in s || v == x
  {
    if s == [] then [x]
    else if x < s[0] then [x] + s
    else if x == s[0] then s
    else
      var t := InsertSorted(s[1..], x);
      assert forall v :: v in s <==> v == s[0] || v in s[1..];
      assert forall i :: 0 <= i < |t| ==> t[i] in t;
      [s[0]] + t
  }

  /** sorted(set(xs)). */
  function SortedSet(xs: seq<nat>): (r: seq<nat>)
    ensures StrictlyIncreasing(r)
    ensures forall v :: v in r <==> v in xs
  {
    if xs == [] then []
    else
      var init := xs[..|xs| - 1];
      assert xs == init + [xs[|xs| - 1]];
      InsertSorted(SortedSet(init), xs[|xs| - 1])
  }

  /** page_counts_samples: sorted(set(page_counts))[:10]. */
  function Samples(xs: seq<nat>): (r: seq<nat>)
    ensures |r| <= 10 && StrictlyIncreasing(r)
    ensures forall v :: v in r ==> v in xs
    ensures forall v :: v in xs && v !in r ==> |r| == 10 && forall i :: 0 <= i < |r| ==> r[i] < v
  {
    var s := SortedSet(xs);
    if |s| <= 10 then s
    else
      var r := s[..10];
      assert forall v :: v in r ==> v in s;
      assert forall v :: v in xs && v !in r ==> forall i :: 0 <= i < |r| ==> r[i] < v by {
        forall v, i | v in xs && v !in r && 0 <= i < |r| ensures r[i] < v {
          var k :| 0 <= k < |s| && s[k] == v;
          forall m | 0 <= m < 10 ensures s[m] != v {
            assert r[m] == s[m];
          }
        }
      }
      r
  }

  /** An author entry of the work: author.get("author", {}).get("key"). */
  datatype AuthorRef = AuthorRef(key: Option<string>)

  /** A truthy author record as fetched; name is its "name" key. */
  datatype AuthorRecord = AuthorRecord(name: Option<string>)

  /** What one author entry contributes to author_names: nothing without a (non-empty)
      key or when the fetch yields nothing, else the name or "Unknown Author". */
  function AuthorName(a: AuthorRef, fetchAuthor: string -> Option<AuthorRecord>): Option<string>
  {
    match a.key
    case None => None
    case Some(k) =>
      if k == [] then None
      else
        match fetchAuthor(k)
        case None => None
        case Some(record) => Some(match record.name case Some(n) => n case None => "Unknown Author")
  }

  function AuthorNames(authors: seq<AuthorRef>, fetchAuthor: string -> Option<AuthorRecord>): seq<string>
  {
    FilterMap(authors, a => AuthorName(a, fetchAuthor))
  }

  /** The author loop of get_book_details_from_openlibrary. */
  method CollectAuthorNames(authors: seq<AuthorRef>, fetchAuthor: string -> Option<AuthorRecord>)
    returns (names: seq<string>)
    ensures names == AuthorNames(authors, fetchAuthor)
  {
    names := [];
    for i := 0 to |authors|
      invariant names == AuthorNames(authors[..i], fetchAuthor)
    {
      FilterMapSnoc(authors[..i], authors[i], a => AuthorName(a, fetchAuthor));
      assert authors[..i + 1] == authors[..i] + [authors[i]];
      var key := authors[i].key;
      if key.Some? && key.value != [] {
        var record := fetchAuthor(key.value);
        if record.Some? {
          names := names + [match record.value.name case Some(n) => n case None => "Unknown Author"];
        }
      }
    }
    assert authors[..|authors|] == authors;
  }

  /** author_names follows the author order: one name per keyed author whose fetch
      succeeded, and nothing else. */
  lemma AuthorNamesFollowAuthors(authors: seq<AuthorRef>, more: seq<AuthorRef>, fetchAuthor: string -> Option<AuthorRecord>, name: string)
    ensures AuthorNames(authors + more, fetchAuthor) == AuthorNames(authors, fetchAuthor) + AuthorNames(more, fetchAuthor)
    ensures name in AuthorNames(authors, fetchAuthor) <==>
      exists i :: 0 <= i < |authors| && AuthorName(authors[i], fetchAuthor) == Some(name)
  {
    FilterMapConcat(authors, more, a => AuthorName(a, fetchAuthor));
    FilterMapMembership(authors, a => AuthorName(a, fetchAuthor), name);
  }

  /** The truthy work record fetched for the identifier. */
  datatype WorkRecord = WorkRecord(title: Option<string>, authors: seq<AuthorRef>)

  datatype BookDetails = BookDetails(title: string, authors: seq<string>, pageCount: Option<nat>, pageCountsSamples: seq<nat>)

  /** get_book_details_from_openlibrary. work is the work record (None when the fetch
      fails or the record is empty); editions is the "entries" list of the editions
      reply (None when that reply is missing or not an object). */
  method GetBookDetails(work: Option<WorkRecord>, fetchAuthor: string -> Option<AuthorRecord>, editions: Option<seq<Edition>>)
    returns (r: Option<BookDetails>)
    ensures r.None? <==> work.None?
    ensures r.Some? ==> r.value.title == (match work.value.title case Some(t) => t case None => "Unknown Title")
    ensures r.Some? ==> r.value.authors == AuthorNames(work.value.authors, fetchAuthor)
    ensures r.Some? ==>
      var counts := match editions case Some(entries) => PageCounts(entries) case None => [];
      && (r.value.pageCount.None? <==> counts == [])
      && (r.value.pageCount.Some? ==> r.value.pageCount.value == MostCommon(counts) && r.value.pageCount.value > 0)
      && r.value.pageCountsSamples == Samples(counts)
  {
    if work.None? {
      return None;
    }
    var title := match work.value.title case Some(t) => t case None => "Unknown Title";
    var authorNames := CollectAuthorNames(work.value.authors, fetchAuthor);
    var pageCounts: seq<nat> := [];
    if editions.Some? {
      pageCounts := CollectPageCounts(editions.value);
    }
    var pageCount: Option<nat> := None;
    if pageCounts != [] {
      pageCount := Some(MostCommon(pageCounts));
    }
    r := Some(BookDetails(title, authorNames, pageCount, Samples(pageCounts)));
  }

  /** The argument of process_data, as far as it matters: its truthiness, whether it is
      a list (and how long), and otherwise the name of its type. */
  datatype Data = NoneData | ListData(length: nat) | OtherData(typeName: string, truthy: bool)

  predicate DataTruthy(d: Data) {
    match d
    case NoneData => false
    case ListData(n) => n > 0
    case OtherData(_, t) => t
  }

  function ProcessData(d: Data): (r: string)
    ensures !DataTruthy(d) <==> r == "No data to process"
  {
    if !DataTruthy(d) then "No data to process"
    else if d.ListData? then "Data contains " + NatToString(d.length) + " items."
    else "Data is not a list, but of type <class '" + d.typeName + "'>."
  }

  /** The message for a non-empty list states its length, which int() reads back. */
  lemma ProcessDataReportsLength(n: nat)
    requires n > 0
    ensures var r := ProcessData(ListData(n));
      && |r| > 21 && r[..14] == "Data contains " && r[|r| - 7..] == " items."
      && PyInt(r[14..|r| - 7]) == Some(n)
  {
    var r := ProcessData(ListData(n));
    assert r[14..|r| - 7] == NatToString(n);
    PyIntOfNatToString(n);
  }
}
