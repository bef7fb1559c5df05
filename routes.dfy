/**
 * The shelf logic of services/flask/routes.py: the profile pages sort the library
 * rows into four shelves by status, default the display name and image, and the
 * TBR endpoint answers only its owner. The library lookup, the top-five lookup
 * and the Spotify profile endpoint are parameters; the web session is the one of
 * Suggestions.
 */
module Routes {
  import opened Wrappers
  import opened Seqs
  import opened Suggestions

  /** The `book` column: a list of title, author, cover URL and possibly more, or any
      other value. */
  datatype BookField = BookList(items: seq<string>) | NotAList

  /** A library row as the route reads it; absent keys are None. */
  datatype Row = Row(
    id: Option<int>, username: Option<string>, book: BookField, status: Option<string>,
    pagesRead: Option<int>, totalPages: Option<int>, version: Option<string>)

  /** The dict built for the template. */
  datatype BookView = BookView(
    id: Option<int>, shelf: Option<string>, title: string, author: string, coverUrl: string,
    status: Option<string>, version: Option<string>, pages: Option<int>, totalPages: Option<int>)

  datatype Shelf = Reading | Completed | Dnf | Tbr

  /** The shelf a status selects: any other status, a missing one included, is TBR. */
  function ShelfOf(status: Option<string>): (s: Shelf)
    ensures s == Reading <==> status == Some("reading")
    ensures s == Completed <==> status == Some("completed")
    ensures s == Dnf <==> status == Some("dnf")
  {
    match status
    case Some(st) =>
      if st == "reading" then Reading
      else if st == "completed" then Completed
      else if st == "dnf" then Dnf
      else Tbr
    case None => Tbr
  }

  /** The view of a row, or None for a row that is skipped: its book is not a list or
      has fewer than three elements. */
  function View(r: Row): (v: Option<BookView>)
    ensures v.None? <==> !r.book.BookList? || |r.book.items| < 3
    ensures v.Some? ==>
      && v.value.title == r.book.items[0] && v.value.author == r.book.items[1]
      && v.value.coverUrl == r.book.items[2] && v.value.pages == r.pagesRead
      && v.value.id == r.id && v.value.shelf == r.username && v.value.status == r.status
      && v.value.version == r.version && v.value.totalPages == r.totalPages
  {
    match r.book
    case NotAList => None
    case BookList(items) =>
      if |items| < 3 then None
      else Some(BookView(r.id, r.username, items[0], items[1], items[2],
                         r.status, r.version, r.pagesRead, r.totalPages))
  }

  function OnShelf(r: Row, s: Shelf): Option<BookView>
  {
    if ShelfOf(r.status) == s then View(r) else None
  }

  /** The rows that are not skipped, in order. */
  function Kept(rows: seq<Row>): seq<BookView>
  {
    FilterMap(rows, View)
  }

  /** The views on shelf s, in row order. */
  function Shelved(rows: seq<Row>, s: Shelf): seq<BookView>
  {
    FilterMap(rows, r => OnShelf(r, s))
  }

  /** The sorting loop of profile and user_profile. */
  method PartitionLibrary(rows: seq<Row>)
    returns (reading: seq<BookView>, completed: seq<BookView>, dnf: seq<BookView>, tbr: seq<BookView>)
    ensures reading == Shelved(rows, Reading) && completed == Shelved(rows, Completed)
    ensures dnf == Shelved(rows, Dnf) && tbr == Shelved(rows, Tbr)
  {
    reading, completed, dnf, tbr := [], [], [], [];
    for i := 0 to |rows|
      invariant reading == Shelved(rows[..i], Reading) && completed == Shelved(rows[..i], Completed)
      invariant dnf == Shelved(rows[..i], Dnf) && tbr == Shelved(rows[..i], Tbr)
    {
      var row := rows[i];
      assert rows[..i + 1] == rows[..i] + [row];
      FilterMapSnoc(rows[..i], row, r => OnShelf(r, Reading));
      FilterMapSnoc(rows[..i], row, r => OnShelf(r, Completed));
      FilterMapSnoc(rows[..i], row, r => OnShelf(r, Dnf));
      FilterMapSnoc(rows[..i], row, r => OnShelf(r, Tbr));
      if !row.book.BookList? || |row.book.items| < 3 {
        continue;
      }
      var items := row.book.items;
      var bookDict := BookView(row.id, row.username, items[0], items[1], items[2],
                               row.status, row.version, row.pagesRead, row.totalPages);
      if row.status == Some("reading") {
        reading := reading + [bookDict];
      } else if row.status == Some("completed") {
        completed := completed + [bookDict];
      } else if row.status == Some("dnf") {
        dnf := dnf + [bookDict];
      } else {
        tbr := tbr + [bookDict];
      }
    }
    assert rows[..|rows|] == rows;
  }

  /** The views an optional result contributes. */
  function AsSeq(o: Option<BookView>): seq<BookView>
  {
    match o
    case Some(v) => [v]
    case None => []
  }

  /** One row lands on exactly one shelf when it is kept, and on none otherwise. */
  lemma RowOnOneShelf(r: Row)
    ensures multiset(AsSeq(OnShelf(r, Reading))) + multiset(AsSeq(OnShelf(r, Completed)))
          + multiset(AsSeq(OnShelf(r, Dnf))) + multiset(AsSeq(OnShelf(r, Tbr))) == multiset(AsSeq(View(r)))
  {
  }

  lemma ShelvedSnoc(rows: seq<Row>, r: Row, s: Shelf)
    ensures Shelved(rows + [r], s) == Shelved(rows, s) + AsSeq(OnShelf(r, s))
  {
    FilterMapSnoc(rows, r, x => OnShelf(x, s));
  }

  lemma KeptSnoc(rows: seq<Row>, r: Row)
    ensures Kept(rows + [r]) == Kept(rows) + AsSeq(View(r))
  {
    FilterMapSnoc(rows, r, View);
  }

  /** The four shelves together hold exactly the kept rows, each once. */
  lemma {:induction false} ShelvesPartitionKept(rows: seq<Row>)
    ensures multiset(Shelved(rows, Reading)) + multiset(Shelved(rows, Completed))
          + multiset(Shelved(rows, Dnf)) + multiset(Shelved(rows, Tbr)) == multiset(Kept(rows))
  {
    if rows != [] {
      var init, last := rows[..|rows| - 1], rows[|rows| - 1];
      assert rows == init + [last];
      ShelvesPartitionKept(init);
      KeptSnoc(init, last);
      ShelvedSnoc(init, last, Reading);
      ShelvedSnoc(init, last, Completed);
      ShelvedSnoc(init, last, Dnf);
      ShelvedSnoc(init, last, Tbr);
      RowOnOneShelf(last);
    }
  }

  /** The shelf sizes add up to the number of kept rows. */
  lemma ShelfSizesSum(rows: seq<Row>)
    ensures |Shelved(rows, Reading)| + |Shelved(rows, Completed)| + |Shelved(rows, Dnf)|
          + |Shelved(rows, Tbr)| == |Kept(rows)|
  {
    ShelvesPartitionKept(rows);
    assert |multiset(Kept(rows))| == |Kept(rows)|;
  }

  /** A view is on shelf s exactly when some row produces it and that row's status
      selects s; so a view on a shelf has a status selecting that shelf and no other. */
  lemma ShelfMembership(rows: seq<Row>, s: Shelf, v: BookView)
    ensures v in Shelved(rows, s) <==>
      exists i :: 0 <= i < |rows| && View(rows[i]) == Some(v) && ShelfOf(rows[i].status) == s
    ensures v in Shelved(rows, s) ==> ShelfOf(v.status) == s
  {
    FilterMapMembership(rows, r => OnShelf(r, s), v);
  }

  /** Shelving keeps row order: the shelves of a concatenation are the concatenated
      shelves. */
  lemma ShelvedKeepsOrder(rows: seq<Row>, more: seq<Row>, s: Shelf)
    ensures Shelved(rows + more, s) == Shelved(rows, s) + Shelved(more, s)
  {
    FilterMapConcat(rows, more, r => OnShelf(r, s));
  }

  const DefaultUser := "Book Lover"
  const DefaultImage := "https://www.creativefabrica.com/wp-content/uploads/2020/03/08/open-book-in-circle-icon-Graphics-3393563-1.jpg"

  /** The name shown for a fetched profile: its display name when that is present and
      non-empty, otherwise "Book Lover". */
  function DisplayName(displayName: Option<string>): (name: string)
    ensures name != DefaultUser ==> displayName == Some(name)
    ensures displayName.Some? && displayName.value != "" ==> name == displayName.value
    ensures name != ""
  {
    if displayName.Some? && displayName.value != "" then displayName.value
    else DefaultUser
  }

  /** The picture shown for the URL get_profile returns: that URL unless it is empty. */
  function ProfileImage(url: string): (img: string)
    ensures img != DefaultImage ==> img == url
    ensures url != "" ==> img == url
    ensures url == "" ==> img == DefaultImage
  {
    if url != "" then url else DefaultImage
  }

  /** The name and picture the profile pages show for session contents data, or None
      where get_profile_data or get_profile raises and the page is a server error: a
      non-empty session without a token, or a profile with fewer than two images. */
  function Identity(data: map<string, SessionValue>, currentUser: string -> Suggestions.Profile): (r: Option<(string, string)>)
    ensures r.None? <==>
      data != map[] && (StoredToken(data).None? || |currentUser(StoredToken(data).value.accessToken).images| < 2)
    ensures data == map[] ==> r == Some((DefaultUser, DefaultImage))
    ensures data != map[] && r.Some? ==>
      var p := currentUser(StoredToken(data).value.accessToken);
      r.value == (DisplayName(p.displayName), ProfileImage(p.images[1]))
  {
    if data == map[] then Some((DefaultUser, DefaultImage))
    else
      match GetProfileData(data, currentUser)
      case None => None
      case Some(p) =>
        if |p.images| < 2 then None else Some((DisplayName(p.displayName), ProfileImage(p.images[1])))
  }

  /** A signed-in reader whose Spotify account has no picture gets a server error
      instead of the default picture. */
  lemma NoPictureIsServerError(data: map<string, SessionValue>, currentUser: string -> Suggestions.Profile)
    requires StoredToken(data).Some?
    requires currentUser(StoredToken(data).value.accessToken).images == []
    ensures Identity(data, currentUser) == None
  {
  }

  /** The name and picture as evidently intended: every failure of the Spotify calls
      falls back to the defaults. */
  function IdentityChecked(data: map<string, SessionValue>, currentUser: string -> Suggestions.Profile): (string, string)
  {
    match GetProfileData(data, currentUser)
    case None => (DefaultUser, DefaultImage)
    case Some(p) =>
      (DisplayName(p.displayName), if |p.images| < 2 then DefaultImage else ProfileImage(p.images[1]))
  }

  /** The corrected lookup always yields a name and a picture, agrees with the
      as-written one wherever that does not raise, and shows the default picture
      exactly where the as-written one raises for want of a second image. */
  lemma IdentityCheckedIsTotal(data: map<string, SessionValue>, currentUser: string -> Suggestions.Profile)
    ensures Identity(data, currentUser).Some? ==> IdentityChecked(data, currentUser) == Identity(data, currentUser).value
    ensures StoredToken(data).None? ==> IdentityChecked(data, currentUser) == (DefaultUser, DefaultImage)
    ensures StoredToken(data).Some? ==>
      var p := currentUser(StoredToken(data).value.accessToken);
      && IdentityChecked(data, currentUser).0 == DisplayName(p.displayName)
      && (|p.images| < 2 ==> IdentityChecked(data, currentUser).1 == DefaultImage)
  {
    if data == map[] {
      assert StoredToken(data).None?;
    }
  }

  /** What the profile templates receive. */
  datatype ProfilePage<R> = ProfilePage(
    img: string, user: string, currentbook: seq<BookView>, tbr: seq<BookView>,
    completed: seq<BookView>, dnf: seq<BookView>, recs: R)

  /** The reply of the profile routes: the rendered page, or the 500 of an exception
      raised by the Spotify profile calls. */
  datatype ProfileReply<R> = Rendered(page: ProfilePage<R>) | ServerError

  /** The session after the profile routes: get_profile stores the user id when the
      session is non-empty and holds a token. */
  function SessionAfterProfile(data: map<string, SessionValue>, currentUser: string -> Suggestions.Profile): map<string, SessionValue>
  {
    if data != map[] && StoredToken(data).Some? then
      data[UserKey := UserValue(currentUser(StoredToken(data).value.accessToken).id)]
    else data
  }

  /** The page for the library and top-five list of owner. library and topFive stand
      for get_library and get_top_five_by_username; currentUser for the Spotify
      profile endpoint. */
  method ProfileFor<R>(owner: Option<string>, library: Option<string> -> seq<Row>,
                       topFive: Option<string> -> R, s: Session, currentUser: string -> Suggestions.Profile)
    returns (reply: ProfileReply<R>)
    modifies s
    ensures reply.ServerError? <==> Identity(old(s.data), currentUser).None?
    ensures s.data == SessionAfterProfile(old(s.data), currentUser)
    ensures reply.Rendered? ==>
      && reply.page.currentbook == Shelved(library(owner), Reading)
      && reply.page.completed == Shelved(library(owner), Completed)
      && reply.page.dnf == Shelved(library(owner), Dnf)
      && reply.page.tbr == Shelved(library(owner), Tbr)
      && reply.page.recs == topFive(owner)
      && (reply.page.user, reply.page.img) == Identity(old(s.data), currentUser).value
  {
    var reading, completed, dnf, tbr := PartitionLibrary(library(owner));
    var recs := topFive(owner);
    var user := DefaultUser;
    var img := DefaultImage;
    if s.data != map[] {
      var profileData := GetProfileData(s.data, currentUser);
      if profileData.None? {
        return ServerError;
      }
      if profileData.value.displayName.Some? && profileData.value.displayName.value != "" {
        user := profileData.value.displayName.value;
      }
      var profileImg := s.GetProfile(currentUser);
      if !profileImg.ImageUrl? {
        return ServerError;
      }
      if profileImg.url != "" {
        img := profileImg.url;
      }
    }
    reply := Rendered(ProfilePage(img, user, reading, tbr, completed, dnf, recs));
  }

  /** session.get("user"). */
  function SessionUser(data: map<string, SessionValue>): Option<string>
  {
    if UserKey in data && data[UserKey].UserValue? then Some(data[UserKey].id) else None
  }

  /** profile: the shelves of the user named in the session before the profile calls. */
  method Profile<R>(library: Option<string> -> seq<Row>, topFive: Option<string> -> R,
                    s: Session, currentUser: string -> Suggestions.Profile)
    returns (reply: ProfileReply<R>)
    modifies s
    ensures reply.ServerError? <==> Identity(old(s.data), currentUser).None?
    ensures s.data == SessionAfterProfile(old(s.data), currentUser)
    ensures reply.Rendered? ==>
      var owner := SessionUser(old(s.data));
      && reply.page.currentbook == Shelved(library(owner), Reading)
      && reply.page.completed == Shelved(library(owner), Completed)
      && reply.page.dnf == Shelved(library(owner), Dnf)
      && reply.page.tbr == Shelved(library(owner), Tbr)
      && reply.page.recs == topFive(owner)
      && (reply.page.user, reply.page.img) == Identity(old(s.data), currentUser).value
  {
    reply := ProfileFor(SessionUser(s.data), library, topFive, s, currentUser);
  }

  /** user_profile: the path user's shelves, with the same partition; the name and image
      still come from the signed-in session. */
  method UserProfile<R>(user: string, library: Option<string> -> seq<Row>,
                        topFive: Option<string> -> R, s: Session, currentUser: string -> Suggestions.Profile)
    returns (reply: ProfileReply<R>)
    modifies s
    ensures reply.ServerError? <==> Identity(old(s.data), currentUser).None?
    ensures s.data == SessionAfterProfile(old(s.data), currentUser)
    ensures reply.Rendered? ==>
      && reply.page.currentbook == Shelved(library(Some(user)), Reading)
      && reply.page.completed == Shelved(library(Some(user)), Completed)
      && reply.page.dnf == Shelved(library(Some(user)), Dnf)
      && reply.page.tbr == Shelved(library(Some(user)), Tbr)
      && reply.page.recs == topFive(Some(user))
      && (reply.page.user, reply.page.img) == Identity(old(s.data), currentUser).value
  {
    reply := ProfileFor(Some(user), library, topFive, s, currentUser);
  }

  datatype TbrResponse = RedirectToProfile | LibraryJson(rows: seq<Row>)

  /** user_tbr: only the signed-in owner gets the library. */
  method UserTbr(sessionUser: Option<string>, user: string, library: Option<string> -> seq<Row>)
    returns (r: TbrResponse)
    ensures r.LibraryJson? <==> sessionUser == Some(user)
    ensures r.LibraryJson? ==> r.rows == library(Some(user))
  {
    if sessionUser != Some(user) {
      return RedirectToProfile;
    }
    r := LibraryJson(library(Some(user)));
  }
}
