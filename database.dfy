/**
 * application/database.py: the sqlite tables `library` and `topfive` with
 * AUTOINCREMENT ids, and the statements the application runs against them. Each
 * table is an object holding its rows in id order and the next id to issue. The
 * JSON columns hold the decoded lists.
 */
module Database {
  import opened Wrappers
  import opened Seqs

  /** A row of `library`; the nullable columns are Options. */
  datatype LibraryRow = LibraryRow(
    id: int, username: string, book: seq<string>, status: Option<string>,
    pagesRead: Option<int>, totalPages: Option<int>, version: Option<string>)

  /** A row of `topfive`: items is the list of strings the caller passes, stored as
      given (the /addtopfive route passes the form's `books[]` values). */
  datatype TopFiveRow = TopFiveRow(id: int, username: string, items: seq<string>)

  /** Ids are positive, strictly increasing in row order, and below the next id, which
      is positive too. */
  ghost predicate IdsIssued(ids: seq<int>, nextId: int) {
    && 0 < nextId
    && (forall i :: 0 <= i < |ids| ==> 0 < ids[i] < nextId)
    && (forall i, j :: 0 <= i < j < |ids| ==> ids[i] < ids[j])
  }

  function LibraryIds(rows: seq<LibraryRow>): (ids: seq<int>)
    ensures |ids| == |rows| && forall i :: 0 <= i < |rows| ==> ids[i] == rows[i].id
  {
    seq(|rows|, i requires 0 <= i < |rows| => rows[i].id)
  }

  function TopFiveIds(rows: seq<TopFiveRow>): (ids: seq<int>)
    ensures |ids| == |rows| && forall i :: 0 <= i < |rows| ==> ids[i] == rows[i].id
  {
    seq(|rows|, i requires 0 <= i < |rows| => rows[i].id)
  }

  /** The WHERE clause `username = ? AND id = ?`. */
  predicate Matches(r: LibraryRow, user: string, id: int) {
    r.username == user && r.id == id
  }

  /** `SELECT * FROM library WHERE username = ?`, in id order. */
  function LibraryOf(rows: seq<LibraryRow>, user: string): seq<LibraryRow>
  {
    Filter(rows, (r: LibraryRow) => r.username == user)
  }

  /** `DELETE FROM library WHERE username = ? AND id = ?`. */
  function Removed(rows: seq<LibraryRow>, user: string, id: int): seq<LibraryRow>
  {
    Filter(rows, r => !Matches(r, user, id))
  }

  /** `UPDATE library SET pages_read = ? WHERE username = ? AND id = ?`. */
  function WithPagesRead(rows: seq<LibraryRow>, user: string, id: int, pagesRead: int): (r: seq<LibraryRow>)
    ensures |r| == |rows|
  {
    seq(|rows|, i requires 0 <= i < |rows| =>
      if Matches(rows[i], user, id) then rows[i].(pagesRead := Some(pagesRead)) else rows[i])
  }

  /** `UPDATE library SET status = 'reading' WHERE username = ? AND id = ?`. */
  function WithReading(rows: seq<LibraryRow>, user: string, id: int): (r: seq<LibraryRow>)
    ensures |r| == |rows|
  {
    seq(|rows|, i requires 0 <= i < |rows| =>
      if Matches(rows[i], user, id) then rows[i].(status := Some("reading")) else rows[i])
  }

  /** `SELECT * FROM library WHERE username = ?` returns exactly that user's rows, in
      id order. */
  lemma LibraryOfMembership(rows: seq<LibraryRow>, user: string, more: seq<LibraryRow>, r: LibraryRow)
    ensures r in LibraryOf(rows, user) <==> r in rows && r.username == user
    ensures LibraryOf(rows + more, user) == LibraryOf(rows, user) + LibraryOf(more, user)
  {
    FilterMembership(rows, (x: LibraryRow) => x.username == user, r);
    FilterConcat(rows, more, (x: LibraryRow) => x.username == user);
  }

  /** The delete removes exactly the rows matching both user and id. */
  lemma RemovedMembership(rows: seq<LibraryRow>, user: string, id: int, r: LibraryRow)
    ensures r in Removed(rows, user, id) <==> r in rows && !Matches(r, user, id)
  {
    FilterMembership(rows, x => !Matches(x, user, id), r);
  }

  /** With distinct ids, the delete removes at most one row, and none when no row
      matches. */
  lemma {:induction false} RemovedAtMostOne(rows: seq<LibraryRow>, user: string, id: int)
    requires forall i, j :: 0 <= i < j < |rows| ==> rows[i].id != rows[j].id
    ensures |Removed(rows, user, id)| >= |rows| - 1
    ensures (forall k :: 0 <= k < |rows| ==> !Matches(rows[k], user, id)) ==> Removed(rows, user, id) == rows
  {
    if rows != [] {
      var init, last := rows[..|rows| - 1], rows[|rows| - 1];
      assert rows == init + [last];
      RemovedAtMostOne(init, user, id);
      FilterSnoc(init, last, x => !Matches(x, user, id));
      if Matches(last, user, id) {
        forall k | 0 <= k < |init| ensures !Matches(init[k], user, id) {
          assert init[k].id == rows[k].id;
        }
      }
    }
  }

  /** Another user's library is untouched by the delete. */
  lemma RemovedKeepsOthers(rows: seq<LibraryRow>, user: string, id: int, other: string)
    requires other != user
    ensures LibraryOf(Removed(rows, user, id), other) == LibraryOf(rows, other)
  {
    FilterNarrow(rows, x => !Matches(x, user, id), (x: LibraryRow) => x.username == other);
  }

  /** The progress update changes pages_read only, and only on the matching rows, which
      get the new value. */
  lemma WithPagesReadChangesOnlyPages(rows: seq<LibraryRow>, user: string, id: int, pagesRead: int)
    ensures var r := WithPagesRead(rows, user, id, pagesRead);
      forall i :: 0 <= i < |rows| ==>
        && r[i].(pagesRead := rows[i].pagesRead) == rows[i]
        && (Matches(rows[i], user, id) ==> r[i].pagesRead == Some(pagesRead))
        && (!Matches(rows[i], user, id) ==> r[i] == rows[i])
  {
  }

  /** Marking a book as being read changes status only, on the matching rows, and never
      resets another row's status: several books can be "reading" at once. */
  lemma WithReadingChangesOnlyStatus(rows: seq<LibraryRow>, user: string, id: int)
    ensures var r := WithReading(rows, user, id);
      forall i :: 0 <= i < |rows| ==>
        && r[i].(status := rows[i].status) == rows[i]
        && (Matches(rows[i], user, id) ==> r[i].status == Some("reading"))
        && (!Matches(rows[i], user, id) ==> r[i] == rows[i])
        && (rows[i].status == Some("reading") ==> r[i].status == Some("reading"))
  {
  }

  /** Another user's library is untouched by either update. */
  lemma UpdatesKeepOthers(rows: seq<LibraryRow>, user: string, id: int, pagesRead: int, other: string)
    requires other != user
    ensures LibraryOf(WithPagesRead(rows, user, id, pagesRead), other) == LibraryOf(rows, other)
    ensures LibraryOf(WithReading(rows, user, id), other) == LibraryOf(rows, other)
  {
    FilterPointwise(WithPagesRead(rows, user, id, pagesRead), rows, (x: LibraryRow) => x.username == other);
    FilterPointwise(WithReading(rows, user, id), rows, (x: LibraryRow) => x.username == other);
  }

  /** The delete keeps the ids in increasing order. */
  lemma {:induction false} RemovedKeepsIds(rows: seq<LibraryRow>, user: string, id: int, nextId: int)
    requires IdsIssued(LibraryIds(rows), nextId)
    ensures IdsIssued(LibraryIds(Removed(rows, user, id)), nextId)
  {
    if rows != [] {
      var init, last := rows[..|rows| - 1], rows[|rows| - 1];
      assert rows == init + [last];
      assert LibraryIds(init) == LibraryIds(rows)[..|init|];
      RemovedKeepsIds(init, user, id, nextId);
      FilterSnoc(init, last, x => !Matches(x, user, id));
      var kept := Removed(init, user, id);
      forall k | 0 <= k < |kept| ensures kept[k].id < last.id {
        RemovedMembership(init, user, id, kept[k]);
        var j :| 0 <= j < |init| && init[j] == kept[k];
        assert rows[j] == init[j];
      }
    }
  }

  /** The first row of user in id order, as fetchone() returns it. */
  function FirstTopFive(rows: seq<TopFiveRow>, user: string): (r: Option<TopFiveRow>)
    ensures r.None? <==> forall k :: 0 <= k < |rows| ==> rows[k].username != user
    ensures r.Some? ==> r.value in rows && r.value.username == user
    ensures r.Some? ==>
      exists i :: 0 <= i < |rows| && rows[i] == r.value && forall k :: 0 <= k < i ==> rows[k].username != user
  {
    if rows == [] then None
    else if rows[0].username == user then Some(rows[0])
    else
      var r := FirstTopFive(rows[1..], user);
      assert r.Some? ==>
        exists i :: 0 <= i < |rows| && rows[i] == r.value && forall k :: 0 <= k < i ==> rows[k].username != user
      by {
        if r.Some? {
          var i :| 0 <= i < |rows[1..]| && rows[1..][i] == r.value && forall k :: 0 <= k < i ==> rows[1..][k].username != user;
          assert rows[i + 1] == r.value && forall k :: 0 <= k < i + 1 ==> rows[k].username != user;
        }
      }
      r
  }

  /** The most recently inserted row of user. */
  function LatestTopFive(rows: seq<TopFiveRow>, user: string): (r: Option<TopFiveRow>)
    ensures r.None? <==> forall k :: 0 <= k < |rows| ==> rows[k].username != user
    ensures r.Some? ==> r.value in rows && r.value.username == user
    ensures r.Some? ==>
      exists i :: 0 <= i < |rows| && rows[i] == r.value && forall k :: i < k < |rows| ==> rows[k].username != user
  {
    if rows == [] then None
    else if rows[|rows| - 1].username == user then Some(rows[|rows| - 1])
    else
      var r := LatestTopFive(rows[..|rows| - 1], user);
      assert r.Some? ==>
        exists i :: 0 <= i < |rows| && rows[i] == r.value && forall k :: i < k < |rows| ==> rows[k].username != user
      by {
        if r.Some? {
          var init := rows[..|rows| - 1];
          var i :| 0 <= i < |init| && init[i] == r.value && forall k :: i < k < |init| ==> init[k].username != user;
          assert rows[i] == r.value && forall k :: i < k < |rows| ==> rows[k].username != user;
        }
      }
      r
  }

  /** Once a user has a row, later inserts for that user do not change what
      get_top_five_by_username returns: an amended list is never read back. */
  lemma {:induction false} AmendIsNotReadBack(rows: seq<TopFiveRow>, row: TopFiveRow)
    requires exists k :: 0 <= k < |rows| && rows[k].username == row.username
    ensures FirstTopFive(rows + [row], row.username) == FirstTopFive(rows, row.username)
  {
    var k :| 0 <= k < |rows| && rows[k].username == row.username;
    if rows[0].username != row.username {
      assert (rows + [row])[1..] == rows[1..] + [row];
      assert rows[1..][k - 1] == rows[k];
      AmendIsNotReadBack(rows[1..], row);
    }
  }

  /** So the second of two different lists stored for a user is never the one read. */
  lemma SecondAmendLost(rows: seq<TopFiveRow>, user: string, first: seq<string>, second: seq<string>, id1: int, id2: int)
    requires forall k :: 0 <= k < |rows| ==> rows[k].username != user
    requires first != second
    ensures FirstTopFive(rows + [TopFiveRow(id1, user, first)] + [TopFiveRow(id2, user, second)], user)
         == Some(TopFiveRow(id1, user, first))
  {
    var once := rows + [TopFiveRow(id1, user, first)];
    FirstAfterNone(rows, TopFiveRow(id1, user, first));
    AmendIsNotReadBack(once, TopFiveRow(id2, user, second));
  }

  lemma {:induction false} FirstAfterNone(rows: seq<TopFiveRow>, row: TopFiveRow)
    requires forall k :: 0 <= k < |rows| ==> rows[k].username != row.username
    ensures FirstTopFive(rows + [row], row.username) == Some(row)
  {
    if rows != [] {
      assert (rows + [row])[1..] == rows[1..] + [row];
      FirstAfterNone(rows[1..], row);
    }
  }

  /** The latest row always reads back the last insert for that user. */
  lemma LatestReadsBackAmend(rows: seq<TopFiveRow>, row: TopFiveRow)
    ensures LatestTopFive(rows + [row], row.username) == Some(row)
  {
    assert (rows + [row])[|rows + [row]| - 1] == row;
  }

  /** Inserts for another user leave the latest row of a user alone. */
  lemma LatestIgnoresOthers(rows: seq<TopFiveRow>, row: TopFiveRow, user: string)
    requires row.username != user
    ensures LatestTopFive(rows + [row], user) == LatestTopFive(rows, user)
  {
    assert (rows + [row])[..|rows + [row]| - 1] == rows;
  }

  /** The `library` table. */
  class LibraryTable {
    var rows: seq<LibraryRow>
    var nextId: int

    ghost predicate Valid()
      reads this
    {
      IdsIssued(LibraryIds(rows), nextId)
    }

    /** CREATE TABLE: empty, AUTOINCREMENT starting at 1. */
    constructor ()
      ensures rows == [] && nextId == 1 && Valid()
    {
      rows := [];
      nextId := 1;
    }

    /** add_book_to_library: one new row with a fresh id, the given user, book and
        total_pages, and null status, pages_read and version. pages is None when the
        caller found no page count; total_pages is then NULL. */
    method AddBook(user: string, book: seq<string>, pages: Option<int>) returns (id: int)
      requires Valid()
      modifies this
      ensures Valid()
      ensures id == old(nextId) && nextId == id + 1
      ensures forall k :: 0 <= k < |old(rows)| ==> old(rows)[k].id < id
      ensures rows == old(rows) + [LibraryRow(id, user, book, None, None, pages, None)]
    {
      id := nextId;
      rows := rows + [LibraryRow(id, user, book, None, None, pages, None)];
      nextId := nextId + 1;
      assert LibraryIds(rows) == LibraryIds(old(rows)) + [id];
    }

    /** remove_from_library. */
    method RemoveFromLibrary(user: string, id: int)
      requires Valid()
      modifies this
      ensures Valid() && nextId == old(nextId)
      ensures rows == Removed(old(rows), user, id)
    {
      RemovedKeepsIds(rows, user, id, nextId);
      rows := Filter(rows, r => !Matches(r, user, id));
    }

    /** update_book_progress. */
    method UpdateBookProgress(user: string, id: int, pagesRead: int)
      requires Valid()
      modifies this
      ensures Valid() && nextId == old(nextId)
      ensures rows == WithPagesRead(old(rows), user, id, pagesRead)
    {
      var current := rows;
      rows := seq(|current|, i requires 0 <= i < |current| =>
        if current[i].username == user && current[i].id == id then current[i].(pagesRead := Some(pagesRead)) else current[i]);
      assert LibraryIds(rows) == LibraryIds(old(rows));
    }

    /** update_currentbook. */
    method UpdateCurrentBook(user: string, id: int)
      requires Valid()
      modifies this
      ensures Valid() && nextId == old(nextId)
      ensures rows == WithReading(old(rows), user, id)
    {
      var current := rows;
      rows := seq(|current|, i requires 0 <= i < |current| =>
        if current[i].username == user && current[i].id == id then current[i].(status := Some("reading")) else current[i]);
      assert LibraryIds(rows) == LibraryIds(old(rows));
    }

    /** get_library. */
    method GetLibrary(user: string) returns (result: seq<LibraryRow>)
      ensures result == LibraryOf(rows, user)
    {
      result := Filter(rows, (r: LibraryRow) => r.username == user);
    }
  }

  /** The `topfive` table. */
  class TopFiveTable {
    var rows: seq<TopFiveRow>
    var nextId: int

    ghost predicate Valid()
      reads this
    {
      IdsIssued(TopFiveIds(rows), nextId)
    }

    constructor ()
      ensures rows == [] && nextId == 1 && Valid()
    {
      rows := [];
      nextId := 1;
    }

    /** amend_top_five: always a new row, never a replacement. */
    method AmendTopFive(user: string, items: seq<string>) returns (id: int)
      requires Valid()
      modifies this
      ensures Valid()
      ensures id == old(nextId) && nextId == id + 1
      ensures rows == old(rows) + [TopFiveRow(id, user, items)]
    {
      id := nextId;
      rows := rows + [TopFiveRow(id, user, items)];
      nextId := nextId + 1;
      assert TopFiveIds(rows) == TopFiveIds(old(rows)) + [id];
    }

    /** get_top_five_by_username as written: the user's first row, or None. */
    method GetTopFiveByUsername(user: string) returns (r: Option<TopFiveRow>)
      ensures r == FirstTopFive(rows, user)
    {
      r := None;
      var i := 0;
      while i < |rows|
        invariant 0 <= i <= |rows|
        invariant FirstTopFive(rows, user) == FirstTopFive(rows[i..], user)
      {
        if rows[i].username == user {
          return Some(rows[i]);
        }
        assert rows[i..][1..] == rows[i + 1..];
        i := i + 1;
      }
    }

    /** The lookup as evidently intended: the user's latest row, or None. */
    method GetLatestTopFive(user: string) returns (r: Option<TopFiveRow>)
      ensures r == LatestTopFive(rows, user)
    {
      r := None;
      var i := |rows|;
      assert rows[..i] == rows;
      while i > 0
        invariant 0 <= i <= |rows|
        invariant LatestTopFive(rows, user) == LatestTopFive(rows[..i], user)
      {
        if rows[i - 1].username == user {
          return Some(rows[i - 1]);
        }
        assert rows[..i][..i - 1] == rows[..i - 1];
        i := i - 1;
      }
    }
  }
}
