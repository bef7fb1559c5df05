/**
 * static/js/topfive.js: the page's Top Five list, the insertion point chosen from
 * the rendered items' midpoints, the drag-and-drop update of the list, and the
 * labels of the rendered items. Coordinates are reals; the DOM is reduced to
 * the item rectangles and the drag source's data.
 */
module TopFive {
  import opened Wrappers
  import opened Text

  /** An entry of the list, `[id, title]` in the page. */
  datatype Book = Book(id: int, title: string)

  /** The bounding rectangle of a rendered list item. */
  datatype Rect = Rect(top: real, height: real)

  function Midpoint(r: Rect): real {
    r.top + r.height / 2.0
  }

  /** The longest the list gets by dropping. */
  const Capacity := 5

  /** The insertion index for a pointer at clientY: the first item whose midpoint lies
      below the pointer, or the item count when there is none. */
  function InsertPosition(items: seq<Rect>, clientY: real): (pos: nat)
    ensures pos <= |items|
    ensures forall k :: 0 <= k < pos ==> Midpoint(items[k]) <= clientY
    ensures pos < |items| ==> clientY < Midpoint(items[pos])
  {
    if items == [] then 0
    else if clientY < Midpoint(items[0]) then 0
    else 1 + InsertPosition(items[1..], clientY)
  }

  /** getInsertPosition. */
  method GetInsertPosition(items: seq<Rect>, clientY: real) returns (pos: nat)
    ensures pos == InsertPosition(items, clientY)
  {
    if |items| == 0 {
      return 0;
    }
    var i := 0;
    while i < |items|
      invariant 0 <= i <= |items|
      invariant forall k :: 0 <= k < i ==> Midpoint(items[k]) <= clientY
    {
      var midpoint := items[i].top + items[i].height / 2.0;
      if clientY < midpoint {
        InsertPositionIsFirst(items, clientY, i);
        return i;
      }
      i := i + 1;
    }
    InsertPositionIsFirst(items, clientY, |items|);
    pos := |items|;
  }

  /** The first-index property determines the insertion index. */
  lemma InsertPositionIsFirst(items: seq<Rect>, clientY: real, i: nat)
    requires i <= |items|
    requires forall k :: 0 <= k < i ==> Midpoint(items[k]) <= clientY
    requires i < |items| ==> clientY < Midpoint(items[i])
    ensures InsertPosition(items, clientY) == i
  {
  }

  /** Moving the pointer down never moves the insertion point up. */
  lemma InsertPositionMonotone(items: seq<Rect>, y1: real, y2: real)
    requires y1 <= y2
    ensures InsertPosition(items, y1) <= InsertPosition(items, y2)
  {
  }

  /** Array.prototype.splice(pos, 0, b): a start past the end appends. */
  function Splice(recs: seq<Book>, pos: nat, b: Book): seq<Book>
  {
    var p := if pos <= |recs| then pos else |recs|;
    recs[..p] + [b] + recs[p..]
  }

  /** The list after inserting b at pos and popping the last entry if it grew past
      Capacity. */
  function Dropped(recs: seq<Book>, pos: nat, b: Book): seq<Book>
  {
    var inserted := Splice(recs, pos, b);
    if |inserted| > Capacity then inserted[..|inserted| - 1] else inserted
  }

  predicate HasId(recs: seq<Book>, id: int) {
    exists k :: 0 <= k < |recs| && recs[k].id == id
  }

  /** The drop's effect on the list: the book lands at the clamped position, the
      entries before it keep their places, the ones after it shift down by one, and
      a list at or over Capacity loses exactly its last entry. Dropping past the end
      of a full list therefore changes nothing, and a list of at most Capacity
      entries stays within Capacity. */
  lemma {:induction false} DroppedShape(recs: seq<Book>, pos: nat, b: Book)
    ensures var r, p := Dropped(recs, pos, b), if pos <= |recs| then pos else |recs|;
      && |r| == (if |recs| < Capacity then |recs| + 1 else |recs|)
      && (|recs| >= Capacity && p == |recs| ==> r == recs)
      && (p < |r| ==> r[..p] == recs[..p] && r[p] == b && r[p + 1..] == recs[p..|r| - 1])
  {
    var p := if pos <= |recs| then pos else |recs|;
    var inserted := recs[..p] + [b] + recs[p..];
    var r := Dropped(recs, pos, b);
    assert |inserted| == |recs| + 1;
    if |recs| >= Capacity && p == |recs| {
      assert inserted[..|inserted| - 1] == recs;
    }
    if p < |r| {
      assert r[..p] == inserted[..p];
      assert r[p + 1..] == inserted[p + 1..|r|];
      assert inserted[p + 1..|r|] == recs[p..|r| - 1];
    }
  }

  /** Dropping into a list of at most Capacity entries keeps it within Capacity. */
  lemma DroppedWithinCapacity(recs: seq<Book>, pos: nat, b: Book)
    requires |recs| <= Capacity
    ensures |Dropped(recs, pos, b)| <= Capacity
    ensures |recs| < Capacity ==> b in Dropped(recs, pos, b)
  {
    DroppedShape(recs, pos, b);
  }

  /** The drag source's data: the book id and the text content of the item. */
  datatype DragData = DragData(bookId: int, text: string)

  /** The element a dragstart or dragend event targets. */
  datatype DragTarget = DragTarget(isDragItem: bool, data: DragData)

  /** A rendered list element. */
  datatype ListItem = EmptyState | Ranked(caption: string, bookId: int, position: nat)

  /** The text of the entry at index i. */
  function Label(i: nat, title: string): (l: string)
    ensures LeadingDigits(l) == |NatToString(i + 1)|
    ensures DigitsValue(l[..LeadingDigits(l)]) == i + 1
    ensures l[LeadingDigits(l)..] == ". " + title
  {
    var n := NatToString(i + 1);
    LeadingDigitsOfRun(n, ". " + title);
    NatToStringRoundTrip(i + 1);
    assert (n + ". " + title)[..|n|] == n;
    assert (n + ". " + title)[|n|..] == ". " + title;
    n + ". " + title
  }

  /** Entries at different indexes carry different labels. */
  lemma LabelsDistinct(i: nat, j: nat, s: string, t: string)
    requires i != j
    ensures Label(i, s) != Label(j, t)
  {
  }

  /** renderBookList: one ranked item per entry, numbered from 1, or the empty state. */
  method RenderBookList(recs: seq<Book>) returns (items: seq<ListItem>)
    ensures recs == [] ==> items == [EmptyState]
    ensures recs != [] ==> |items| == |recs|
    ensures recs != [] ==>
      forall i :: 0 <= i < |recs| ==> items[i] == Ranked(Label(i, recs[i].title), recs[i].id, i)
  {
    if |recs| == 0 {
      return [EmptyState];
    }
    items := [];
    for i := 0 to |recs|
      invariant |items| == i
      invariant forall k :: 0 <= k < i ==> items[k] == Ranked(Label(k, recs[k].title), recs[k].id, k)
    {
      items := items + [Ranked(NatToString(i + 1) + ". " + recs[i].title, recs[i].id, i)];
    }
  }

  /** The page's list and the drag in progress. */
  class TopFiveList {
    var recs: seq<Book>
    var dragged: Option<DragData>

    constructor (initial: seq<Book>)
      ensures recs == initial && dragged == None
    {
      recs := initial;
      dragged := None;
    }

    /** dragstart: only a drag item starts a drag. */
    method DragStart(target: DragTarget)
      modifies this
      ensures recs == old(recs)
      ensures dragged == if target.isDragItem then Some(target.data) else old(dragged)
    {
      if target.isDragItem {
        dragged := Some(target.data);
      }
    }

    /** dragend: the drag is over, whatever the target. */
    method DragEnd()
      modifies this
      ensures recs == old(recs) && dragged == None
    {
      dragged := None;
    }

    /** The drop handler's list update; alerted reports the duplicate alert. */
    method Drop(items: seq<Rect>, clientY: real) returns (alerted: bool)
      modifies this
      ensures dragged == old(dragged)
      ensures alerted <==> old(dragged).Some? && HasId(old(recs), old(dragged).value.bookId)
      ensures old(dragged).None? || alerted ==> recs == old(recs)
      ensures old(dragged).Some? && !alerted ==>
        var d := old(dragged).value;
        recs == Dropped(old(recs), InsertPosition(items, clientY), Book(d.bookId, Strip(d.text, JsIsSpace)))
    {
      alerted := false;
      if dragged.None? {
        return;
      }
      var d := dragged.value;
      var insertPos := GetInsertPosition(items, clientY);
      var existingIndex := -1;
      for k := 0 to |recs|
        invariant existingIndex == -1 ==> forall m :: 0 <= m < k ==> recs[m].id != d.bookId
        invariant existingIndex != -1 ==> 0 <= existingIndex < |recs| && recs[existingIndex].id == d.bookId
      {
        if existingIndex == -1 && recs[k].id == d.bookId {
          existingIndex := k;
        }
      }
      if existingIndex != -1 {
        return true;
      }
      var p := if insertPos <= |recs| then insertPos else |recs|;
      recs := recs[..p] + [Book(d.bookId, Strip(d.text, JsIsSpace))] + recs[p..];
      if |recs| > 5 {
        recs := recs[..|recs| - 1];
      }
    }
  }
}
