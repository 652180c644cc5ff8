/** One drag of a strip chip, from the press to the release. */
module KeyStripView {
  import opened JsText
  import opened Lists
  import opened KeyStrip
  import KeyTray

  /** The row on screen and what the gesture remembers; `at` is where the held chip is. */
  datatype Drag = Drag(row: seq<Chip>, at: nat, startX: real, startIndex: nat, dragging: bool)

  /** Where the row is when a move arrives (it may scroll), and where the finger is. */
  datatype Move = Move(left: real, gap: real, pointerX: real)

  function Apart(x: real, y: real): real {
    if x < y then y - x else x - y
  }

  function Moves(d: Drag, m: Move): (r: Drag)
    requires d.at < |d.row|
    ensures r.at < |r.row| == |d.row|
  {
    if !d.dragging && Apart(m.pointerX, d.startX) < DRAG_THRESHOLD then d
    else
      var target := Dropped(Centers(d.row, m.left, m.gap), d.at, m.pointerX);
      d.(dragging := true, row := Moved(d.row, d.at, target), at := target)
  }

  function AllMoves(d: Drag, ms: seq<Move>): (r: Drag)
    requires d.at < |d.row|
    ensures r.at < |r.row| == |d.row|
  {
    if ms == [] then d else Moves(AllMoves(d, ms[..|ms| - 1]), ms[|ms| - 1])
  }

  function Ids(row: seq<Chip>): (r: seq<Str>)
    ensures |r| == |row| && forall i :: 0 <= i < |row| ==> r[i] == row[i].id
  {
    seq(|row|, i requires 0 <= i < |row| => row[i].id)
  }

  /** `[...row.children].indexOf(chip)`, for a chip that is in the row. */
  function IndexOf(row: seq<Chip>, id: Str): (i: nat)
    requires id in Ids(row)
    ensures i < |row| && row[i].id == id
    ensures forall j :: 0 <= j < i ==> row[j].id != id
  {
    if row[0].id == id then 0
    else assert Ids(row)[1..] == Ids(row[1..]); 1 + IndexOf(row[1..], id)
  }

  /** The strip the release leaves: told once, and only if the chip is somewhere else. */
  function Released(d: Drag, keyIds: seq<Str>): seq<Str> {
    if !d.dragging || d.at == d.startIndex then keyIds
    else
      var order := Ids(d.row);
      KeyTray.Reordered(keyIds, order, KeyTray.Elements(order), 0)
  }

  class Gesture {
    const chipId: Str
    var row: seq<Chip>
    var startX: real
    var startIndex: nat
    var dragging: bool

    predicate Valid()
      reads this
    {
      chipId in Ids(row) && Distinct(Ids(row)) && startIndex < |row|
    }

    function State(): Drag
      reads this
      requires Valid()
    {
      Drag(row, IndexOf(row, chipId), startX, startIndex, dragging)
    }

    constructor (row: seq<Chip>, chipId: Str, pointerX: real)
      requires chipId in Ids(row) && Distinct(Ids(row))
      ensures Valid() && this.chipId == chipId
      ensures State() == Drag(row, IndexOf(row, chipId), pointerX, IndexOf(row, chipId), false)
    {
      this.row := row;
      this.chipId := chipId;
      startX := pointerX;
      startIndex := IndexOf(row, chipId);
      dragging := false;
    }

    method PointerMove(m: Move)
      requires Valid()
      modifies this
      ensures Valid() && State() == Moves(old(State()), m)
    {
      if !dragging && Apart(m.pointerX, startX) < DRAG_THRESHOLD { return; }
      dragging := true;
      var current := IndexOf(row, chipId);
      var target := DropIndex(Centers(row, m.left, m.gap), current, m.pointerX);
      MovedIds(row, current, target);
      MovedWithout(row, current, target);
      if target == current { return; }
      row := Moved(row, current, target);
    }

    method Release(keyIds: seq<Str>) returns (strip: seq<Str>)
      requires Valid()
      modifies this`dragging
      ensures Valid() && !dragging && strip == Released(old(State()), keyIds)
    {
      strip := keyIds;
      if !dragging { return; }
      dragging := false;
      var landed := IndexOf(row, chipId);
      if landed == startIndex { return; }
      strip := KeyTray.ReorderKeys(keyIds, Ids(row));
    }
  }

  // ── What every drag keeps ──────────────────────────────────────────────────

  /** Only the held chip moves: taken out of the row, the others are as they were. */
  lemma MovedWithout(row: seq<Chip>, from: nat, to: nat)
    requires from < |row| && to < |row|
    ensures Without(Moved(row, from, to), to) == Without(row, from)
    ensures from == to ==> Moved(row, from, to) == row
  {
  }

  lemma MovedCounts(row: seq<Chip>, from: nat, to: nat)
    requires from < |row| && to < |row|
    ensures multiset(Ids(Moved(row, from, to))) == multiset(Ids(row))
  {
    var m := Moved(row, from, to);
    MovedWithout(row, from, to);
    IdsWithout(row, from);
    IdsWithout(m, to);
  }

  lemma SameCountsSameElements(a: seq<Str>, b: seq<Str>)
    requires multiset(a) == multiset(b)
    ensures KeyTray.Elements(a) == KeyTray.Elements(b)
  {
    assert forall id :: id in a <==> id in multiset(a);
    assert forall id :: id in b <==> id in multiset(b);
  }

  lemma MovedIds(row: seq<Chip>, from: nat, to: nat)
    requires from < |row| && to < |row| && Distinct(Ids(row))
    ensures var m := Moved(row, from, to);
            && KeyTray.Elements(Ids(m)) == KeyTray.Elements(Ids(row))
            && Distinct(Ids(m))
            && row[from].id in Ids(m) && IndexOf(m, row[from].id) == to
  {
    var m := Moved(row, from, to);
    MovedCounts(row, from, to);
    SameCountsSameElements(Ids(m), Ids(row));
    KeyTray.PermutedDistinct(Ids(row), Ids(m));
    assert Ids(m)[to] == row[from].id;
    var i := IndexOf(m, row[from].id);
    assert Ids(m)[i] == Ids(m)[to];
  }

  lemma IdsWithout(row: seq<Chip>, i: nat)
    requires i < |row|
    ensures multiset(Ids(row)) == multiset(Ids(Without(row, i))) + multiset{row[i].id}
  {
    assert Ids(row) == Ids(row[..i]) + [row[i].id] + Ids(row[i + 1..]);
    assert Ids(Without(row, i)) == Ids(row[..i]) + Ids(row[i + 1..]);
  }

  lemma {:induction false} OthersStay(d: Drag, ms: seq<Move>)
    requires d.at < |d.row| && Distinct(Ids(d.row))
    ensures var e := AllMoves(d, ms);
            && Without(e.row, e.at) == Without(d.row, d.at) && e.row[e.at] == d.row[d.at]
            && Distinct(Ids(e.row)) && KeyTray.Elements(Ids(e.row)) == KeyTray.Elements(Ids(d.row))
            && e.startIndex == d.startIndex
  {
    if ms != [] {
      OthersStay(d, ms[..|ms| - 1]);
      var e := AllMoves(d, ms[..|ms| - 1]);
      var m := ms[|ms| - 1];
      var target := Dropped(Centers(e.row, m.left, m.gap), e.at, m.pointerX);
      MovedIds(e.row, e.at, target);
      MovedWithout(e.row, e.at, target);
    }
  }

  /** The chip's place fixes the row, so telling nobody when it is back where it started loses nothing. */
  lemma SamePlaceSameRow(a: seq<Chip>, b: seq<Chip>, at: nat)
    requires at < |a| == |b| && Without(a, at) == Without(b, at) && a[at] == b[at]
    ensures a == b
  {
    assert a == a[..at] + [a[at]] + a[at + 1..];
    assert b == b[..at] + [b[at]] + b[at + 1..];
    assert a[..at] == Without(a, at)[..at] && a[at + 1..] == Without(a, at)[at..];
    assert b[..at] == Without(b, at)[..at] && b[at + 1..] == Without(b, at)[at..];
  }

  /**
   * Whatever the finger did, the strip after the release is a permutation of the
   * one before it: its drawn keys stand as the chips do on screen, and a saved key
   * without a chip keeps its slot.
   */
  lemma EveryDragPermutes(keyIds: seq<Str>, known: set<Str>, d: Drag, ms: seq<Move>)
    requires Distinct(keyIds) && Ids(d.row) == KeyTray.Keep(keyIds, known)
    requires d.at < |d.row| && d.startIndex == d.at && !d.dragging
    ensures var e := AllMoves(d, ms);
            var strip := Released(e, keyIds);
            && multiset(strip) == multiset(keyIds) && Distinct(strip)
            && KeyTray.Keep(strip, known) == Ids(e.row)
            && |strip| == |keyIds|
            && (forall i :: 0 <= i < |keyIds| && keyIds[i] !in known ==> strip[i] == keyIds[i])
  {
    KeyTray.KeepDistinct(keyIds, known);
    OthersStay(d, ms);
    NotDraggedYet(d, ms);
    var e := AllMoves(d, ms);
    if e.at == d.at {
      SamePlaceSameRow(d.row, e.row, d.at);
    } else {
      KeyTray.ReorderFollowsTheRow(keyIds, known, Ids(e.row));
    }
  }

  /**
   * A finger less than six points from where it went down moves nothing, until it has once
   * been farther. From then on the chip lands where the finger is, the others in order.
   */
  lemma MoveCarries(d: Drag, m: Move)
    requires d.at < |d.row| && Drawable(d.row, m.gap)
    ensures var r := Moves(d, m);
            if !d.dragging && d.startX - 6.0 < m.pointerX < d.startX + 6.0 then r == d
            else && r.dragging && r.row[r.at] == d.row[d.at] && Without(r.row, r.at) == Without(d.row, d.at)
                 && Lands(Centers(d.row, m.left, m.gap), d.at, m.pointerX, r.at)
                 && r.startX == d.startX && r.startIndex == d.startIndex
  {
    var centers := Centers(d.row, m.left, m.gap);
    CentersIncrease(d.row, m.left, m.gap);
    var target := Dropped(centers, d.at, m.pointerX);
    DroppedIsTheLanding(centers, d.at, m.pointerX, target);
    MovedWithout(d.row, d.at, target);
  }

  lemma {:induction false} NotDraggedYet(d: Drag, ms: seq<Move>)
    requires d.at < |d.row| && !d.dragging
    ensures !AllMoves(d, ms).dragging ==> AllMoves(d, ms) == d
  {
    if ms != [] { NotDraggedYet(d, ms[..|ms| - 1]); }
  }
}
