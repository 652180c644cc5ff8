/** The key strip's row of chips: how it is laid out, and where a dragged chip lands. */
module KeyStrip {
  import opened JsText

  datatype Chip = Chip(id: Str, width: real)

  const DRAG_THRESHOLD: real := 6.0

  // ── Layout ─────────────────────────────────────────────────────────────────

  predicate Drawable(row: seq<Chip>, gap: real) {
    gap >= 0.0 && forall i :: 0 <= i < |row| ==> row[i].width > 0.0
  }

  /** The room a run of chips takes, each with the gap behind it. */
  function Span(row: seq<Chip>, gap: real): real {
    if row == [] then 0.0 else row[0].width + gap + Span(row[1..], gap)
  }

  /** The centre of one chip's slot in a row that starts at `left`. */
  function Center(row: seq<Chip>, left: real, gap: real, i: nat): real
    requires i < |row|
  {
    left + Span(row[..i], gap) + row[i].width / 2.0
  }

  function Centers(row: seq<Chip>, left: real, gap: real): seq<real> {
    seq(|row|, i requires 0 <= i < |row| => Center(row, left, gap, i))
  }

  lemma {:induction false} SpanAppend(a: seq<Chip>, b: seq<Chip>, gap: real)
    ensures Span(a + b, gap) == Span(a, gap) + Span(b, gap)
  {
    if a == [] {
      assert a + b == b;
    } else {
      assert (a + b)[1..] == a[1..] + b;
      SpanAppend(a[1..], b, gap);
    }
  }

  predicate Increasing(cs: seq<real>) {
    forall i, j :: 0 <= i < j < |cs| ==> cs[i] < cs[j]
  }

  lemma {:induction false} SpanPositive(row: seq<Chip>, gap: real)
    requires Drawable(row, gap)
    ensures Span(row, gap) >= 0.0
  {
    if row != [] { SpanPositive(row[1..], gap); }
  }

  lemma CentersIncrease(row: seq<Chip>, left: real, gap: real)
    requires Drawable(row, gap)
    ensures Increasing(Centers(row, left, gap))
  {
    var cs := Centers(row, left, gap);
    forall i, j | 0 <= i < j < |cs| ensures cs[i] < cs[j] {
      assert row[..j] == row[..i] + [row[i]] + row[i + 1..j];
      SpanAppend(row[..i] + [row[i]], row[i + 1..j], gap);
      SpanAppend(row[..i], [row[i]], gap);
      SpanPositive(row[i + 1..j], gap);
      assert Span([row[i]], gap) == row[i].width + gap;
    }
  }

  // ── Where a dragged chip lands ─────────────────────────────────────────────

  function GoLeft(centers: seq<real>, target: nat, pointerX: real): (r: nat)
    requires target < |centers|
    ensures r <= target
  {
    if target > 0 && pointerX < centers[target - 1] then GoLeft(centers, target - 1, pointerX) else target
  }

  function GoRight(centers: seq<real>, target: nat, pointerX: real): (r: nat)
    requires target < |centers|
    ensures target <= r < |centers|
    decreases |centers| - target
  {
    if target < |centers| - 1 && pointerX > centers[target + 1] then GoRight(centers, target + 1, pointerX) else target
  }

  function Dropped(centers: seq<real>, current: nat, pointerX: real): nat
    requires current < |centers|
  {
    GoRight(centers, GoLeft(centers, current, pointerX), pointerX)
  }

  method DropIndex(centers: seq<real>, current: int, pointerX: real) returns (target: int)
    ensures !(0 <= current < |centers|) ==> target == current
    ensures 0 <= current < |centers| ==> target == Dropped(centers, current, pointerX)
  {
    if current < 0 || current >= |centers| { return current; }
    target := current;
    while target > 0
      invariant 0 <= target < |centers|
      invariant GoLeft(centers, target, pointerX) == GoLeft(centers, current, pointerX)
    {
      if pointerX >= centers[target - 1] { break; }
      target := target - 1;
    }
    while target < |centers| - 1
      invariant 0 <= target < |centers|
      invariant GoRight(centers, target, pointerX) == Dropped(centers, current, pointerX)
    {
      if pointerX <= centers[target + 1] { break; }
      target := target + 1;
    }
  }

  /** Between the target's neighbours, with every chip the pointer went past on the other side. */
  predicate Lands(centers: seq<real>, current: nat, pointerX: real, target: nat)
    requires current < |centers|
  {
    && target < |centers|
    && (target > 0 && target <= current ==> pointerX >= centers[target - 1])
    && (target < |centers| - 1 && target >= current ==> pointerX <= centers[target + 1])
    && (forall j :: target <= j < current ==> pointerX < centers[j])
    && (forall j :: current < j <= target ==> pointerX > centers[j])
  }

  lemma {:induction false} GoLeftLands(centers: seq<real>, target: nat, pointerX: real)
    requires target < |centers|
    ensures var r := GoLeft(centers, target, pointerX);
            (r > 0 ==> pointerX >= centers[r - 1]) && forall j :: r <= j < target ==> pointerX < centers[j]
  {
    if target > 0 && pointerX < centers[target - 1] { GoLeftLands(centers, target - 1, pointerX); }
  }

  lemma {:induction false} GoRightLands(centers: seq<real>, target: nat, pointerX: real)
    requires target < |centers|
    ensures var r := GoRight(centers, target, pointerX);
            && (r < |centers| - 1 ==> pointerX <= centers[r + 1])
            && forall j :: target < j <= r ==> pointerX > centers[j]
    decreases |centers| - target
  {
    if target < |centers| - 1 && pointerX > centers[target + 1] { GoRightLands(centers, target + 1, pointerX); }
  }

  lemma LandingIsUnique(centers: seq<real>, current: nat, pointerX: real, t: nat, u: nat)
    requires current < |centers| && Increasing(centers) && t < u < |centers|
    requires Lands(centers, current, pointerX, t)
    ensures !Lands(centers, current, pointerX, u)
  {
    if u <= current {
      assert pointerX < centers[u - 1];
    } else if t >= current {
      assert pointerX <= centers[t + 1];
    } else {
      assert pointerX < centers[t] < centers[u];
    }
  }

  /** For centres in order only one loop runs, and the index it gives is the only one that lands. */
  lemma DroppedIsTheLanding(centers: seq<real>, current: nat, pointerX: real, target: nat)
    requires current < |centers| && Increasing(centers)
    ensures target == Dropped(centers, current, pointerX) <==> Lands(centers, current, pointerX, target)
  {
    var l := GoLeft(centers, current, pointerX);
    var r := GoRight(centers, l, pointerX);
    GoLeftLands(centers, current, pointerX);
    GoRightLands(centers, l, pointerX);
    if l < current {
      assert pointerX < centers[l] < centers[l + 1];
      assert r == l;
    }
    assert Lands(centers, current, pointerX, r);
    if r < target < |centers| {
      LandingIsUnique(centers, current, pointerX, r, target);
    } else if target < r && Lands(centers, current, pointerX, target) {
      LandingIsUnique(centers, current, pointerX, target, r);
      assert false;
    }
  }

  // ── The row while it is dragged ────────────────────────────────────────────

  function Without(row: seq<Chip>, i: nat): seq<Chip>
    requires i < |row|
  {
    row[..i] + row[i + 1..]
  }

  /** The row after the chip at `from` is taken out and put back at `to`. */
  function Moved(row: seq<Chip>, from: nat, to: nat): (r: seq<Chip>)
    requires from < |row| && to < |row|
    ensures |r| == |row| && r[to] == row[from]
  {
    var rest := Without(row, from);
    rest[..to] + [row[from]] + rest[to..]
  }

  lemma MovedDrawable(row: seq<Chip>, gap: real, from: nat, to: nat)
    requires Drawable(row, gap) && from < |row| && to < |row|
    ensures Drawable(Moved(row, from, to), gap)
  {
    var m := Moved(row, from, to);
    forall i | 0 <= i < |m| ensures m[i].width > 0.0 {
      assert m[i] in Without(row, from) || m[i] == row[from];
      assert m[i] in row;
    }
  }

  /** Carried left, the chip pushes the ones it passed right and leaves the rest. */
  lemma MovedLeft(row: seq<Chip>, left: real, gap: real, from: nat, to: nat)
    requires Drawable(row, gap) && to < from < |row|
    ensures var m := Moved(row, from, to);
            && (to > 0 ==> Center(m, left, gap, to - 1) == Center(row, left, gap, to - 1))
            && Center(m, left, gap, to + 1) == Center(row, left, gap, to) + row[from].width + gap
  {
    var m := Moved(row, from, to);
    assert m[..to + 1] == row[..to] + [row[from]];
    assert m[to + 1] == row[to];
    SpanAppend(row[..to], [row[from]], gap);
    assert Span([row[from]], gap) == row[from].width + gap;
    if to > 0 { assert m[..to - 1] == row[..to - 1] && m[to - 1] == row[to - 1]; }
  }

  lemma MovedRight(row: seq<Chip>, left: real, gap: real, from: nat, to: nat)
    requires Drawable(row, gap) && from < to < |row|
    ensures var m := Moved(row, from, to);
            && (to < |row| - 1 ==> Center(m, left, gap, to + 1) == Center(row, left, gap, to + 1))
            && Center(m, left, gap, to - 1) == Center(row, left, gap, to) - row[from].width - gap
  {
    var m := Moved(row, from, to);
    SpanSwap(row[..from], [row[from]], row[from + 1..to], gap);
    assert row[..to] == row[..from] + [row[from]] + row[from + 1..to];
    assert m[..to - 1] == row[..from] + row[from + 1..to];
    assert m[to - 1] == row[to];
    assert Span([row[from]], gap) == row[from].width + gap;
    if to < |row| - 1 {
      SpanSwap(row[..from], [row[from]], row[from + 1..to + 1], gap);
      assert row[..to + 1] == row[..from] + [row[from]] + row[from + 1..to + 1];
      assert m[..to + 1] == row[..from] + row[from + 1..to + 1] + [row[from]];
      assert m[to + 1] == row[to + 1];
    }
  }

  lemma SpanSwap(a: seq<Chip>, b: seq<Chip>, c: seq<Chip>, gap: real)
    ensures Span(a + b + c, gap) == Span(a + c, gap) + Span(b, gap)
    ensures Span(a + b + c, gap) == Span(a + c + b, gap)
  {
    SpanAppend(a + b, c, gap);
    SpanAppend(a, b, gap);
    SpanAppend(a, c, gap);
    SpanAppend(a + c, b, gap);
  }

  /** A finger that stays put settles the row in one move: measured again, nothing moves. */
  lemma SettlesInOneMove(row: seq<Chip>, left: real, gap: real, current: nat, pointerX: real)
    requires Drawable(row, gap) && current < |row|
    ensures var target := Dropped(Centers(row, left, gap), current, pointerX);
            && target < |row|
            && Dropped(Centers(Moved(row, current, target), left, gap), target, pointerX) == target
  {
    var before := Centers(row, left, gap);
    CentersIncrease(row, left, gap);
    var target := Dropped(before, current, pointerX);
    DroppedIsTheLanding(before, current, pointerX, target);
    var after := Centers(Moved(row, current, target), left, gap);
    MovedDrawable(row, gap, current, target);
    CentersIncrease(Moved(row, current, target), left, gap);
    if target < current {
      MovedLeft(row, left, gap, current, target);
      assert pointerX < before[target] <= after[target + 1];
      assert target > 0 ==> pointerX >= before[target - 1] == after[target - 1];
    } else if target > current {
      MovedRight(row, left, gap, current, target);
      assert pointerX > before[target] >= after[target - 1];
      assert target < |after| - 1 ==> pointerX <= before[target + 1] == after[target + 1];
    } else {
      assert Moved(row, current, target) == row;
    }
    assert Lands(after, target, pointerX, target);
    DroppedIsTheLanding(after, target, pointerX, target);
  }

  /** After that, a finger that only goes right never moves the chip left, nor the other way round. */
  lemma NeverBackwards(row: seq<Chip>, left: real, gap: real, current: nat, pointerX: real, nextX: real)
    requires Drawable(row, gap) && current < |row|
    requires Dropped(Centers(row, left, gap), current, pointerX) == current
    ensures nextX >= pointerX ==> Dropped(Centers(row, left, gap), current, nextX) >= current
    ensures nextX <= pointerX ==> Dropped(Centers(row, left, gap), current, nextX) <= current
  {
    var cs := Centers(row, left, gap);
    CentersIncrease(row, left, gap);
    DroppedIsTheLanding(cs, current, pointerX, current);
    DroppedIsTheLanding(cs, current, nextX, Dropped(cs, current, nextX));
  }
}
