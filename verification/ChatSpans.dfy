/** That the marks in a message can be read in one way only. */
module ChatSpans {
  import opened JsText
  import opened ChatInline

  // ── Where a mark could open ────────────────────────────────────────────────

  /** Well-marked code or bold starts here. */
  ghost predicate CanOpen(s: Str, q: nat) {
    exists piece: Piece :: !piece.Plain? && Fits(piece, s, q)
  }

  /** Between two backticks. */
  predicate InRun(s: Str, q: nat) {
    0 < q < |s| && s[q - 1] == TICK && s[q] == TICK
  }

  /**
   * Text that is rightly left plain: nothing could open in it, except in the middle of a
   * run of backticks, and it does not cut such a run off at its end.
   */
  ghost predicate StaysPlain(s: Str, o: nat, e: nat) {
    && o < e <= |s| && !InRun(s, e)
    && forall q :: o <= q < e && (q == o || !InRun(s, q)) ==> !CanOpen(s, q)
  }

  /** From a place on: pieces that fit one after another, plain ones apart and rightly plain. */
  ghost predicate Divides(pieces: seq<Piece>, s: Str, i: nat)
    decreases |pieces|
  {
    if pieces == [] then i == |s|
    else
      && Fits(pieces[0], s, i)
      && (pieces[0].Plain? ==>
            StaysPlain(s, i, i + |pieces[0].raw|) && (|pieces| > 1 ==> !pieces[1].Plain?))
      && Divides(pieces[1..], s, i + |pieces[0].raw|)
  }

  lemma Thirds(mark: Str, inner: Str)
    ensures var raw, m, n := mark + inner + mark, |mark|, |inner|;
            raw[0..m] == mark && raw[m..m + n] == inner && raw[m + n..m + n + m] == mark
  {
  }

  lemma PartAt(s: Str, i: nat, raw: Str, p: nat, part: Str)
    requires i + |raw| <= |s| && s[i..i + |raw|] == raw && p + |part| <= |raw| && raw[p..p + |part|] == part
    ensures s[i + p..i + p + |part|] == part && At(s, part, i + p)
  {
    SliceOfSlice(s, i, i + |raw|, p, p + |part|);
    AtIs(s, part, i + p);
  }

  lemma ThirdsAt(raw: Str, mark: Str, inner: Str, s: Str, i: nat)
    requires |raw| == |mark| + |inner| + |mark| && i + |raw| <= |s| && s[i..i + |raw|] == raw
    requires raw[0..|mark|] == mark && raw[|mark|..|mark| + |inner|] == inner
    requires raw[|mark| + |inner|..|mark| + |inner| + |mark|] == mark
    ensures var close := i + |mark| + |inner|;
            && close + |mark| <= |s| && s[i + |mark|..close] == inner
            && At(s, mark, i) && At(s, mark, close)
  {
    PartAt(s, i, raw, 0, mark);
    PartAt(s, i, raw, |mark|, inner);
    PartAt(s, i, raw, |mark| + |inner|, mark);
  }

  lemma RawOfMarked(raw: Str, mark: Str, inner: Str, s: Str, i: nat)
    requires raw == mark + inner + mark && i + |raw| <= |s| && s[i..i + |raw|] == raw
    ensures var close := i + |mark| + |inner|;
            && close + |mark| <= |s| && s[i + |mark|..close] == inner
            && At(s, mark, i) && At(s, mark, close)
  {
    Thirds(mark, inner);
    ThirdsAt(raw, mark, inner, s, i);
  }

  /** The first mark after an opening one is the one that closes the piece. */
  lemma ClosesHere(raw: Str, mark: Str, inner: Str, s: Str, i: nat)
    requires Surrounds(raw, mark, inner) && i + |raw| <= |s| && s[i..i + |raw|] == raw
    ensures i + |mark| <= |s| && Find(s, mark, i + |mark|) == i + |mark| + |inner|
  {
    var from, close := i + |mark|, i + |mark| + |inner|;
    RawOfMarked(raw, mark, inner, s, i);
    FoundFirst(s, mark, from, close);
    var found := Find(s, mark, from);
    if found < close {
      FoundAt(s, mark, from);
      AtInside(s, mark, from, close, found - from);
    }
  }

  lemma {:induction false} RunIs(s: Str, i: nat, k: nat)
    requires i + k <= |s| && (forall j :: i <= j < i + k ==> s[j] == TICK) && (i + k == |s| || s[i + k] != TICK)
    ensures Run(s, i) == k
    decreases k
  {
    if k > 0 {
      RunIs(s, i + 1, k - 1);
    }
  }

  /** A mark that could open is read, and read as that. */
  lemma OpensAsRead(s: Str, i: nat, piece: Piece)
    requires Fits(piece, s, i) && !piece.Plain?
    ensures i < |s| && PieceAt(s, i) == piece
  {
    if piece.Coded? {
      CodeOpens(s, i, piece);
    } else {
      StrongOpens(s, i, piece);
    }
  }

  lemma CodeOpens(s: Str, i: nat, piece: Piece)
    requires Fits(piece, s, i) && piece.Coded?
    ensures i < |s| && PieceAt(s, i) == piece
  {
    var mark, inner := piece.mark, piece.inner;
    RawOfMarked(piece.raw, mark, inner, s, i);
    ClosesHere(piece.raw, mark, inner, s, i);
    AtIs(s, mark, i);
    var k := |mark|;
    assert s[i + k] == s[i + k..i + k + |inner|][0];
    forall j | i <= j < i + k ensures s[j] == TICK { assert s[j] == s[i..i + k][j - i] == mark[j - i]; }
    RunIs(s, i, k);
    CodeHere(s, i, mark, i + k + |inner|);
  }

  lemma StrongOpens(s: Str, i: nat, piece: Piece)
    requires Fits(piece, s, i) && piece.Starred?
    ensures i < |s| && PieceAt(s, i) == piece
  {
    var inner := piece.inner;
    RawOfMarked(piece.raw, STARS, inner, s, i);
    ClosesHere(piece.raw, STARS, inner, s, i);
    AtIs(s, STARS, i);
    assert s[i + 2] == s[i + 2..i + 2 + |inner|][0] && s[i] == s[i..i + 2][0];
    StrongHere(s, i, i + 2 + |inner|);
  }

  lemma PlainWhereClosed(s: Str, q: nat)
    requires q < |s|
    ensures CanOpen(s, q) <==> !PieceAt(s, q).Plain?
  {
    PieceFits(s, q);
    if CanOpen(s, q) {
      var piece: Piece :| !piece.Plain? && Fits(piece, s, q);
      OpensAsRead(s, q, piece);
    }
  }

  // ── What the reader steps over ─────────────────────────────────────────────

  /** A plain step is a whole run of backticks or one other unit, so it ends outside any run. */
  lemma PlainStep(s: Str, i: nat, len: nat)
    requires i < |s| && PieceAt(s, i).Plain? && len == |PieceAt(s, i).raw|
    ensures 0 < len && i + len <= |s| && !InRun(s, i + len)
    ensures forall q :: i < q < i + len ==> InRun(s, q)
  {
    PieceFits(s, i);
    if s[i] == TICK {
      PlainTicks(s, i, len);
    }
  }

  lemma PlainTicks(s: Str, i: nat, len: nat)
    requires i < |s| && s[i] == TICK && PieceAt(s, i).Plain? && len == |PieceAt(s, i).raw|
    ensures len == Run(s, i)
  {
    CodeIsPlain(s, i, Ticks(Run(s, i)));
  }

  lemma CodeIsPlain(s: Str, i: nat, mark: Str)
    requires i + |mark| <= |s|
    ensures CodeAt(s, i, mark).Plain? ==> CodeAt(s, i, mark) == Plain(mark)
  {
    CodeHere(s, i, mark, Find(s, mark, i + |mark|));
  }

  function Continue(r: Reading, steps: seq<Piece>): Reading
    decreases |steps|
  {
    if steps == [] then r else Continue(Read(r, steps[0]), steps[1..])
  }

  lemma {:induction false} ContinueLast(r: Reading, steps: seq<Piece>, last: Piece)
    ensures Continue(r, steps + [last]) == Read(Continue(r, steps), last)
    decreases |steps|
  {
    if steps == [] {
      assert steps + [last] == [last] && [last][1..] == [];
    } else {
      assert (steps + [last])[0] == steps[0] && (steps + [last])[1..] == steps[1..] + [last];
      ContinueLast(Read(r, steps[0]), steps[1..], last);
    }
  }

  lemma {:induction false} ReadAllContinues(steps: seq<Piece>)
    ensures ReadAll(steps) == Continue(Reading([], []), steps)
  {
    if steps != [] {
      var rest, last := steps[..|steps| - 1], steps[|steps| - 1];
      assert steps == rest + [last];
      ReadAllContinues(rest);
      ContinueLast(Reading([], []), rest, last);
    }
  }

  lemma ContinueStep(r: Reading, s: Str, i: nat, piece: Piece)
    requires i < |s| && piece == PieceAt(s, i)
    ensures 0 < |piece.raw| && i + |piece.raw| <= |s|
    ensures Continue(r, Steps(s, i)) == Continue(Read(r, piece), Steps(s, i + |piece.raw|))
  {
    PieceIsFirst(s, i);
    var rest := Steps(s, i + |piece.raw|);
    assert ([piece] + rest)[1..] == rest;
  }

  lemma RestStaysPlain(s: Str, o: nat, m: nat, e: nat)
    requires StaysPlain(s, o, e) && o < m < e && !InRun(s, m)
    ensures StaysPlain(s, m, e)
  {
  }

  lemma Gathered(text: Str, s: Str, i: nat, m: nat, e: nat)
    requires i <= m <= e <= |s|
    ensures text + s[i..e] == (text + s[i..m]) + s[m..e]
  {
    assert s[i..e] == s[i..m] + s[m..e];
  }

  /** The first step into text that stays plain. */
  lemma PlainPiece(s: Str, i: nat, e: nat) returns (m: nat)
    requires StaysPlain(s, i, e)
    ensures i < m <= e && (m < e ==> StaysPlain(s, m, e)) && PieceAt(s, i) == Plain(s[i..m])
  {
    m := i + |PieceAt(s, i).raw|;
    PlainWhereClosed(s, i);
    PlainStep(s, i, m - i);
    PieceFits(s, i);
    if m < e { RestStaysPlain(s, i, m, e); }
  }

  lemma PlainFirst(r: Reading, s: Str, i: nat, e: nat) returns (m: nat)
    requires StaysPlain(s, i, e)
    ensures i < m <= e && (m < e ==> StaysPlain(s, m, e))
    ensures Continue(r, Steps(s, i)) == Continue(Reading(r.pieces, r.text + s[i..m]), Steps(s, m))
  {
    m := PlainPiece(s, i, e);
    ContinueStep(r, s, i, Plain(s[i..m]));
  }

  /** Over text that stays plain the reader only gathers it. */
  lemma {:induction false} PlainStretch(r: Reading, s: Str, i: nat, e: nat, end: Reading)
    requires StaysPlain(s, i, e) && end == Continue(r, Steps(s, i))
    ensures end == Continue(Reading(r.pieces, r.text + s[i..e]), Steps(s, e))
    decreases e - i
  {
    var m := PlainFirst(r, s, i, e);
    if m < e {
      PlainStretch(Reading(r.pieces, r.text + s[i..m]), s, m, e, end);
      Gathered(r.text, s, i, m, e);
    }
  }

  // ── One reading ────────────────────────────────────────────────────────────

  lemma Regroup(a: seq<Piece>, pieces: seq<Piece>)
    requires pieces != []
    ensures (a + [pieces[0]]) + pieces[1..] == a + pieces
  {
  }

  lemma NothingLeft(r: Reading, s: Str, end: Reading)
    requires end == Continue(r, Steps(s, |s|))
    ensures end == r
  {
  }

  /** The reader may go on with these pieces: two plain ones do not meet. */
  predicate GoesOn(r: Reading, pieces: seq<Piece>) {
    r.text != [] && pieces != [] ==> !pieces[0].Plain?
  }

  lemma PastFirst(r: Reading, pieces: seq<Piece>, s: Str, i: nat, end: Reading) returns (r': Reading, next: nat)
    requires Divides(pieces, s, i) && i <= |s| && end == Continue(r, Steps(s, i)) && pieces != [] && GoesOn(r, pieces)
    ensures next <= |s| && Divides(pieces[1..], s, next) && end == Continue(r', Steps(s, next)) && GoesOn(r', pieces[1..])
    ensures Pushed(r') == Pushed(r) + [pieces[0]]
  {
    r' := NextRead(r, pieces[0], s, i, end);
    next := i + |pieces[0].raw|;
  }

  lemma {:induction false} DividesIsRead(r: Reading, pieces: seq<Piece>, s: Str, i: nat, end: Reading)
    requires Divides(pieces, s, i) && i <= |s| && end == Continue(r, Steps(s, i)) && GoesOn(r, pieces)
    ensures Pushed(end) == Pushed(r) + pieces
    decreases |pieces|
  {
    if pieces == [] {
      NothingLeft(r, s, end);
      assert Pushed(r) + [] == Pushed(r);
    } else {
      var r', next := PastFirst(r, pieces, s, i, end);
      DividesIsRead(r', pieces[1..], s, next, end);
      Regroup(Pushed(r), pieces);
    }
  }

  lemma NextRead(r: Reading, piece: Piece, s: Str, i: nat, end: Reading) returns (r': Reading)
    requires i <= |s| && end == Continue(r, Steps(s, i)) && Fits(piece, s, i)
    requires piece.Plain? ==> StaysPlain(s, i, i + |piece.raw|) && r.text == []
    ensures i + |piece.raw| <= |s| && end == Continue(r', Steps(s, i + |piece.raw|))
    ensures Pushed(r') == Pushed(r) + [piece] && (!piece.Plain? ==> r'.text == [])
  {
    var next := i + |piece.raw|;
    if piece.Plain? {
      r' := Reading(r.pieces, piece.raw);
      PlainStretch(r, s, i, next, end);
      assert r.text + s[i..next] == piece.raw;
    } else {
      r' := Reading(Pushed(r) + [piece], []);
      OpensAsRead(s, i, piece);
      ContinueStep(r, s, i, piece);
    }
  }

  lemma StepStaysPlain(s: Str, i: nat, m: nat)
    requires i < m <= |s| && PieceAt(s, i) == Plain(s[i..m])
    ensures StaysPlain(s, i, m)
  {
    PlainWhereClosed(s, i);
    PlainStep(s, i, m - i);
  }

  lemma StretchesJoin(s: Str, i: nat, m: nat, e: nat)
    requires StaysPlain(s, i, m) && StaysPlain(s, m, e)
    ensures StaysPlain(s, i, e)
  {
  }

  lemma DividesMore(piece: Piece, rest: seq<Piece>, s: Str, i: nat)
    requires Fits(piece, s, i) && Divides(rest, s, i + |piece.raw|)
    requires piece.Plain? ==> StaysPlain(s, i, i + |piece.raw|) && (rest != [] ==> !rest[0].Plain?)
    ensures Divides([piece] + rest, s, i)
  {
    assert ([piece] + rest)[1..] == rest;
  }

  /** A plain step joined to the plain piece that follows it. */
  lemma JoinPlain(s: Str, i: nat, m: nat, rest: seq<Piece>)
    requires i < m <= |s| && StaysPlain(s, i, m) && Divides(rest, s, m) && rest != [] && rest[0].Plain?
    ensures m + |rest[0].raw| <= |s| && Divides([Plain(s[i..m + |rest[0].raw|])] + rest[1..], s, i)
  {
    var e := m + |rest[0].raw|;
    StretchesJoin(s, i, m, e);
    DividesMore(Plain(s[i..e]), rest[1..], s, i);
  }

  lemma {:induction false} SomeDivides(s: Str, i: nat) returns (pieces: seq<Piece>)
    requires i <= |s|
    ensures Divides(pieces, s, i)
    decreases |s| - i
  {
    if i == |s| {
      pieces := [];
    } else {
      var piece := PieceAt(s, i);
      PieceFits(s, i);
      var rest := SomeDivides(s, i + |piece.raw|);
      var next := i + |piece.raw|;
      if piece.Plain? { StepStaysPlain(s, i, next); }
      if piece.Plain? && rest != [] && rest[0].Plain? {
        JoinPlain(s, i, next, rest);
        pieces := [Plain(s[i..next + |rest[0].raw|])] + rest[1..];
      } else {
        DividesMore(piece, rest, s, i);
        pieces := [piece] + rest;
      }
    }
  }

  lemma DivisionIsRead(s: Str, pieces: seq<Piece>)
    requires Divides(pieces, s, 0)
    ensures pieces == Pieces(s)
  {
    var start := Reading([], []);
    ReadAllContinues(Steps(s, 0));
    DividesIsRead(start, pieces, s, 0, Continue(start, Steps(s, 0)));
    assert Pushed(start) + pieces == pieces;
  }

  /**
   * Pieces that make up the message, with no mark left plain that could have opened, are
   * exactly the ones it is read in: there is one such division, and it is this.
   */
  lemma OnlyOneDivision(s: Str, pieces: seq<Piece>)
    ensures Divides(pieces, s, 0) <==> pieces == Pieces(s)
  {
    var some := SomeDivides(s, 0);
    DivisionIsRead(s, some);
    if Divides(pieces, s, 0) {
      DivisionIsRead(s, pieces);
    }
  }
}
