/** Inline code and bold in an agent's message. */
module ChatInline {
  import opened JsText

  const STAR: Unit := 0x2A

  const STARS: Str := [STAR, STAR]

  datatype Span = Text(text: Str) | Code(text: Str) | Strong(text: Str)

  function Ticks(k: nat): (r: Str)
    ensures |r| == k && forall i :: 0 <= i < k ==> r[i] == TICK
  {
    if k == 0 then [] else Ticks(k - 1) + [TICK]
  }

  /** `s.startsWith(mark, p)` */
  predicate At(s: Str, mark: Str, p: nat)
    decreases |mark|
  {
    if mark == [] then p <= |s| else p < |s| && s[p] == mark[0] && At(s, mark[1..], p + 1)
  }

  lemma {:induction false} AtIs(s: Str, mark: Str, p: nat)
    ensures At(s, mark, p) <==> p + |mark| <= |s| && s[p..p + |mark|] == mark
    decreases |mark|
  {
    if mark != [] && p < |s| {
      AtIs(s, mark[1..], p + 1);
      if p + |mark| <= |s| {
        assert s[p..p + |mark|] == [s[p]] + s[p + 1..p + |mark|];
        assert mark == [mark[0]] + mark[1..];
      }
    }
  }

  /** The mark does not stand anywhere before the end of the text it closes. */
  predicate ClosedOnce(inner: Str, mark: Str) {
    forall p :: 0 <= p < |inner| ==> !At(inner + mark, mark, p)
  }

  /** `s.indexOf(mark, from)` */
  function Find(s: Str, mark: Str, from: nat): (p: int)
    requires from <= |s|
    ensures p == -1 || from <= p <= |s|
    decreases |s| - from
  {
    if At(s, mark, from) then from else if from == |s| then -1 else Find(s, mark, from + 1)
  }

  lemma {:induction false} FoundAt(s: Str, mark: Str, from: nat)
    requires from <= |s| && Find(s, mark, from) >= 0
    ensures At(s, mark, Find(s, mark, from)) && Find(s, mark, from) + |mark| <= |s|
    decreases |s| - from
  {
    if At(s, mark, from) {
      AtIs(s, mark, from);
    } else {
      FoundAt(s, mark, from + 1);
    }
  }

  lemma {:induction false} FoundFirst(s: Str, mark: Str, from: nat, q: nat)
    requires from <= q <= |s| && At(s, mark, q)
    ensures 0 <= Find(s, mark, from) <= q
    decreases |s| - from
  {
    if !At(s, mark, from) {
      FoundFirst(s, mark, from + 1, q);
    }
  }

  /** How many backticks stand at a place. */
  function Run(s: Str, i: nat): (k: nat)
    requires i <= |s|
    ensures i + k <= |s| && forall j :: i <= j < i + k ==> s[j] == TICK
    ensures i + k == |s| || s[i + k] != TICK
    decreases |s| - i
  {
    if i < |s| && s[i] == TICK then 1 + Run(s, i + 1) else 0
  }

  // ── What is read at one place ──────────────────────────────────────────────

  /** A stretch of the message as it stands, with what its marks surround. */
  datatype Piece = Plain(raw: Str) | Coded(raw: Str, mark: Str, inner: Str) | Starred(raw: Str, inner: Str)

  /** Code without its padding; only padding shows as one space. */
  function CodeSpan(inner: Str): Span {
    Code(if Trim(inner) != [] then Trim(inner) else [SPACE])
  }

  function SpanOf(piece: Piece): Span {
    match piece
    case Plain(raw) => Text(raw)
    case Coded(_, _, inner) => CodeSpan(inner)
    case Starred(_, inner) => Strong(inner)
  }

  /** The marks surround something: it starts with what they may stand before and ends at the first closing mark. */
  predicate Surrounds(raw: Str, mark: Str, inner: Str) {
    raw == mark + inner + mark && inner != [] && ClosedOnce(inner, mark)
  }

  predicate Good(piece: Piece) {
    match piece
    case Plain(raw) => raw != []
    case Coded(raw, mark, inner) => mark == Ticks(|mark|) != [] && Surrounds(raw, mark, inner) && inner[0] != TICK
    case Starred(raw, inner) => Surrounds(raw, STARS, inner) && !IsSpace(inner[0])
  }

  function CodeAt(s: Str, i: nat, mark: Str): Piece
    requires i + |mark| <= |s|
  {
    var from := i + |mark|;
    var close := Find(s, mark, from);
    if close > from then
      FoundAt(s, mark, from);
      Coded(s[i..close + |mark|], mark, s[from..close])
    else Plain(mark)
  }

  function StarsAt(s: Str, i: nat): Piece
    requires i < |s|
  {
    if !At(s, STARS, i) then Plain([s[i]])
    else
      AtIs(s, STARS, i);
      var close := Find(s, STARS, i + 2);
      if close > i + 2 && !IsSpace(s[i + 2]) then
        FoundAt(s, STARS, i + 2);
        Starred(s[i..close + 2], s[i + 2..close])
      else Plain([s[i]])
  }

  function PieceAt(s: Str, i: nat): Piece
    requires i < |s|
  {
    if s[i] == TICK then CodeAt(s, i, Ticks(Run(s, i))) else StarsAt(s, i)
  }

  lemma SliceOfSlice(s: Str, from: nat, to: nat, p: nat, q: nat)
    requires from <= to <= |s| && p <= q <= to - from
    ensures s[from..to][p..q] == s[from + p..from + q]
  {
    var a, b := s[from..to][p..q], s[from + p..from + q];
    assert |a| == |b|;
    forall j | 0 <= j < |a| ensures a[j] == b[j] {
      assert a[j] == s[from..to][p + j];
    }
  }

  /** In the text a mark closes, the mark stands where it stands in the message. */
  lemma AtInside(s: Str, mark: Str, from: nat, close: nat, p: nat)
    requires from <= close && close + |mark| <= |s| && At(s, mark, close) && p <= close - from
    ensures At(s[from..close] + mark, mark, p) <==> At(s, mark, from + p)
  {
    var t := s[from..close] + mark;
    AtIs(s, mark, close);
    assert t == s[from..close + |mark|];
    AtIs(t, mark, p);
    AtIs(s, mark, from + p);
    SliceOfSlice(s, from, close + |mark|, p, p + |mark|);
  }

  lemma FirstClose(s: Str, mark: Str, from: nat, close: nat)
    requires from <= close <= |s| && close == Find(s, mark, from)
    ensures close + |mark| <= |s| && ClosedOnce(s[from..close], mark)
  {
    FoundAt(s, mark, from);
    var inner := s[from..close];
    forall p | 0 <= p < |inner| ensures !At(inner + mark, mark, p) {
      AtInside(s, mark, from, close, p);
      if At(s, mark, from + p) { FoundFirst(s, mark, from, from + p); }
    }
  }

  lemma Marked(s: Str, mark: Str, i: nat, close: nat)
    requires i + |mark| <= close && At(s, mark, i) && At(s, mark, close)
    ensures close + |mark| <= |s| && s[i..close + |mark|] == mark + s[i + |mark|..close] + mark
  {
    AtIs(s, mark, i);
    AtIs(s, mark, close);
    assert s[i..close + |mark|] == s[i..i + |mark|] + s[i + |mark|..close] + s[close..close + |mark|];
  }

  lemma RunAt(s: Str, i: nat, k: nat)
    requires i + k <= |s| && k == Run(s, i)
    ensures s[i..i + k] == Ticks(k) && At(s, Ticks(k), i)
  {
    AtIs(s, Ticks(k), i);
  }

  predicate Fits(piece: Piece, s: Str, i: nat) {
    Good(piece) && i + |piece.raw| <= |s| && s[i..i + |piece.raw|] == piece.raw
  }

  lemma SurroundedAt(s: Str, mark: Str, i: nat, close: int)
    requires i + |mark| <= |s| && At(s, mark, i) && close == Find(s, mark, i + |mark|) && close > i + |mark|
    ensures close + |mark| <= |s| && Surrounds(s[i..close + |mark|], mark, s[i + |mark|..close])
  {
    FoundAt(s, mark, i + |mark|);
    Marked(s, mark, i, close);
    FirstClose(s, mark, i + |mark|, close);
  }

  lemma CodeFits(s: Str, i: nat, mark: Str)
    requires i + |mark| <= |s| && mark == Ticks(|mark|) != [] && At(s, mark, i)
    requires i + |mark| == |s| || s[i + |mark|] != TICK
    ensures Fits(CodeAt(s, i, mark), s, i)
  {
    var close := Find(s, mark, i + |mark|);
    AtIs(s, mark, i);
    if close > i + |mark| {
      SurroundedAt(s, mark, i, close);
    }
  }

  lemma StarsFit(s: Str, i: nat)
    requires i < |s|
    ensures Fits(StarsAt(s, i), s, i)
  {
    AtIs(s, STARS, i);
    if At(s, STARS, i) {
      var close := Find(s, STARS, i + 2);
      if close > i + 2 && !IsSpace(s[i + 2]) {
        SurroundedAt(s, STARS, i, close);
      }
    }
  }

  /** What is read at a place is well marked, and is what the message has there. */
  lemma PieceFits(s: Str, i: nat)
    requires i < |s|
    ensures Fits(PieceAt(s, i), s, i) && |PieceAt(s, i).raw| > 0
  {
    if s[i] == TICK {
      RunAt(s, i, Run(s, i));
      CodeFits(s, i, Ticks(Run(s, i)));
    } else {
      StarsFit(s, i);
    }
  }

  // ── Reading on ─────────────────────────────────────────────────────────────

  /** The pieces so far, and text that is not one yet. */
  datatype Reading = Reading(pieces: seq<Piece>, text: Str)

  function Pushed(r: Reading): seq<Piece> {
    if r.text == [] then r.pieces else r.pieces + [Plain(r.text)]
  }

  function Read(r: Reading, piece: Piece): Reading {
    if piece.Plain? then Reading(r.pieces, r.text + piece.raw) else Reading(Pushed(r) + [piece], [])
  }

  /** The pieces the message is read in, place after place. */
  function Steps(s: Str, i: nat): seq<Piece>
    requires i <= |s|
    decreases |s| - i
  {
    if i == |s| then []
    else
      PieceFits(s, i);
      [PieceAt(s, i)] + Steps(s, i + |PieceAt(s, i).raw|)
  }

  function ReadAll(steps: seq<Piece>): Reading {
    if steps == [] then Reading([], []) else Read(ReadAll(steps[..|steps| - 1]), steps[|steps| - 1])
  }

  /** The pieces of a message, plain ones joined. */
  function Pieces(s: Str): seq<Piece> {
    Pushed(ReadAll(Steps(s, 0)))
  }

  function SpansOf(pieces: seq<Piece>): seq<Span> {
    if pieces == [] then [] else SpansOf(pieces[..|pieces| - 1]) + [SpanOf(pieces[|pieces| - 1])]
  }

  /** The spans of a message. */
  function Spans(s: Str): seq<Span> {
    SpansOf(Pieces(s))
  }

  lemma SpansGrow(pieces: seq<Piece>, piece: Piece)
    ensures SpansOf(pieces + [piece]) == SpansOf(pieces) + [SpanOf(piece)]
  {
    assert (pieces + [piece])[..|pieces|] == pieces;
  }

  /** The piece read at a place is the first step from there. */
  predicate FirstStep(s: Str, i: nat, piece: Piece) {
    && i < |s| && 0 < |piece.raw| && i + |piece.raw| <= |s|
    && Steps(s, i) == [piece] + Steps(s, i + |piece.raw|)
  }

  lemma PieceIsFirst(s: Str, i: nat)
    requires i < |s|
    ensures FirstStep(s, i, PieceAt(s, i))
  {
    PieceFits(s, i);
  }

  lemma StepTaken(steps: seq<Piece>, piece: Piece, rest: seq<Piece>)
    ensures (steps + [piece]) + rest == steps + ([piece] + rest)
    ensures ReadAll(steps + [piece]) == Read(ReadAll(steps), piece)
  {
    assert (steps + [piece])[..|steps|] == steps;
  }

  method ReadInline(source: Str) returns (spans: seq<Span>)
    ensures spans == Spans(source)
  {
    spans := [];
    var text: Str := [];
    var index := 0;
    ghost var steps, pieces := [], [];
    while index < |source|
      invariant index <= |source| && steps + Steps(source, index) == Steps(source, 0)
      invariant ReadAll(steps) == Reading(pieces, text) && SpansOf(pieces) == spans
      decreases |source| - index
    {
      var piece := ReadPiece(source, index);
      StepTaken(steps, piece, Steps(source, index + |piece.raw|));
      steps := steps + [piece];
      match piece {
        case Plain(raw) => text := text + raw;
        case Coded(_, _, inner) =>
          pieces := PushPiece(pieces, text, piece);
          spans, text := Push(spans, text) + [CodeSpan(inner)], [];
        case Starred(_, inner) =>
          pieces := PushPiece(pieces, text, piece);
          spans, text := Push(spans, text) + [Strong(inner)], [];
      }
      index := index + |piece.raw|;
    }
    assert steps == Steps(source, 0);
    if text != [] { SpansGrow(pieces, Plain(text)); }
    spans := Push(spans, text);
  }

  method ReadPiece(source: Str, index: nat) returns (piece: Piece)
    requires index < |source|
    ensures FirstStep(source, index, piece)
  {
    piece := PieceHere(source, index);
    PieceIsFirst(source, index);
  }

  /** What a run of backticks reads as, from where the next one like it stands. */
  lemma CodeHere(s: Str, i: nat, mark: Str, close: int)
    requires i + |mark| <= |s| && close == Find(s, mark, i + |mark|)
    ensures close > i + |mark| ==>
              close + |mark| <= |s| && CodeAt(s, i, mark) == Coded(s[i..close + |mark|], mark, s[i + |mark|..close])
    ensures close <= i + |mark| ==> CodeAt(s, i, mark) == Plain(mark)
  {
    if close > i + |mark| { FoundAt(s, mark, i + |mark|); }
  }

  /** The same of a pair of stars. */
  lemma StrongHere(s: Str, i: nat, close: int)
    requires i + 2 <= |s| && At(s, STARS, i) && close == Find(s, STARS, i + 2)
    ensures close > i + 2 && !IsSpace(s[i + 2]) ==>
              close + 2 <= |s| && StarsAt(s, i) == Starred(s[i..close + 2], s[i + 2..close])
    ensures close <= i + 2 || IsSpace(s[i + 2]) ==> StarsAt(s, i) == Plain([s[i]])
  {
    if close > i + 2 { FoundAt(s, STARS, i + 2); }
  }

  method PieceHere(source: Str, index: nat) returns (piece: Piece)
    requires index < |source|
    ensures piece == PieceAt(source, index)
  {
    if source[index] == TICK {
      piece := CodeOrTicks(source, index);
    } else if At(source, STARS, index) {
      piece := StrongOrStar(source, index);
    } else {
      piece := Plain([source[index]]);
    }
  }

  method CodeOrTicks(source: Str, index: nat) returns (piece: Piece)
    requires index < |source| && source[index] == TICK
    ensures piece == CodeAt(source, index, Ticks(Run(source, index)))
  {
    var ticks := CountTicks(source, index);
    var fence := Ticks(ticks);
    var close := Find(source, fence, index + ticks);
    CodeHere(source, index, fence, close);
    if close > index + ticks {
      return Coded(source[index..close + ticks], fence, source[index + ticks..close]);
    }
    return Plain(fence);
  }

  method StrongOrStar(source: Str, index: nat) returns (piece: Piece)
    requires index < |source| && At(source, STARS, index)
    ensures piece == StarsAt(source, index)
  {
    AtIs(source, STARS, index);
    var close := Find(source, STARS, index + 2);
    StrongHere(source, index, close);
    if close > index + 2 && !IsSpace(source[index + 2]) {
      return Starred(source[index..close + 2], source[index + 2..close]);
    }
    return Plain([source[index]]);
  }

  /** The pending text becomes a span, if there is any. */
  function Push(spans: seq<Span>, text: Str): seq<Span> {
    if text == [] then spans else spans + [Text(text)]
  }

  lemma PushPiece(pieces: seq<Piece>, text: Str, piece: Piece) returns (pieces': seq<Piece>)
    ensures pieces' == Pushed(Reading(pieces, text)) + [piece]
    ensures SpansOf(pieces') == Push(SpansOf(pieces), text) + [SpanOf(piece)]
  {
    var pushed := Pushed(Reading(pieces, text));
    if text != [] { SpansGrow(pieces, Plain(text)); }
    SpansGrow(pushed, piece);
    pieces' := pushed + [piece];
  }

  method CountTicks(source: Str, index: nat) returns (ticks: nat)
    requires index < |source| && source[index] == TICK
    ensures ticks == Run(source, index) >= 1
  {
    ticks := 1;
    while index + ticks < |source| && source[index + ticks] == TICK
      invariant index + ticks <= |source| && ticks + Run(source, index + ticks) == Run(source, index)
      decreases |source| - ticks
    {
      ticks := ticks + 1;
    }
  }

  // ── Nothing is lost ────────────────────────────────────────────────────────

  function RawAll(pieces: seq<Piece>): Str {
    if pieces == [] then [] else RawAll(pieces[..|pieces| - 1]) + pieces[|pieces| - 1].raw
  }

  predicate AllGood(pieces: seq<Piece>) {
    forall i :: 0 <= i < |pieces| ==> Good(pieces[i])
  }

  /** No two stretches of plain text side by side. */
  predicate Apart(pieces: seq<Piece>) {
    forall i :: 0 < i < |pieces| ==> !(pieces[i - 1].Plain? && pieces[i].Plain?)
  }

  predicate EndsMarked(pieces: seq<Piece>) {
    pieces != [] ==> !pieces[|pieces| - 1].Plain?
  }

  /** The pieces tile the text: well marked, no plain ones side by side, and the text itself put together. */
  predicate Tiles(pieces: seq<Piece>, s: Str) {
    AllGood(pieces) && Apart(pieces) && RawAll(pieces) == s
  }

  /** The pieces read so far, with the text that is not one yet, are the message up to here. */
  predicate Reads(r: Reading, s: Str) {
    AllGood(r.pieces) && Apart(r.pieces) && EndsMarked(r.pieces) && RawAll(r.pieces) + r.text == s
  }

  lemma RawGrows(pieces: seq<Piece>, piece: Piece)
    ensures RawAll(pieces + [piece]) == RawAll(pieces) + piece.raw
  {
    assert (pieces + [piece])[..|pieces|] == pieces;
  }

  lemma PushTiles(r: Reading, s: Str)
    requires Reads(r, s)
    ensures Tiles(Pushed(r), s)
  {
    if r.text != [] {
      RawGrows(r.pieces, Plain(r.text));
    }
  }

  lemma MarkedGrows(pieces: seq<Piece>, piece: Piece)
    requires AllGood(pieces) && Apart(pieces) && Good(piece) && !piece.Plain?
    ensures AllGood(pieces + [piece]) && Apart(pieces + [piece]) && EndsMarked(pieces + [piece])
  {
  }

  lemma PlainReads(r: Reading, s: Str, raw: Str)
    requires Reads(r, s)
    ensures Reads(Reading(r.pieces, r.text + raw), s + raw)
  {
    assert RawAll(r.pieces) + (r.text + raw) == (RawAll(r.pieces) + r.text) + raw;
  }

  lemma MarkedReads(r: Reading, s: Str, piece: Piece)
    requires Reads(r, s) && Good(piece) && !piece.Plain?
    ensures Reads(Reading(Pushed(r) + [piece], []), s + piece.raw)
  {
    PushTiles(r, s);
    MarkedGrows(Pushed(r), piece);
    RawGrows(Pushed(r), piece);
    assert s + piece.raw + [] == s + piece.raw;
  }

  lemma {:induction false} ReadAllReads(steps: seq<Piece>)
    requires AllGood(steps)
    ensures Reads(ReadAll(steps), RawAll(steps))
  {
    if steps != [] {
      var rest, last := steps[..|steps| - 1], steps[|steps| - 1];
      ReadAllReads(rest);
      if last.Plain? {
        PlainReads(ReadAll(rest), RawAll(rest), last.raw);
      } else {
        MarkedReads(ReadAll(rest), RawAll(rest), last);
      }
    }
  }

  lemma {:induction false} RawConcat(a: seq<Piece>, b: seq<Piece>)
    ensures RawAll(a + b) == RawAll(a) + RawAll(b)
    decreases |b|
  {
    if b == [] {
      assert a + b == a;
    } else {
      var rest, last := b[..|b| - 1], b[|b| - 1];
      assert (a + b)[..|a + b| - 1] == a + rest && (a + b)[|a + b| - 1] == last;
      RawConcat(a, rest);
      Regrouped(RawAll(a), RawAll(rest), last.raw);
    }
  }

  lemma Regrouped(a: Str, b: Str, c: Str)
    ensures (a + b) + c == a + (b + c)
  {
  }

  lemma FirstPiece(s: Str, i: nat) returns (piece: Piece)
    requires i < |s|
    ensures FirstStep(s, i, piece) && Fits(piece, s, i)
  {
    piece := PieceAt(s, i);
    PieceFits(s, i);
    PieceIsFirst(s, i);
  }

  /** The pieces stand one after another from a place to the end. */
  predicate Chained(pieces: seq<Piece>, s: Str, i: nat)
    decreases |pieces|
  {
    if pieces == [] then i == |s| else Fits(pieces[0], s, i) && Chained(pieces[1..], s, i + |pieces[0].raw|)
  }

  lemma {:induction false} StepsChained(s: Str, i: nat)
    requires i <= |s|
    ensures Chained(Steps(s, i), s, i)
    decreases |s| - i
  {
    if i < |s| {
      var piece := FirstPiece(s, i);
      StepsChained(s, i + |piece.raw|);
      ChainedMore(piece, Steps(s, i + |piece.raw|), s, i);
    }
  }

  lemma ChainedMore(piece: Piece, rest: seq<Piece>, s: Str, i: nat)
    requires Fits(piece, s, i) && Chained(rest, s, i + |piece.raw|)
    ensures Chained([piece] + rest, s, i)
  {
    assert ([piece] + rest)[1..] == rest;
  }

  lemma {:induction false} ChainedCovers(pieces: seq<Piece>, s: Str, i: nat)
    requires Chained(pieces, s, i)
    ensures i <= |s| && AllGood(pieces) && RawAll(pieces) == s[i..]
    decreases |pieces|
  {
    if pieces != [] {
      var piece, rest := pieces[0], pieces[1..];
      ChainedCovers(rest, s, i + |piece.raw|);
      StepCovers(s, i, piece, rest, |piece.raw|);
      assert pieces == [piece] + rest;
    }
  }

  lemma StepCovers(s: Str, i: nat, piece: Piece, rest: seq<Piece>, len: nat)
    requires i + len <= |s| && s[i..i + len] == piece.raw && RawAll(rest) == s[i + len..]
    requires Good(piece) && AllGood(rest)
    ensures RawAll([piece] + rest) == s[i..] && AllGood([piece] + rest)
  {
    RawConcat([piece], rest);
    assert RawAll([piece]) == piece.raw by { assert RawAll([piece][..0]) == []; }
    assert s[i..i + len] + s[i + len..] == s[i..];
  }

  lemma {:induction false} SpanAt(pieces: seq<Piece>, i: nat)
    requires i < |pieces|
    ensures |SpansOf(pieces)| == |pieces| && SpansOf(pieces)[i] == SpanOf(pieces[i])
  {
    var rest := pieces[..|pieces| - 1];
    SpansCount(rest);
    if i < |rest| {
      SpanAt(rest, i);
    }
  }

  lemma {:induction false} SpansCount(pieces: seq<Piece>)
    ensures |SpansOf(pieces)| == |pieces|
  {
    if pieces != [] {
      SpansCount(pieces[..|pieces| - 1]);
    }
  }

  /**
   * Span for span, the pieces with their marks put back are the message: nothing is lost
   * and nothing added. No text span is empty and no two stand side by side.
   */
  lemma SpansTile(s: Str)
    ensures Tiles(Pieces(s), s) && |Spans(s)| == |Pieces(s)|
    ensures forall i :: 0 <= i < |Spans(s)| ==> Spans(s)[i] == SpanOf(Pieces(s)[i]) && Spans(s)[i].text != []
    ensures forall i :: 0 < i < |Spans(s)| ==> !(Spans(s)[i - 1].Text? && Spans(s)[i].Text?)
  {
    var pieces := Pieces(s);
    StepsChained(s, 0);
    ChainedCovers(Steps(s, 0), s, 0);
    ReadAllReads(Steps(s, 0));
    PushTiles(ReadAll(Steps(s, 0)), s);
    SpansCount(pieces);
    forall i | 0 <= i < |pieces| ensures Spans(s)[i] == SpanOf(pieces[i]) && Spans(s)[i].text != [] {
      SpanAt(pieces, i);
      assert Good(pieces[i]);
    }
  }
}
