/** Reading a unified diff: which rows it draws, and how they are numbered. */
module FileDiff {
  import opened JsText

  datatype Kind = Context | Added | Removed

  datatype Row = HunkRow(text: Str) | LineRow(kind: Kind, text: Str, line: nat) | NoteRow(text: Str)

  const AT: Unit := 0x40
  const MINUS: Unit := 0x2D
  const PLUS: Unit := 0x2B
  const COMMA: Unit := 0x2C
  const BACKSLASH: Unit := 0x5C

  // ── The hunk header ────────────────────────────────────────────────────────

  /** `(?:,\d+)?` */
  function SkipCount(s: Str): Str {
    if s != [] && s[0] == COMMA && Digits(s[1..]) != [] then s[1 + |Digits(s[1..])|..] else s
  }

  /** `" +"` */
  predicate AtPlus(s: Str) {
    |s| >= 2 && s[0] == SPACE && s[1] == PLUS
  }

  /** `" @@"` */
  predicate AtEnd(s: Str) {
    |s| >= 3 && s[0] == SPACE && s[1] == AT && s[2] == AT
  }

  /** `(\d+)(?:,\d+)?`: the number, and what follows the whole of it. */
  function NumberAt(s: Str): Option<(nat, Str)> {
    var digits := Digits(s);
    if digits == [] then None else Some((Value(digits), SkipCount(s[|digits|..])))
  }

  /** The two start numbers of a line that matches `/^@@ -(\d+)(?:,\d+)? \+(\d+)(?:,\d+)? @@/`. */
  function HunkStarts(line: Str): Option<(nat, nat)> {
    if |line| < 4 || line[0] != AT || line[1] != AT || line[2] != SPACE || line[3] != MINUS then None
    else match NumberAt(line[4..])
      case None => None
      case Some((oldStart, rest)) =>
        if !AtPlus(rest) then None
        else match NumberAt(rest[2..])
          case None => None
          case Some((newStart, end)) => if AtEnd(end) then Some((oldStart, newStart)) else None
  }

  // ── The rows ───────────────────────────────────────────────────────────────

  function Tail(line: Str): Str {
    if line == [] then [] else line[1..]
  }

  predicate Starts(line: Str, u: Unit) {
    line != [] && line[0] == u
  }

  /** A line beside what the header pattern found in it. */
  datatype Line = Line(text: Str, hunk: Option<(nat, nat)>)

  function Matched(lines: seq<Str>): (r: seq<Line>)
    ensures |r| == |lines|
  {
    if lines == [] then [] else [Line(lines[0], HunkStarts(lines[0]))] + Matched(lines[1..])
  }

  /** What the reader counts: the next line of each file, and whether a header has been seen. */
  datatype Count = Count(oldLine: nat, newLine: nat, hunked: bool)

  /** The row a body line draws. */
  function BodyRow(text: Str, c: Count): Row {
    if Starts(text, BACKSLASH) then NoteRow(Trim(Tail(text)))
    else if Starts(text, PLUS) then LineRow(Added, Tail(text), c.newLine)
    else if Starts(text, MINUS) then LineRow(Removed, Tail(text), c.oldLine)
    else LineRow(Context, Tail(text), c.newLine)
  }

  function Draws(line: Line, c: Count): seq<Row> {
    if line.hunk.Some? then [HunkRow(line.text)]
    else if !c.hunked then []
    else [BodyRow(line.text, c)]
  }

  function Next(line: Line, c: Count): Count {
    if line.hunk.Some? then Count(line.hunk.value.0, line.hunk.value.1, true)
    else if !c.hunked || Starts(line.text, BACKSLASH) then c
    else if Starts(line.text, PLUS) then c.(newLine := c.newLine + 1)
    else if Starts(line.text, MINUS) then c.(oldLine := c.oldLine + 1)
    else c.(oldLine := c.oldLine + 1, newLine := c.newLine + 1)
  }

  function Rows(lines: seq<Line>, c: Count): seq<Row>
    decreases |lines|
  {
    if lines == [] then [] else Draws(lines[0], c) + Rows(lines[1..], Next(lines[0], c))
  }

  const UNREAD: Count := Count(0, 0, false)

  predicate AnyHunk(lines: seq<Line>) {
    exists i :: 0 <= i < |lines| && lines[i].hunk.Some?
  }

  function WithoutEmptyTail(lines: seq<Str>): seq<Str> {
    if lines != [] && lines[|lines| - 1] == [] then lines[..|lines| - 1] else lines
  }

  method ParseUnifiedDiff(patch: Str) returns (rows: seq<Row>, hunked: bool)
    ensures var lines := Matched(WithoutEmptyTail(Split(patch)));
            rows == Rows(lines, UNREAD) && (hunked <==> AnyHunk(lines))
  {
    var lines := Split(patch);
    if |lines| > 0 && lines[|lines| - 1] == [] { lines := lines[..|lines| - 1]; }
    rows, hunked := ReadLines(Matched(lines));
  }

  method ReadLines(lines: seq<Line>) returns (rows: seq<Row>, hunked: bool)
    ensures rows == Rows(lines, UNREAD)
    ensures hunked <==> AnyHunk(lines)
  {
    rows := [];
    hunked := false;
    var oldLine: nat, newLine: nat := 0, 0;
    var i := 0;
    while i < |lines|
      invariant 0 <= i <= |lines|
      invariant rows + Rows(lines[i..], Count(oldLine, newLine, hunked)) == Rows(lines, UNREAD)
      invariant hunked <==> AnyHunk(lines[..i])
    {
      ghost var before := Count(oldLine, newLine, hunked);
      ghost var drawn := rows;
      var line := lines[i];
      if line.hunk.Some? {
        hunked := true;
        oldLine, newLine := line.hunk.value.0, line.hunk.value.1;
        rows := rows + [HunkRow(line.text)];
      } else if !hunked {
      } else if Starts(line.text, BACKSLASH) {
        rows := rows + [NoteRow(Trim(Tail(line.text)))];
      } else if Starts(line.text, PLUS) {
        rows := rows + [LineRow(Added, Tail(line.text), newLine)];
        newLine := newLine + 1;
      } else if Starts(line.text, MINUS) {
        rows := rows + [LineRow(Removed, Tail(line.text), oldLine)];
        oldLine := oldLine + 1;
      } else {
        rows := rows + [LineRow(Context, Tail(line.text), newLine)];
        oldLine := oldLine + 1;
        newLine := newLine + 1;
      }
      assert rows == drawn + Draws(line, before);
      assert Count(oldLine, newLine, hunked) == Next(line, before);
      RowsFrom(lines, i, before, drawn);
      AnyHunkGrows(lines[..i], line);
      assert lines[..i + 1] == lines[..i] + [line];
      i := i + 1;
    }
    assert lines[..i] == lines;
  }

  lemma RowsFrom(lines: seq<Line>, i: nat, c: Count, drawn: seq<Row>)
    requires i < |lines|
    ensures drawn + Rows(lines[i..], c) == drawn + Draws(lines[i], c) + Rows(lines[i + 1..], Next(lines[i], c))
  {
    assert lines[i..][0] == lines[i] && lines[i..][1..] == lines[i + 1..];
  }

  lemma AnyHunkGrows(lines: seq<Line>, line: Line)
    ensures AnyHunk(lines + [line]) <==> AnyHunk(lines) || line.hunk.Some?
  {
    if AnyHunk(lines) {
      var i :| 0 <= i < |lines| && lines[i].hunk.Some?;
      assert (lines + [line])[i] == lines[i];
    }
    if line.hunk.Some? { assert (lines + [line])[|lines|] == line; }
  }

  // ── Patches as a diff program prints them ──────────────────────────────────

  /** One line of a hunk's body. An empty context line may have lost its space on the way. */
  datatype Op = Same(text: Str, bare: bool) | Add(text: Str) | Del(text: Str) | Note(text: Str)

  /** A hunk: its header line and the text after the second "@@", where it starts in each file, and its body. */
  datatype Hunk = Hunk(header: Str, heading: Str, oldAt: nat, newAt: nat, ops: seq<Op>)

  /** How many lines of the old file a body line stands for. */
  function OldStep(op: Op): nat {
    if op.Same? || op.Del? then 1 else 0
  }

  function NewStep(op: Op): nat {
    if op.Same? || op.Add? then 1 else 0
  }

  function OldCount(ops: seq<Op>): nat {
    if ops == [] then 0 else OldStep(ops[0]) + OldCount(ops[1..])
  }

  function NewCount(ops: seq<Op>): nat {
    if ops == [] then 0 else NewStep(ops[0]) + NewCount(ops[1..])
  }

  function Decimal(n: nat): (r: Str)
    ensures r != [] && forall i :: 0 <= i < |r| ==> IsDigit(r[i])
  {
    if n < 10 then [0x30 + n] else Decimal(n / 10) + [0x30 + n % 10]
  }

  /** The number printed for a range: its first line, or the line before it when it is empty. */
  function StartOf(at: nat, count: nat): nat {
    if count == 0 then at else at + 1
  }

  function Range(at: nat, count: nat): Str {
    Decimal(StartOf(at, count)) + if count == 1 then [] else [COMMA] + Decimal(count)
  }

  function Header(oldAt: nat, oldCount: nat, newAt: nat, newCount: nat, heading: Str): Str {
    [AT, AT, SPACE, MINUS] + Range(oldAt, oldCount) + [SPACE, PLUS] + Range(newAt, newCount) + ([SPACE, AT, AT] + heading)
  }

  /** The header line is the one a diff program prints for this hunk. */
  predicate Headed(h: Hunk) {
    h.header == Header(h.oldAt, OldCount(h.ops), h.newAt, NewCount(h.ops), h.heading)
  }

  function OpLine(op: Op): Str {
    match op
    case Same(text, bare) => if bare && text == [] then [] else [SPACE] + text
    case Add(text) => [PLUS] + text
    case Del(text) => [MINUS] + text
    case Note(text) => [BACKSLASH] + text
  }

  function OpLines(ops: seq<Op>): (r: seq<Str>)
    ensures |r| == |ops|
  {
    if ops == [] then [] else [OpLine(ops[0])] + OpLines(ops[1..])
  }

  function HunkLines(hs: seq<Hunk>): seq<Str> {
    if hs == [] then [] else [hs[0].header] + OpLines(hs[0].ops) + HunkLines(hs[1..])
  }

  /** The body takes `before[a..]` to `after[b..]` line by line. */
  predicate OpsFit(ops: seq<Op>, before: seq<Str>, after: seq<Str>, a: nat, b: nat) {
    if ops == [] then a <= |before| && b <= |after|
    else
      && (OldStep(ops[0]) == 1 ==> a < |before| && before[a] == ops[0].text)
      && (NewStep(ops[0]) == 1 ==> b < |after| && after[b] == ops[0].text)
      && OpsFit(ops[1..], before, after, a + OldStep(ops[0]), b + NewStep(ops[0]))
  }

  /** The lines from `at` to `a` of one file are those from `made` to `b` of the other. */
  predicate Level(before: seq<Str>, after: seq<Str>, at: nat, made: nat, a: nat, b: nat)
    decreases |before| - at
  {
    if at >= a then at == a <= |before| && made == b <= |after|
    else
      && at < |before| && made < |after| && before[at] == after[made]
      && Level(before, after, at + 1, made + 1, a, b)
  }

  /** The hunks, in order, take `before[a..]` to `after[b..]`; what lies between them is the same in both. */
  predicate Consistent(hs: seq<Hunk>, before: seq<Str>, after: seq<Str>, a: nat, b: nat) {
    if hs == [] then Level(before, after, a, b, |before|, |after|)
    else
      var h := hs[0];
      && Level(before, after, a, b, h.oldAt, h.newAt)
      && OpsFit(h.ops, before, after, h.oldAt, h.newAt)
      && Consistent(hs[1..], before, after, h.oldAt + OldCount(h.ops), h.newAt + NewCount(h.ops))
  }

  // ── Reading a header back ──────────────────────────────────────────────────

  lemma {:induction false} DigitsOf(digits: Str, rest: Str)
    requires forall i :: 0 <= i < |digits| ==> IsDigit(digits[i])
    requires rest == [] || !IsDigit(rest[0])
    ensures Digits(digits + rest) == digits
  {
    if digits == [] {
      assert digits + rest == rest;
    } else {
      assert (digits + rest)[1..] == digits[1..] + rest;
      DigitsOf(digits[1..], rest);
    }
  }

  lemma {:induction false} ValueOfDecimal(n: nat)
    ensures Value(Decimal(n)) == n
  {
    if n >= 10 {
      ValueOfDecimal(n / 10);
      var d := Decimal(n);
      assert d[..|d| - 1] == Decimal(n / 10);
    }
  }

  /** A printed range is read as its start, and everything after it is left. */
  lemma RangeReads(at: nat, count: nat, rest: Str)
    requires rest != [] && rest[0] == SPACE
    ensures NumberAt(Range(at, count) + rest) == Some((StartOf(at, count), rest))
  {
    var start := Decimal(StartOf(at, count));
    var s := Range(at, count) + rest;
    ValueOfDecimal(StartOf(at, count));
    if count == 1 {
      assert s == start + rest;
      DigitsOf(start, rest);
      assert s[|start|..] == rest;
    } else {
      var tail := [COMMA] + Decimal(count) + rest;
      assert s == start + tail;
      DigitsOf(start, tail);
      assert s[|start|..] == tail;
      assert tail[1..] == Decimal(count) + rest;
      DigitsOf(Decimal(count), rest);
      assert tail[1 + |Decimal(count)|..] == rest;
    }
  }

  lemma HeaderReads(oldAt: nat, oldCount: nat, newAt: nat, newCount: nat, heading: Str)
    ensures HunkStarts(Header(oldAt, oldCount, newAt, newCount, heading))
         == Some((StartOf(oldAt, oldCount), StartOf(newAt, newCount)))
  {
    var end := [SPACE, AT, AT] + heading;
    RangeReads(newAt, newCount, end);
    RangeReads(oldAt, oldCount, [SPACE, PLUS] + (Range(newAt, newCount) + end));
    HeaderText(Range(oldAt, oldCount), Range(newAt, newCount), end, StartOf(oldAt, oldCount), StartOf(newAt, newCount));
  }

  lemma HeaderText(a: Str, b: Str, end: Str, oldStart: nat, newStart: nat)
    requires NumberAt(b + end) == Some((newStart, end)) && AtEnd(end)
    requires NumberAt(a + ([SPACE, PLUS] + (b + end))) == Some((oldStart, [SPACE, PLUS] + (b + end)))
    ensures HunkStarts([AT, AT, SPACE, MINUS] + a + [SPACE, PLUS] + b + end) == Some((oldStart, newStart))
  {
    var rest := [SPACE, PLUS] + (b + end);
    PlusSkipped(b + end);
    HeaderParts(a + rest, rest, oldStart, end, newStart);
    Regrouped(a, b, end);
  }

  lemma PlusSkipped(s: Str)
    ensures ([SPACE, PLUS] + s)[2..] == s && AtPlus([SPACE, PLUS] + s)
  {
  }

  lemma Regrouped(a: Str, b: Str, end: Str)
    ensures [AT, AT, SPACE, MINUS] + a + [SPACE, PLUS] + b + end == [AT, AT, SPACE, MINUS] + (a + ([SPACE, PLUS] + (b + end)))
  {
  }

  lemma HeaderParts(s: Str, rest: Str, oldStart: nat, end: Str, newStart: nat)
    requires NumberAt(s) == Some((oldStart, rest)) && AtPlus(rest)
    requires NumberAt(rest[2..]) == Some((newStart, end)) && AtEnd(end)
    ensures HunkStarts([AT, AT, SPACE, MINUS] + s) == Some((oldStart, newStart))
  {
    assert ([AT, AT, SPACE, MINUS] + s)[4..] == s;
  }

  lemma BodyIsNoHeader(op: Op)
    ensures HunkStarts(OpLine(op)).None?
  {
  }

  // ── Every row is numbered by the file it stands in ─────────────────────────

  /** The row a body line should draw, standing at `before[a]` and `after[b]`. */
  function OpRow(op: Op, a: nat, b: nat): Row {
    match op
    case Same(text, _) => LineRow(Context, text, b + 1)
    case Add(text) => LineRow(Added, text, b + 1)
    case Del(text) => LineRow(Removed, text, a + 1)
    case Note(text) => NoteRow(Trim(text))
  }

  function OpRows(ops: seq<Op>, a: nat, b: nat): (r: seq<Row>)
    ensures |r| == |ops|
    decreases |ops|
  {
    if ops == [] then []
    else [OpRow(ops[0], a, b)] + OpRows(ops[1..], a + OldStep(ops[0]), b + NewStep(ops[0]))
  }

  function PatchRows(hs: seq<Hunk>): seq<Row> {
    if hs == [] then [] else [HunkRow(hs[0].header)] + OpRows(hs[0].ops, hs[0].oldAt, hs[0].newAt) + PatchRows(hs[1..])
  }

  function BodyLines(ops: seq<Op>): seq<Line> {
    if ops == [] then [] else [Line(OpLine(ops[0]), None)] + BodyLines(ops[1..])
  }

  lemma BodyStep(op: Op, c: Count, a: nat, b: nat)
    requires c.hunked && (OldStep(op) == 1 ==> c.oldLine == a + 1) && (NewStep(op) == 1 ==> c.newLine == b + 1)
    ensures Draws(Line(OpLine(op), None), c) == [OpRow(op, a, b)]
    ensures Next(Line(OpLine(op), None), c) == c.(oldLine := c.oldLine + OldStep(op), newLine := c.newLine + NewStep(op))
  {
    match op
    case Same(text, bare) => assert OpLine(op) == [] || Tail(OpLine(op)) == text;
    case Add(text) => assert Tail(OpLine(op)) == text;
    case Del(text) => assert Tail(OpLine(op)) == text;
    case Note(text) => assert Tail(OpLine(op)) == text;
  }

  /** The count after a run of lines. */
  function Ends(lines: seq<Line>, c: Count): Count
    decreases |lines|
  {
    if lines == [] then c else Ends(lines[1..], Next(lines[0], c))
  }

  lemma {:induction false} RowsConcat(a: seq<Line>, b: seq<Line>, c: Count)
    ensures Rows(a + b, c) == Rows(a, c) + Rows(b, Ends(a, c))
    decreases |a|
  {
    if a == [] {
      assert a + b == b;
    } else {
      assert (a + b)[0] == a[0] && (a + b)[1..] == a[1..] + b;
      RowsConcat(a[1..], b, Next(a[0], c));
    }
  }

  lemma {:induction false} BodyRows(ops: seq<Op>, c: Count, a: nat, b: nat)
    requires c.hunked
    requires OldCount(ops) > 0 ==> c.oldLine == a + 1
    requires NewCount(ops) > 0 ==> c.newLine == b + 1
    ensures Rows(BodyLines(ops), c) == OpRows(ops, a, b)
    decreases |ops|
  {
    if ops != [] {
      var line := Line(OpLine(ops[0]), None);
      BodyStep(ops[0], c, a, b);
      BodyRows(ops[1..], Next(line, c), a + OldStep(ops[0]), b + NewStep(ops[0]));
      assert BodyLines(ops)[0] == line && BodyLines(ops)[1..] == BodyLines(ops[1..]);
    }
  }

  lemma {:induction false} MatchedBody(ops: seq<Op>)
    ensures Matched(OpLines(ops)) == BodyLines(ops)
  {
    if ops != [] {
      BodyIsNoHeader(ops[0]);
      MatchedBody(ops[1..]);
      assert OpLines(ops)[1..] == OpLines(ops[1..]);
    }
  }

  lemma MatchedHunk(h: Hunk, c: Count)
    requires Headed(h)
    ensures Rows(Matched([h.header] + OpLines(h.ops)), c) == [HunkRow(h.header)] + OpRows(h.ops, h.oldAt, h.newAt)
  {
    HeaderReads(h.oldAt, OldCount(h.ops), h.newAt, NewCount(h.ops), h.heading);
    var starts := (StartOf(h.oldAt, OldCount(h.ops)), StartOf(h.newAt, NewCount(h.ops)));
    StartedHunk(h, starts, c);
  }

  lemma StartedHunk(h: Hunk, starts: (nat, nat), c: Count)
    requires HunkStarts(h.header) == Some(starts)
    requires OldCount(h.ops) > 0 ==> starts.0 == h.oldAt + 1
    requires NewCount(h.ops) > 0 ==> starts.1 == h.newAt + 1
    ensures Rows(Matched([h.header] + OpLines(h.ops)), c) == [HunkRow(h.header)] + OpRows(h.ops, h.oldAt, h.newAt)
  {
    MatchedBody(h.ops);
    MatchedConcat([h.header], OpLines(h.ops));
    var line := Line(h.header, Some(starts));
    assert Matched([h.header]) == [line];
    RowsConcat([line], BodyLines(h.ops), c);
    BodyRows(h.ops, Next(line, c), h.oldAt, h.newAt);
  }

  lemma {:induction false} HunksDraw(hs: seq<Hunk>, c: Count)
    requires forall i :: 0 <= i < |hs| ==> Headed(hs[i])
    ensures Rows(Matched(HunkLines(hs)), c) == PatchRows(hs)
    decreases |hs|
  {
    if hs != [] {
      var first := [hs[0].header] + OpLines(hs[0].ops);
      assert Headed(hs[0]);
      MatchedHunk(hs[0], c);
      MatchedConcat(first, HunkLines(hs[1..]));
      RowsConcat(Matched(first), Matched(HunkLines(hs[1..])), c);
      HunksDraw(hs[1..], Ends(Matched(first), c));
    }
  }

  lemma {:induction false} MatchedConcat(a: seq<Str>, b: seq<Str>)
    ensures Matched(a + b) == Matched(a) + Matched(b)
  {
    if a == [] {
      assert a + b == b;
    } else {
      assert (a + b)[1..] == a[1..] + b;
      MatchedConcat(a[1..], b);
    }
  }

  lemma {:induction false} HeaderMatched(header: seq<Str>, i: nat)
    requires i < |header|
    ensures Matched(header)[i] == Line(header[i], HunkStarts(header[i]))
  {
    if i > 0 {
      HeaderMatched(header[1..], i - 1);
    }
  }

  lemma {:induction false} PreambleDrawsNothing(lines: seq<Line>, rest: seq<Line>)
    requires forall i :: 0 <= i < |lines| ==> lines[i].hunk.None?
    ensures Rows(lines + rest, UNREAD) == Rows(rest, UNREAD)
  {
    if lines == [] {
      assert lines + rest == rest;
    } else {
      PreambleDrawsNothing(lines[1..], rest);
      assert (lines + rest)[0] == lines[0] && (lines + rest)[1..] == lines[1..] + rest;
    }
  }

  lemma HeaderDrawsNothing(header: seq<Str>, rest: seq<Line>)
    requires forall i :: 0 <= i < |header| ==> HunkStarts(header[i]).None?
    ensures Rows(Matched(header) + rest, UNREAD) == Rows(rest, UNREAD)
  {
    forall i | 0 <= i < |header| ensures Matched(header)[i].hunk.None? {
      HeaderMatched(header, i);
    }
    PreambleDrawsNothing(Matched(header), rest);
  }

  /** A numbered row's text stands at its number: in the new file, or in the old one if it was removed. */
  predicate Indexes(r: Row, before: seq<Str>, after: seq<Str>) {
    r.LineRow? ==>
      if r.kind.Removed? then 1 <= r.line <= |before| && before[r.line - 1] == r.text
      else 1 <= r.line <= |after| && after[r.line - 1] == r.text
  }

  predicate AllIndex(rows: seq<Row>, before: seq<Str>, after: seq<Str>) {
    forall i :: 0 <= i < |rows| ==> Indexes(rows[i], before, after)
  }

  lemma {:induction false} OpsIndex(ops: seq<Op>, before: seq<Str>, after: seq<Str>, a: nat, b: nat)
    requires OpsFit(ops, before, after, a, b)
    ensures AllIndex(OpRows(ops, a, b), before, after)
    decreases |ops|
  {
    if ops != [] {
      OpsIndex(ops[1..], before, after, a + OldStep(ops[0]), b + NewStep(ops[0]));
    }
  }

  lemma AllIndexConcat(xs: seq<Row>, ys: seq<Row>, before: seq<Str>, after: seq<Str>)
    requires AllIndex(xs, before, after) && AllIndex(ys, before, after)
    ensures AllIndex(xs + ys, before, after)
  {
  }

  lemma {:induction false} PatchIndexes(hs: seq<Hunk>, before: seq<Str>, after: seq<Str>, a: nat, b: nat)
    requires Consistent(hs, before, after, a, b)
    ensures AllIndex(PatchRows(hs), before, after)
    decreases |hs|
  {
    if hs != [] {
      var h := hs[0];
      var body := OpRows(h.ops, h.oldAt, h.newAt);
      OpsIndex(h.ops, before, after, h.oldAt, h.newAt);
      PatchIndexes(hs[1..], before, after, h.oldAt + OldCount(h.ops), h.newAt + NewCount(h.ops));
      AllIndexConcat([HunkRow(h.header)], body, before, after);
      AllIndexConcat([HunkRow(h.header)] + body, PatchRows(hs[1..]), before, after);
    }
  }

  predicate OneLine(s: Str) { LF !in s }

  predicate Printable(h: Hunk) {
    Headed(h) && OneLine(h.heading) && forall i :: 0 <= i < |h.ops| ==> OneLine(h.ops[i].text)
  }

  lemma RangeOneLine(at: nat, count: nat)
    ensures OneLine(Range(at, count))
  {
    var start, size := Decimal(StartOf(at, count)), Decimal(count);
    forall i | 0 <= i < |start| ensures start[i] != LF { assert IsDigit(start[i]); }
    forall i | 0 <= i < |size| ensures size[i] != LF { assert IsDigit(size[i]); }
  }

  lemma HeaderOneLine(h: Hunk)
    requires Headed(h) && OneLine(h.heading)
    ensures OneLine(h.header)
  {
    RangeOneLine(h.oldAt, OldCount(h.ops));
    RangeOneLine(h.newAt, NewCount(h.ops));
  }

  predicate AllOneLine(lines: seq<Str>) {
    forall i :: 0 <= i < |lines| ==> OneLine(lines[i])
  }

  lemma {:induction false} BodyOneLine(ops: seq<Op>)
    requires forall i :: 0 <= i < |ops| ==> OneLine(ops[i].text)
    ensures AllOneLine(OpLines(ops))
  {
    if ops != [] {
      assert OneLine(OpLine(ops[0]));
      BodyOneLine(ops[1..]);
    }
  }

  lemma {:induction false} HunkLinesOneLine(hs: seq<Hunk>)
    requires forall i :: 0 <= i < |hs| ==> Printable(hs[i])
    ensures AllOneLine(HunkLines(hs))
  {
    if hs != [] {
      HunkLinesOneLine(hs[1..]);
      assert Printable(hs[0]);
      HeaderOneLine(hs[0]);
      BodyOneLine(hs[0].ops);
    }
  }

  /**
   * A single-file patch, printed from hunks that take one file to the other, is read
   * back row for row: one row per printed body line, with each number the position
   * of exactly that text in the file it stands in.
   */
  lemma PatchReadsBack(header: seq<Str>, hs: seq<Hunk>, before: seq<Str>, after: seq<Str>)
    requires forall i :: 0 <= i < |header| ==> OneLine(header[i]) && HunkStarts(header[i]).None?
    requires forall i :: 0 <= i < |hs| ==> Printable(hs[i])
    requires Consistent(hs, before, after, 0, 0)
    ensures var rows := Rows(Matched(WithoutEmptyTail(Split(Printed(header + HunkLines(hs))))), UNREAD);
            && rows == PatchRows(hs)
            && |rows| == |HunkLines(hs)|
            && AllIndex(rows, before, after)
  {
    var lines := header + HunkLines(hs);
    HunkLinesOneLine(hs);
    SplitPrinted(lines);
    assert WithoutEmptyTail(lines + [[]]) == lines;
    MatchedConcat(header, HunkLines(hs));
    HeaderDrawsNothing(header, Matched(HunkLines(hs)));
    HunksDraw(hs, UNREAD);
    PatchIndexes(hs, before, after, 0, 0);
    OneRowPerLine(hs);
  }

  lemma {:induction false} OneRowPerLine(hs: seq<Hunk>)
    ensures |PatchRows(hs)| == |HunkLines(hs)|
  {
    if hs != [] {
      OneRowPerLine(hs[1..]);
    }
  }

  // ── The rows on screen are enough to make the new file ─────────────────────

  function Between(before: seq<Str>, from: nat, to: int): seq<Str> {
    if from <= to <= |before| then before[from..to] else []
  }

  /** How far the old file has been read, and what has been made of it. */
  datatype Tape = Tape(at: nat, made: seq<Str>)

  /** Lines of the old file up to a numbered row are copied; the row says what comes then. */
  function Play(row: Row, before: seq<Str>, t: Tape): Tape {
    match row
    case HunkRow(_) => t
    case NoteRow(_) => t
    case LineRow(kind, text, n) =>
      if kind.Removed? then Tape(n, t.made + Between(before, t.at, n - 1))
      else
        var upto: nat := if n >= |t.made| + 1 then t.at + (n - 1 - |t.made|) else t.at;
        Tape(if kind.Context? then upto + 1 else upto, t.made + Between(before, t.at, upto) + [text])
  }

  function Played(rows: seq<Row>, before: seq<Str>, t: Tape): Tape
    decreases |rows|
  {
    if rows == [] then t else Played(rows[1..], before, Play(rows[0], before, t))
  }

  function Replay(rows: seq<Row>, before: seq<Str>): seq<Str> {
    var t := Played(rows, before, Tape(0, []));
    t.made + Between(before, t.at, |before|)
  }

  lemma {:induction false} PlayedConcat(xs: seq<Row>, ys: seq<Row>, before: seq<Str>, t: Tape)
    ensures Played(xs + ys, before, t) == Played(ys, before, Played(xs, before, t))
    decreases |xs|
  {
    if xs == [] {
      assert xs + ys == ys;
    } else {
      assert (xs + ys)[0] == xs[0] && (xs + ys)[1..] == xs[1..] + ys;
      PlayedConcat(xs[1..], ys, before, Play(xs[0], before, t));
    }
  }

  /** What is made is a start of the new file, and the old file's lines up to `a` bring it to `b`. */
  predicate Caught(t: Tape, before: seq<Str>, after: seq<Str>, a: nat, b: nat) {
    t.made <= after && Level(before, after, t.at, |t.made|, a, b)
  }

  lemma {:induction false} LevelCopies(before: seq<Str>, after: seq<Str>, at: nat, made: nat, a: nat, b: nat)
    requires Level(before, after, at, made, a, b)
    ensures at <= a <= |before| && made <= b <= |after| && a - at == b - made
    ensures before[at..a] == after[made..b]
    decreases |before| - at
  {
    if at < a {
      LevelCopies(before, after, at + 1, made + 1, a, b);
      assert before[at..a] == [before[at]] + before[at + 1..a];
      assert after[made..b] == [after[made]] + after[made + 1..b];
    }
  }

  lemma CaughtCopies(t: Tape, before: seq<Str>, after: seq<Str>, a: nat, b: nat)
    requires Caught(t, before, after, a, b)
    ensures t.at <= a <= |before| && |t.made| <= b <= |after| && a - t.at == b - |t.made|
    ensures t.made + Between(before, t.at, a) == after[..b]
  {
    LevelCopies(before, after, t.at, |t.made|, a, b);
    assert t.made == after[..|t.made|];
  }

  lemma {:induction false} LevelJoins(before: seq<Str>, after: seq<Str>, at: nat, made: nat, a: nat, b: nat, a': nat, b': nat)
    requires Level(before, after, at, made, a, b) && Level(before, after, a, b, a', b')
    ensures Level(before, after, at, made, a', b')
    decreases |before| - at
  {
    if at < a {
      LevelJoins(before, after, at + 1, made + 1, a, b, a', b');
      LevelCopies(before, after, a, b, a', b');
    }
  }

  lemma PlayOp(op: Op, before: seq<Str>, after: seq<Str>, t: Tape, a: nat, b: nat)
    requires Caught(t, before, after, a, b)
    requires OldStep(op) == 1 ==> a < |before| && before[a] == op.text
    requires NewStep(op) == 1 ==> b < |after| && after[b] == op.text
    ensures Caught(Play(OpRow(op, a, b), before, t), before, after, a + OldStep(op), b + NewStep(op))
  {
    CaughtCopies(t, before, after, a, b);
    if NewStep(op) == 1 {
      assert after[..b] + [op.text] == after[..b + 1];
    }
  }

  lemma PlayedOps(ops: seq<Op>, before: seq<Str>, t: Tape, a: nat, b: nat)
    requires ops != []
    ensures Played(OpRows(ops, a, b), before, t)
         == Played(OpRows(ops[1..], a + OldStep(ops[0]), b + NewStep(ops[0])), before, Play(OpRow(ops[0], a, b), before, t))
  {
    assert OpRows(ops, a, b)[1..] == OpRows(ops[1..], a + OldStep(ops[0]), b + NewStep(ops[0]));
  }

  lemma {:induction false} PlayOps(ops: seq<Op>, before: seq<Str>, after: seq<Str>, t: Tape, end: Tape, a: nat, b: nat)
    requires Caught(t, before, after, a, b) && OpsFit(ops, before, after, a, b)
    requires end == Played(OpRows(ops, a, b), before, t)
    ensures Caught(end, before, after, a + OldCount(ops), b + NewCount(ops))
    decreases |ops|
  {
    if ops != [] {
      PlayOp(ops[0], before, after, t, a, b);
      PlayedOps(ops, before, t, a, b);
      var u := Play(OpRow(ops[0], a, b), before, t);
      PlayOps(ops[1..], before, after, u, end, a + OldStep(ops[0]), b + NewStep(ops[0]));
    }
  }

  lemma PlayHunk(h: Hunk, before: seq<Str>, after: seq<Str>, t: Tape, end: Tape, a: nat, b: nat)
    requires Caught(t, before, after, a, b) && Level(before, after, a, b, h.oldAt, h.newAt)
    requires OpsFit(h.ops, before, after, h.oldAt, h.newAt)
    requires end == Played(OpRows(h.ops, h.oldAt, h.newAt), before, t)
    ensures Caught(end, before, after, h.oldAt + OldCount(h.ops), h.newAt + NewCount(h.ops))
  {
    LevelJoins(before, after, t.at, |t.made|, a, b, h.oldAt, h.newAt);
    PlayOps(h.ops, before, after, t, end, h.oldAt, h.newAt);
  }

  lemma {:induction false} PlayHunks(hs: seq<Hunk>, before: seq<Str>, after: seq<Str>, t: Tape, end: Tape, a: nat, b: nat)
    requires Caught(t, before, after, a, b) && Consistent(hs, before, after, a, b)
    requires end == Played(PatchRows(hs), before, t)
    ensures Caught(end, before, after, |before|, |after|)
    decreases |hs|
  {
    if hs == [] {
      LevelJoins(before, after, t.at, |t.made|, a, b, |before|, |after|);
    } else {
      var h := hs[0];
      var u := Played(OpRows(h.ops, h.oldAt, h.newAt), before, t);
      PlayHunk(h, before, after, t, u, a, b);
      PlayedPatch(hs, before, t);
      PlayHunks(hs[1..], before, after, u, end, h.oldAt + OldCount(h.ops), h.newAt + NewCount(h.ops));
    }
  }

  lemma PlayedPatch(hs: seq<Hunk>, before: seq<Str>, t: Tape)
    requires hs != []
    ensures Played(PatchRows(hs), before, t)
         == Played(PatchRows(hs[1..]), before, Played(OpRows(hs[0].ops, hs[0].oldAt, hs[0].newAt), before, t))
  {
    var head, body := [HunkRow(hs[0].header)], OpRows(hs[0].ops, hs[0].oldAt, hs[0].newAt);
    PlayedConcat(head + body, PatchRows(hs[1..]), before, t);
    PlayedConcat(head, body, before, t);
  }

  /** Replaying the parsed rows over the old file makes exactly the new one. */
  lemma RowsMakeTheNewFile(header: seq<Str>, hs: seq<Hunk>, before: seq<Str>, after: seq<Str>)
    requires forall i :: 0 <= i < |header| ==> OneLine(header[i]) && HunkStarts(header[i]).None?
    requires forall i :: 0 <= i < |hs| ==> Printable(hs[i])
    requires Consistent(hs, before, after, 0, 0)
    ensures var rows := Rows(Matched(WithoutEmptyTail(Split(Printed(header + HunkLines(hs))))), UNREAD);
            Replay(rows, before) == after
  {
    PatchReadsBack(header, hs, before, after);
    PatchRebuilds(hs, before, after);
  }

  lemma PatchRebuilds(hs: seq<Hunk>, before: seq<Str>, after: seq<Str>)
    requires Consistent(hs, before, after, 0, 0)
    ensures Replay(PatchRows(hs), before) == after
  {
    var end := Played(PatchRows(hs), before, Tape(0, []));
    PlayHunks(hs, before, after, Tape(0, []), end, 0, 0);
    CaughtCopies(end, before, after, |before|, |after|);
  }
}
