/** What each block of a message shows, said of the message's own lines. */
module ChatDrawing {
  import opened JsText
  import opened ChatBlocks
  import opened ChatLines
  import opened ChatReading
  import I = ChatInline
  import S = ChatSpans
  import M = ChatMarks
  import ChatQueue

  // ── Spans ──────────────────────────────────────────────────────────────────

  /** Code as it shows: the text between the marks without its padding, one space if it is all padding. */
  predicate Unpadded(inner: Str, text: Str, pad: Str, tail: Str) {
    && Blank(pad) && Blank(tail)
    && if text == [SPACE] then inner == pad + tail
       else inner == pad + (text + tail) && text != [] && !IsSpace(text[0]) && !IsSpace(text[|text| - 1])
  }

  /** A span shows what its piece of the text has between its marks. */
  ghost predicate Shows(span: I.Span, piece: I.Piece) {
    match piece
    case Plain(raw) => span == I.Text(raw)
    case Coded(_, _, inner) => span.Code? && exists pad, tail :: Unpadded(inner, span.text, pad, tail)
    case Starred(_, inner) => span == I.Strong(inner)
  }

  /**
   * The spans show a text: with marks and padding put back they are that text, and no mark
   * that could have opened stayed plain.
   */
  ghost predicate ShowsText(spans: Spans, text: Str) {
    exists pieces :: I.Tiles(pieces, text) && S.Divides(pieces, text, 0) && ShowEach(spans, pieces)
  }

  ghost predicate ShowEach(spans: Spans, pieces: seq<I.Piece>) {
    |spans| == |pieces| && forall i :: 0 <= i < |spans| ==> Shows(spans[i], pieces[i])
  }

  lemma CodeUnpadded(inner: Str, span: I.Span)
    requires span == I.CodeSpan(inner)
    ensures exists pad, tail :: Unpadded(inner, span.text, pad, tail)
  {
    var pad, tail := M.TrimParts(inner);
    if Trim(inner) == [] {
      assert inner == pad + tail;
    } else {
      assert Trim(inner) != [SPACE] by { assert IsSpace([SPACE][0]); }
    }
    assert Unpadded(inner, span.text, pad, tail);
  }

  lemma ShowsPiece(piece: I.Piece)
    ensures Shows(I.SpanOf(piece), piece)
  {
    if piece.Coded? { CodeUnpadded(piece.inner, I.SpanOf(piece)); }
  }

  lemma SpansShow(text: Str, spans: Spans)
    requires spans == I.Spans(text)
    ensures ShowsText(spans, text)
  {
    var pieces := I.Pieces(text);
    I.SpansTile(text);
    S.OnlyOneDivision(text, pieces);
    forall i | 0 <= i < |spans| ensures Shows(spans[i], pieces[i]) { ShowsPiece(pieces[i]); }
    assert ShowEach(spans, pieces);
  }

  // ── What was seen of a line ────────────────────────────────────────────────

  /** What stands beside a line is true of it. */
  ghost predicate Told(look: Look) {
    && look.trimmed == Trim(look.text)
    && (look.fence.Some? ==> M.IsFence(look.text, look.fence.value))
    && (look.marker.Some? ==> M.IsItem(look.text, look.marker.value))
    && (look.heading.Some? ==> M.IsHeading(look.text, look.heading.value))
  }

  lemma LookTold(line: Str)
    ensures Told(LookAt(line))
  {
    var look := LookAt(line);
    if look.fence.Some? { M.FenceExactly(line, look.fence.value); }
    if look.marker.Some? { M.ItemExactly(line, look.marker.value); }
    if look.heading.Some? { M.HeadingExactly(line, look.heading.value); }
  }

  ghost predicate AllTold(looks: seq<Look>) {
    forall i :: 0 <= i < |looks| ==> Told(looks[i])
  }

  lemma {:induction false} LookedTold(lines: seq<Str>)
    ensures AllTold(Looked(lines))
  {
    if lines != [] {
      LookedTold(lines[..|lines| - 1]);
      LookTold(lines[|lines| - 1]);
    }
  }

  // ── Where the lines of a part stand ────────────────────────────────────────

  /** The lines of the parts before this one. */
  function Before(parts: seq<Part>, i: nat): nat
    requires i <= |parts|
  {
    |AllLines(parts[..i])|
  }

  lemma {:induction false} PartStands(parts: seq<Part>, i: nat)
    requires i < |parts|
    ensures Before(parts, i) + |LinesOf(parts[i])| <= |AllLines(parts)|
    ensures AllLines(parts)[Before(parts, i)..Before(parts, i) + |LinesOf(parts[i])|] == LinesOf(parts[i])
  {
    var rest := parts[..|parts| - 1];
    if i < |rest| {
      PartStands(rest, i);
      assert rest[..i] == parts[..i];
    } else {
      assert rest == parts[..i];
    }
  }

  /** The lines of the items before this one. */
  function ItemBefore(items: seq<Item>, j: nat): nat
    requires j <= |items|
  {
    |ItemLines(items[..j])|
  }

  lemma {:induction false} ItemStands(items: seq<Item>, j: nat)
    requires j < |items|
    ensures var q := ItemBefore(items, j);
            && q + 1 + |items[j].more| <= |ItemLines(items)|
            && ItemLines(items)[q] == items[j].first
            && ItemLines(items)[q + 1..q + 1 + |items[j].more|] == items[j].more
  {
    var rest := items[..|items| - 1];
    if j < |rest| {
      ItemStands(rest, j);
      assert rest[..j] == items[..j];
    } else {
      assert rest == items[..j];
    }
  }

  lemma {:induction false} SliceTextAt(looks: seq<Look>, part: seq<Look>, from: nat, j: nat)
    requires from + j < |looks| && j < |part| && part[j] == looks[from + j]
    ensures Texts(part)[j] == Texts(looks)[from + j]
  {
    TextAt(looks, from + j);
    TextAt(part, j);
  }

  lemma {:induction false} PartTexts(looks: seq<Look>, part: seq<Look>, from: nat)
    requires from + |part| <= |looks| && forall j :: 0 <= j < |part| ==> part[j] == looks[from + j]
    ensures Texts(looks)[from..from + |part|] == Texts(part)
  {
    forall j: nat | j < |part| ensures Texts(part)[j] == Texts(looks)[from + j] { SliceTextAt(looks, part, from, j); }
    SliceIs(Texts(looks), Texts(part), from);
  }

  lemma {:induction false} TextsSlice(looks: seq<Look>, from: nat, to: nat)
    requires from <= to <= |looks|
    ensures Texts(looks)[from..to] == Texts(looks[from..to])
  {
    PartTexts(looks, looks[from..to], from);
  }

  lemma SliceIs(all: seq<Str>, part: seq<Str>, from: nat)
    requires from + |part| <= |all| && forall j :: 0 <= j < |part| ==> part[j] == all[from + j]
    ensures all[from..from + |part|] == part
  {
  }

  // ── What the block of a part shows ─────────────────────────────────────────

  lemma HeadingDrawn(part: Part, block: Block)
    requires part.Head? && Good(part) && AllTold(LinesOf(part)) && [block] == Draw(part)
    ensures BlockShows(part, Texts(LinesOf(part)), block)
  {
    var look := part.line;
    assert LinesOf(part)[0] == look && [block][0] == block;
    TextAt([look], 0);
    assert M.IsHeading(look.text, look.heading.value);
  }

  lemma ParagraphDrawn(part: Part, block: Block)
    requires part.Para? && Good(part) && [block] == Draw(part)
    ensures BlockShows(part, Texts(LinesOf(part)), block)
  {
    assert [block][0] == block;
    SpansShow(JoinWith(Texts(part.lines), [LF]), block.inline);
  }

  lemma CodeDrawn(part: Part, block: Block)
    requires part.Fenced? && Good(part) && AllTold(LinesOf(part)) && [block] == Draw(part)
    ensures BlockShows(part, Texts(LinesOf(part)), block)
  {
    var looks, k, f := LinesOf(part), 1 + |part.body|, part.open.fence.value;
    assert looks[0] == part.open && looks[1..k] == part.body && [block][0] == block;
    TextAt(looks, 0);
    TextsSlice(looks, 1, k);
    assert f == Fence(f.marker, f.language);
    assert M.IsFence(part.open.text, f);
  }

  function TrimEach(lines: seq<Str>): seq<Str> {
    seq(|lines|, j requires 0 <= j < |lines| => Trim(lines[j]))
  }

  lemma {:induction false} WithLinesJoins(text: Str, more: seq<Look>)
    requires AllTold(more)
    ensures WithLines(text, more) == JoinWith([text] + TrimEach(Texts(more)), [LF])
  {
    if more == [] {
      assert [text] + TrimEach([]) == [text];
    } else {
      var rest, last := more[..|more| - 1], more[|more| - 1];
      WithLinesJoins(text, rest);
      assert Told(more[|more| - 1]);
      JoinsLast(text, Texts(rest), last.text);
    }
  }

  lemma JoinsLast(text: Str, lines: seq<Str>, line: Str)
    ensures JoinWith([text] + TrimEach(lines + [line]), [LF]) == JoinWith([text] + TrimEach(lines), [LF]) + [LF] + Trim(line)
  {
    assert [text] + TrimEach(lines + [line]) == ([text] + TrimEach(lines)) + [Trim(line)];
    JoinSplit([text] + TrimEach(lines), [Trim(line)], [LF]);
  }

  lemma {:induction false} ItemTextAt(items: seq<Item>, j: nat)
    requires j < |items|
    ensures ItemTexts(items)[j] == ItemText(items[j])
  {
    if j < |items| - 1 { ItemTextAt(items[..|items| - 1], j); }
  }

  lemma {:induction false} SpansEachAt(texts: seq<Str>, j: nat)
    requires j < |texts|
    ensures SpansEach(texts)[j] == I.Spans(texts[j])
  {
    if j < |texts| - 1 { SpansEachAt(texts[..|texts| - 1], j); }
  }

  /** An item shows what follows its marker, and the lines that continue it, trimmed. */
  ghost predicate ItemShown(spans: Spans, ordered: bool, line: Str, more: seq<Str>) {
    exists m :: M.IsItem(line, m) && m.ordered == ordered && ShowsText(spans, JoinWith([m.text] + TrimEach(more), [LF]))
  }

  lemma ItemShows(item: Item, ordered: bool, spans: Spans)
    requires GoodItem(item, ordered) && Told(item.first) && AllTold(item.more) && spans == I.Spans(ItemText(item))
    ensures ItemShown(spans, ordered, item.first.text, Texts(item.more))
  {
    var m := item.first.marker.value;
    assert M.IsItem(item.first.text, m);
    WithLinesJoins(m.text, item.more);
    SpansShow(ItemText(item), spans);
  }

  /** What an item shows of its lines among the list's. */
  ghost predicate ItemAt(items: seq<Item>, j: nat, lines: seq<Str>, block: Block)
    requires j < |items|
  {
    var q, r := ItemBefore(items, j), ItemBefore(items, j) + 1 + |items[j].more|;
    && r <= |lines| && block.ListBlock? && j < |block.items|
    && ItemShown(block.items[j], block.ordered, lines[q], lines[q + 1..r])
  }

  lemma {:induction false} ItemTold(items: seq<Item>, j: nat)
    requires AllTold(ItemLines(items)) && j < |items|
    ensures Told(items[j].first) && AllTold(items[j].more)
  {
    ItemStands(items, j);
    var q := ItemBefore(items, j);
    assert Told(ItemLines(items)[q]);
    forall k | 0 <= k < |items[j].more| ensures Told(items[j].more[k]) {
      assert items[j].more[k] == ItemLines(items)[q + 1..q + 1 + |items[j].more|][k] == ItemLines(items)[q + 1 + k];
    }
  }

  lemma {:induction false} ItemTextLines(items: seq<Item>, j: nat)
    requires j < |items|
    ensures var q, r, lines := ItemBefore(items, j), ItemBefore(items, j) + 1 + |items[j].more|, Texts(ItemLines(items));
            r <= |lines| && lines[q] == items[j].first.text && lines[q + 1..r] == Texts(items[j].more)
  {
    var q, r := ItemBefore(items, j), ItemBefore(items, j) + 1 + |items[j].more|;
    ItemStands(items, j);
    TextAt(ItemLines(items), q);
    TextsSlice(ItemLines(items), q + 1, r);
  }

  lemma {:induction false} ItemSpans(items: seq<Item>, j: nat)
    requires j < |items|
    ensures SpansEach(ItemTexts(items))[j] == I.Spans(ItemText(items[j]))
  {
    ItemTextAt(items, j);
    SpansEachAt(ItemTexts(items), j);
  }

  lemma {:induction false} ItemFound(items: seq<Item>, j: nat, block: Block)
    requires GoodItems(items) && AllTold(ItemLines(items)) && j < |items|
    requires block.ListBlock? && block.ordered == items[0].first.marker.value.ordered
    requires block.items == SpansEach(ItemTexts(items))
    ensures ItemAt(items, j, Texts(ItemLines(items)), block)
  {
    ItemTextLines(items, j);
    ItemSpans(items, j);
    ItemTold(items, j);
    assert GoodItem(items[j], items[0].first.marker.value.ordered);
    ItemShows(items[j], block.ordered, block.items[j]);
  }

  lemma {:induction false} ItemsFound(items: seq<Item>, block: Block)
    requires GoodItems(items) && AllTold(ItemLines(items))
    requires block.ListBlock? && block.ordered == items[0].first.marker.value.ordered
    requires block.items == SpansEach(ItemTexts(items))
    ensures forall j :: 0 <= j < |items| ==> ItemAt(items, j, Texts(ItemLines(items)), block)
  {
    forall j | 0 <= j < |items| ensures ItemAt(items, j, Texts(ItemLines(items)), block) { ItemFound(items, j, block); }
  }

  lemma {:induction false} FirstItem(items: seq<Item>)
    requires GoodItems(items) && AllTold(ItemLines(items))
    ensures ItemLines(items) != [] && M.IsItem(Texts(ItemLines(items))[0], items[0].first.marker.value)
  {
    assert items[..0] == [];
    ItemStands(items, 0);
    ItemTold(items, 0);
    TextAt(ItemLines(items), 0);
  }

  lemma ListDrawn(part: Part, block: Block)
    requires part.Items? && Good(part) && AllTold(LinesOf(part)) && [block] == Draw(part)
    ensures BlockShows(part, Texts(LinesOf(part)), block)
  {
    assert [block][0] == block;
    FirstItem(part.items);
    ItemsFound(part.items, block);
  }

  /** What the block of a part shows of the part's lines. */
  ghost predicate BlockShows(part: Part, lines: seq<Str>, block: Block) {
    match part
    case Gap(_) => true
    case Para(_) => lines != [] && block.Paragraph? && ShowsText(block.inline, JoinWith(lines, [LF]))
    case Head(_) => |lines| == 1 && exists text :: M.IsHeading(lines[0], text) && block == Paragraph([I.Strong(text)])
    case Fenced(_, body, close) =>
      && |lines| == 1 + |body| + (if close.Some? then 1 else 0) && block.CodeBlock?
      && block.text == JoinWith(lines[1..1 + |body|], [LF])
      && (exists marker :: M.IsFence(lines[0], Fence(marker, block.language)))
    case Items(items) =>
      && lines != [] && block.ListBlock? && |block.items| == |items|
      && (exists m :: M.IsItem(lines[0], m) && block.ordered == m.ordered && block.start == m.number)
      && forall j :: 0 <= j < |items| ==> ItemAt(items, j, lines, block)
  }

  lemma PartShown(part: Part, block: Block)
    requires !part.Gap? && Good(part) && AllTold(LinesOf(part)) && [block] == Draw(part)
    ensures BlockShows(part, Texts(LinesOf(part)), block)
  {
    match part
    case Para(_) => ParagraphDrawn(part, block);
    case Head(_) => HeadingDrawn(part, block);
    case Fenced(_, _, _) => CodeDrawn(part, block);
    case Items(_) => ListDrawn(part, block);
  }

  // ── From the message ───────────────────────────────────────────────────────

  /** The block of a part comes after those of the parts before it. */
  function BlockFor(parts: seq<Part>, blocks: seq<Block>, i: nat): Option<Block>
    requires i < |parts|
  {
    if Drawn(parts[..i]) < |blocks| then Some(blocks[Drawn(parts[..i])]) else None
  }

  /** The lines of a part, where they stand. */
  function LinesFor(lines: seq<Str>, parts: seq<Part>, i: nat): Option<seq<Str>>
    requires i < |parts|
  {
    var from, to := Before(parts, i), Before(parts, i) + |LinesOf(parts[i])|;
    if to <= |lines| then Some(lines[from..to]) else None
  }

  lemma Single(blocks: seq<Block>, block: Block)
    requires |blocks| == 1 && blocks[0] == block
    ensures [block] == blocks
  {
  }

  lemma {:induction false} BlockFound(parts: seq<Part>, blocks: seq<Block>, i: nat)
    requires AllGood(parts) && blocks == DrawAll(parts) && i < |parts| && !parts[i].Gap?
    ensures Good(parts[i])
    ensures BlockFor(parts, blocks, i).Some? && [BlockFor(parts, blocks, i).value] == Draw(parts[i])
  {
    BlockOfPart(parts, i);
    Single(Draw(parts[i]), blocks[Drawn(parts[..i])]);
  }

  lemma {:induction false} PartSlice(parts: seq<Part>, i: nat, all: seq<Look>) returns (from: nat, looks: seq<Look>)
    requires i < |parts| && all == AllLines(parts)
    ensures from == Before(parts, i) && looks == LinesOf(parts[i]) && from + |looks| <= |all|
    ensures all[from..from + |looks|] == looks
  {
    from, looks := Before(parts, i), LinesOf(parts[i]);
    PartStands(parts, i);
  }

  /** These are the texts of those looks. */
  predicate SameTexts(looks: seq<Look>, lines: seq<Str>) {
    |looks| == |lines| && forall j :: 0 <= j < |looks| ==> lines[j] == looks[j].text
  }

  lemma {:induction false} TextsAre(looks: seq<Look>, lines: seq<Str>)
    ensures SameTexts(looks, lines) <==> lines == Texts(looks)
  {
    forall j: nat | j < |looks| ensures Texts(looks)[j] == looks[j].text { TextAt(looks, j); }
  }

  lemma {:induction false} LinesFound(parts: seq<Part>, i: nat, all: seq<Look>, lines: seq<Str>)
    requires all == AllLines(parts) && AllTold(all) && i < |parts| && SameTexts(all, lines)
    ensures AllTold(LinesOf(parts[i])) && LinesFor(lines, parts, i).Some?
    ensures SameTexts(LinesOf(parts[i]), LinesFor(lines, parts, i).value)
  {
    var from, looks := PartSlice(parts, i, all);
    SliceFound(all, lines, looks, from);
  }

  lemma SliceFound(all: seq<Look>, lines: seq<Str>, looks: seq<Look>, from: nat)
    requires AllTold(all) && SameTexts(all, lines) && from + |looks| <= |all| && all[from..from + |looks|] == looks
    ensures AllTold(looks) && SameTexts(looks, lines[from..from + |looks|])
  {
    SliceTold(all, from, from + |looks|);
    forall j | 0 <= j < |looks| ensures lines[from..from + |looks|][j] == looks[j].text {
      assert looks[j] == all[from + j];
    }
  }

  lemma SliceTold(looks: seq<Look>, from: nat, to: nat)
    requires AllTold(looks) && from <= to <= |looks|
    ensures AllTold(looks[from..to])
  {
  }

  lemma {:induction false} BlockOfEach(parts: seq<Part>, lines: seq<Str>, blocks: seq<Block>, i: nat)
    requires SameTexts(AllLines(parts), lines) && AllTold(AllLines(parts))
    requires AllGood(parts) && blocks == DrawAll(parts) && i < |parts| && !parts[i].Gap?
    ensures BlockFor(parts, blocks, i).Some? && LinesFor(lines, parts, i).Some?
    ensures BlockShows(parts[i], LinesFor(lines, parts, i).value, BlockFor(parts, blocks, i).value)
  {
    BlockFound(parts, blocks, i);
    LinesFound(parts, i, AllLines(parts), lines);
    TextsAre(LinesOf(parts[i]), LinesFor(lines, parts, i).value);
    PartShown(parts[i], BlockFor(parts, blocks, i).value);
  }

  /** The lines of a message: its line ends made one kind, and cut there. */
  function LinesIn(source: Str): seq<Str> {
    Split(ChatQueue.LineFeeds(source))
  }

  function PartsIn(source: Str): seq<Part> {
    Parts(Looked(LinesIn(source)))
  }

  lemma MessageRead(source: Str)
    ensures var parts := PartsIn(source);
            && AllTold(AllLines(parts)) && AllGood(parts) && Blocks(source) == DrawAll(parts)
            && SameTexts(AllLines(parts), LinesIn(source))
  {
    PartsTile(Looked(LinesIn(source)));
    LookedTexts(LinesIn(source));
    TextsAre(Looked(LinesIn(source)), LinesIn(source));
    LookedTold(LinesIn(source));
  }

  /**
   * Every part of a message that is not a blank line has its block, in its place, and the
   * block shows the part's own lines: a paragraph all of them joined, a heading its text in
   * bold, a fence its body as it stands, a list each item's text with the lines under it.
   */
  lemma BlocksShowTheMessage(source: Str, i: nat)
    requires i < |PartsIn(source)| && !PartsIn(source)[i].Gap?
    ensures var lines, parts, blocks := LinesIn(source), PartsIn(source), Blocks(source);
            && BlockFor(parts, blocks, i).Some? && LinesFor(lines, parts, i).Some?
            && BlockShows(parts[i], LinesFor(lines, parts, i).value, BlockFor(parts, blocks, i).value)
  {
    MessageRead(source);
    BlockOfEach(PartsIn(source), LinesIn(source), Blocks(source), i);
  }
}
