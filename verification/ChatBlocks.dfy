/** An agent's message as paragraphs, code blocks and lists. */
module ChatBlocks {
  import opened JsText
  import opened ChatLines
  import ChatInline
  import ChatQueue

  type Spans = seq<ChatInline.Span>

  datatype Block =
    | Paragraph(inline: Spans)
    | CodeBlock(text: Str, language: Option<Str>)
    | ListBlock(ordered: bool, start: nat, items: seq<Spans>)

  /** A line beside what the patterns find in it. */
  datatype Look = Look(text: Str, trimmed: Str, fence: Option<Fence>, closing: Option<(Unit, nat)>, blank: bool,
                       marker: Option<Marker>, heading: Option<Str>)

  function LookAt(line: Str): Look {
    Look(line, Trim(line), OpeningFence(line), ClosingRun(line), Blank(line), ListMarker(line), Heading(line))
  }

  function Looked(lines: seq<Str>): (r: seq<Look>)
    ensures |r| == |lines|
  {
    if lines == [] then [] else Looked(lines[..|lines| - 1]) + [LookAt(lines[|lines| - 1])]
  }

  /** `/^\s+\S/` on a line that is not blank. */
  predicate Indented(look: Look) {
    look.text != [] && IsSpace(look.text[0])
  }

  predicate Closes(look: Look, fence: Fence) {
    fence.marker != [] && look.closing.Some? && look.closing.value.0 == fence.marker[0] && look.closing.value.1 >= |fence.marker|
  }

  /** The test on what was seen is the test on the line. */
  lemma ClosesTheLine(line: Str, fence: Fence)
    requires fence.marker != []
    ensures Closes(LookAt(line), fence) <==> ClosesFence(line, fence.marker)
  {
    ClosesByRun(line, fence.marker);
  }

  // ── The parts of a message ─────────────────────────────────────────────────

  /** One item of a list: the line with its marker, and the lines that continue it. */
  datatype Item = Item(first: Look, more: seq<Look>)

  datatype Part =
    | Gap(line: Look)
    | Para(lines: seq<Look>)
    | Head(line: Look)
    | Fenced(open: Look, body: seq<Look>, close: Option<Look>)
    | Items(items: seq<Item>)

  function ItemLines(items: seq<Item>): seq<Look> {
    if items == [] then []
    else ItemLines(items[..|items| - 1]) + [items[|items| - 1].first] + items[|items| - 1].more
  }

  function LinesOf(part: Part): seq<Look> {
    match part
    case Gap(line) => [line]
    case Para(lines) => lines
    case Head(line) => [line]
    case Fenced(first, body, close) => [first] + body + if close.Some? then [close.value] else []
    case Items(items) => ItemLines(items)
  }

  function AllLines(parts: seq<Part>): seq<Look> {
    if parts == [] then [] else AllLines(parts[..|parts| - 1]) + LinesOf(parts[|parts| - 1])
  }

  /** What makes a line no fence, no item and not blank. */
  predicate Worded(look: Look) {
    look.fence.None? && !look.blank && look.marker.None?
  }

  predicate GoodItem(item: Item, ordered: bool) {
    && item.first.fence.None? && !item.first.blank && item.first.marker.Some? && item.first.marker.value.ordered == ordered
    && forall i :: 0 <= i < |item.more| ==> Worded(item.more[i]) && Indented(item.more[i])
  }

  predicate GoodItems(items: seq<Item>) {
    items != [] && items[0].first.marker.Some?
    && forall i :: 0 <= i < |items| ==> GoodItem(items[i], items[0].first.marker.value.ordered)
  }

  predicate GoodPara(lines: seq<Look>) {
    lines != [] && forall i :: 0 <= i < |lines| ==> Worded(lines[i]) && lines[i].heading.None?
  }

  predicate GoodFence(first: Look, body: seq<Look>) {
    first.fence.Some? && forall i :: 0 <= i < |body| ==> !Closes(body[i], first.fence.value)
  }

  /** Each part is made of the lines its kind is made of. */
  predicate Good(part: Part) {
    match part
    case Gap(line) => line.blank && line.fence.None?
    case Para(lines) => GoodPara(lines)
    case Head(line) => Worded(line) && line.heading.Some?
    case Fenced(first, body, close) => GoodFence(first, body) && (close.Some? ==> Closes(close.value, first.fence.value))
    case Items(items) => GoodItems(items)
  }

  /** Where two parts meet: neither could have gone on, and only the end leaves a fence open. */
  predicate Meets(a: Part, b: Part) {
    && !(a.Para? && b.Para?)
    && !(a.Fenced? && a.close.None?)
    && (a.Items? && b.Items? ==>
          a.items != [] && b.items != [] && a.items[0].first.marker.Some? && b.items[0].first.marker.Some?
          && a.items[0].first.marker.value.ordered != b.items[0].first.marker.value.ordered)
    && (a.Items? && b.Para? ==> b.lines != [] && !Indented(b.lines[0]))
    && (a.Items? && b.Head? ==> !Indented(b.line))
  }

  // ── Reading line by line ───────────────────────────────────────────────────

  datatype Open = Nothing | InPara(lines: seq<Look>) | InList(items: seq<Item>) | InFence(first: Look, body: seq<Look>)

  datatype Reader = Reader(parts: seq<Part>, open: Open)

  function Closed(r: Reader): seq<Part> {
    match r.open
    case Nothing => r.parts
    case InPara(lines) => r.parts + [Para(lines)]
    case InList(items) => r.parts + [Items(items)]
    case InFence(first, body) => r.parts + [Fenced(first, body, None)]
  }

  function WithMore(items: seq<Item>, look: Look): seq<Item>
    requires items != []
  {
    var last := items[|items| - 1];
    items[..|items| - 1] + [Item(last.first, last.more + [look])]
  }

  function InFenceStep(r: Reader, look: Look): Reader
    requires r.open.InFence?
  {
    if r.open.first.fence.Some? && Closes(look, r.open.first.fence.value)
    then Reader(r.parts + [Fenced(r.open.first, r.open.body, Some(look))], Nothing)
    else Reader(r.parts, InFence(r.open.first, r.open.body + [look]))
  }

  predicate Continues(items: seq<Item>, ordered: bool) {
    items != [] && items[0].first.marker.Some? && items[0].first.marker.value.ordered == ordered
  }

  function MarkerStep(r: Reader, look: Look): Reader
    requires look.marker.Some?
  {
    if r.open.InList? && Continues(r.open.items, look.marker.value.ordered)
    then Reader(r.parts, InList(r.open.items + [Item(look, [])]))
    else Reader(Closed(r), InList([Item(look, [])]))
  }

  function WordsStep(r: Reader, look: Look): Reader {
    if r.open.InList? && r.open.items != [] && Indented(look) then Reader(r.parts, InList(WithMore(r.open.items, look)))
    else if look.heading.Some? then Reader(Closed(r) + [Head(look)], Nothing)
    else if r.open.InPara? then Reader(r.parts, InPara(r.open.lines + [look]))
    else Reader(Closed(r), InPara([look]))
  }

  /** What one more line does. */
  function Step(r: Reader, look: Look): Reader {
    if r.open.InFence? then InFenceStep(r, look)
    else if look.fence.Some? then Reader(Closed(r), InFence(look, []))
    else if look.blank then Reader(Closed(r) + [Gap(look)], Nothing)
    else if look.marker.Some? then MarkerStep(r, look)
    else WordsStep(r, look)
  }

  function ReadAll(looks: seq<Look>): Reader {
    if looks == [] then Reader([], Nothing) else Step(ReadAll(looks[..|looks| - 1]), looks[|looks| - 1])
  }

  function Parts(looks: seq<Look>): seq<Part> {
    Closed(ReadAll(looks))
  }

  // ── The parts are the message ──────────────────────────────────────────────

  predicate AllGood(parts: seq<Part>) {
    forall i :: 0 <= i < |parts| ==> Good(parts[i])
  }

  predicate AllMeet(parts: seq<Part>) {
    forall i :: 0 < i < |parts| ==> Meets(parts[i - 1], parts[i])
  }

  /** The parts are the lines, in order, each line in one part. */
  predicate Tiles(parts: seq<Part>, looks: seq<Look>) {
    AllGood(parts) && AllMeet(parts) && AllLines(parts) == looks
  }

  function OpenPart(open: Open): Option<Part> {
    match open
    case Nothing => None
    case InPara(lines) => Some(Para(lines))
    case InList(items) => Some(Items(items))
    case InFence(first, body) => Some(Fenced(first, body, None))
  }

  /** A part may stand after the parts before it. */
  predicate Follows(parts: seq<Part>, part: Part) {
    Good(part) && (parts != [] ==> Meets(parts[|parts| - 1], part))
  }

  predicate Reads(r: Reader, looks: seq<Look>) {
    && AllGood(r.parts) && AllMeet(r.parts)
    && (r.parts != [] && r.parts[|r.parts| - 1].Fenced? ==> r.parts[|r.parts| - 1].close.Some?)
    && (OpenPart(r.open).Some? ==> Follows(r.parts, OpenPart(r.open).value))
    && (r.open.Nothing? && r.parts != [] ==> !r.parts[|r.parts| - 1].Para? && !r.parts[|r.parts| - 1].Items?)
    && AllLines(Closed(r)) == looks
  }

  lemma LinesGrow(parts: seq<Part>, part: Part)
    ensures AllLines(parts + [part]) == AllLines(parts) + LinesOf(part)
  {
    assert (parts + [part])[..|parts|] == parts;
  }

  lemma TilesGrow(parts: seq<Part>, part: Part, looks: seq<Look>)
    requires Tiles(parts, looks) && Follows(parts, part)
    ensures Tiles(parts + [part], looks + LinesOf(part))
  {
    LinesGrow(parts, part);
  }

  lemma ClosedTiles(r: Reader, looks: seq<Look>)
    requires Reads(r, looks)
    ensures Tiles(Closed(r), looks)
  {
    if OpenPart(r.open).Some? {
      var part := OpenPart(r.open).value;
      assert Closed(r) == r.parts + [part];
    }
  }

  lemma ItemsGrow(items: seq<Item>, item: Item)
    ensures ItemLines(items + [item]) == ItemLines(items) + [item.first] + item.more
  {
    assert (items + [item])[..|items|] == items;
  }

  lemma MoreGrows(items: seq<Item>, look: Look)
    requires items != []
    ensures ItemLines(WithMore(items, look)) == ItemLines(items) + [look]
  {
    var rest, last := items[..|items| - 1], items[|items| - 1];
    ItemsGrow(rest, Item(last.first, last.more + [look]));
    assert ItemLines(rest) + [last.first] + (last.more + [look]) == ItemLines(items) + [look];
  }

  lemma OpenLines(parts: seq<Part>, open: Open)
    requires OpenPart(open).Some?
    ensures AllLines(Closed(Reader(parts, open))) == AllLines(parts) + LinesOf(OpenPart(open).value)
  {
    LinesGrow(parts, OpenPart(open).value);
  }

  lemma OneMore(a: seq<Look>, b: seq<Look>, look: Look)
    ensures a + (b + [look]) == (a + b) + [look]
  {
  }

  /** The open part takes one more line. */
  lemma OpenGrows(r: Reader, looks: seq<Look>, look: Look, open2: Open)
    requires Reads(r, looks) && OpenPart(r.open).Some? && OpenPart(open2).Some?
    requires Follows(r.parts, OpenPart(open2).value)
    requires LinesOf(OpenPart(open2).value) == LinesOf(OpenPart(r.open).value) + [look]
    ensures Reads(Reader(r.parts, open2), looks + [look])
  {
    OpenLines(r.parts, r.open);
    OpenLines(r.parts, open2);
    OneMore(AllLines(r.parts), LinesOf(OpenPart(r.open).value), look);
  }

  /** No fence is left open before the end. */
  predicate NoneOpen(parts: seq<Part>) {
    parts != [] && parts[|parts| - 1].Fenced? ==> parts[|parts| - 1].close.Some?
  }

  /** What was open is closed, and the line opens a part of its own. */
  lemma OpensNew(r: Reader, looks: seq<Look>, look: Look, open2: Open)
    requires Reads(r, looks) && NoneOpen(Closed(r)) && OpenPart(open2).Some?
    requires Follows(Closed(r), OpenPart(open2).value) && LinesOf(OpenPart(open2).value) == [look]
    ensures Reads(Reader(Closed(r), open2), looks + [look])
  {
    var part2 := OpenPart(open2).value;
    ClosedTiles(r, looks);
    assert Closed(Reader(Closed(r), open2)) == Closed(r) + [part2];
    LinesGrow(Closed(r), part2);
  }

  /** What was open is closed, and the line is a part of its own. */
  lemma Sealed(r: Reader, looks: seq<Look>, look: Look, part: Part)
    requires Reads(r, looks) && Follows(Closed(r), part) && LinesOf(part) == [look]
    requires part.Gap? || part.Head?
    ensures Reads(Reader(Closed(r) + [part], Nothing), looks + [look])
  {
    ClosedTiles(r, looks);
    TilesGrow(Closed(r), part, looks);
  }

  lemma FenceCloses(r: Reader, looks: seq<Look>, look: Look, part: Part)
    requires Reads(r, looks) && r.open.InFence? && part == Fenced(r.open.first, r.open.body, Some(look)) && Good(part)
    ensures Reads(Reader(r.parts + [part], Nothing), looks + [look])
  {
    var first, body := r.open.first, r.open.body;
    LinesGrow(r.parts, Fenced(first, body, None));
    LinesGrow(r.parts, part);
    LastLine(AllLines(r.parts), [first] + body, look);
    PartsGrow(r.parts, part);
  }

  lemma LastLine(a: seq<Look>, b: seq<Look>, look: Look)
    ensures a + (b + [look]) == (a + (b + [])) + [look]
  {
  }

  lemma PartsGrow(parts: seq<Part>, part: Part)
    requires AllGood(parts) && AllMeet(parts) && Follows(parts, part)
    ensures AllGood(parts + [part]) && AllMeet(parts + [part])
  {
  }

  lemma FenceGoesOn(r: Reader, looks: seq<Look>, look: Look, open2: Open)
    requires Reads(r, looks) && r.open.InFence? && open2 == InFence(r.open.first, r.open.body + [look])
    requires GoodFence(open2.first, open2.body)
    ensures Reads(Reader(r.parts, open2), looks + [look])
  {
    assert [r.open.first] + (r.open.body + [look]) + [] == ([r.open.first] + r.open.body + []) + [look];
    OpenGrows(r, looks, look, open2);
  }

  lemma FenceReads(r: Reader, looks: seq<Look>, look: Look)
    requires Reads(r, looks) && r.open.InFence?
    ensures Reads(InFenceStep(r, look), looks + [look])
  {
    var first, body := r.open.first, r.open.body;
    if Closes(look, first.fence.value) {
      FenceCloses(r, looks, look, Fenced(first, body, Some(look)));
    } else {
      FenceGoesOn(r, looks, look, InFence(first, body + [look]));
    }
  }

  lemma ItemJoins(r: Reader, looks: seq<Look>, look: Look, items2: seq<Item>)
    requires Reads(r, looks) && r.open.InList? && items2 == r.open.items + [Item(look, [])]
    requires look.fence.None? && !look.blank && look.marker.Some? && Continues(r.open.items, look.marker.value.ordered)
    ensures Reads(Reader(r.parts, InList(items2)), looks + [look])
  {
    ItemsGrow(r.open.items, Item(look, []));
    assert ItemLines(r.open.items) + [look] + [] == ItemLines(r.open.items) + [look];
    assert items2[0] == r.open.items[0];
    OpenGrows(r, looks, look, InList(items2));
  }

  lemma ItemOpens(r: Reader, looks: seq<Look>, look: Look, items: seq<Item>)
    requires Reads(r, looks) && !r.open.InFence? && items == [Item(look, [])]
    requires look.fence.None? && !look.blank && look.marker.Some?
    requires r.open.InList? ==> !Continues(r.open.items, look.marker.value.ordered)
    ensures Reads(Reader(Closed(r), InList(items)), looks + [look])
  {
    ItemsGrow([], items[0]);
    assert [] + items == items;
    assert GoodItem(items[0], look.marker.value.ordered);
    OpensNew(r, looks, look, InList(items));
  }

  lemma MarkerReads(r: Reader, looks: seq<Look>, look: Look)
    requires Reads(r, looks) && !r.open.InFence? && look.fence.None? && !look.blank && look.marker.Some?
    ensures Reads(MarkerStep(r, look), looks + [look])
  {
    if r.open.InList? && Continues(r.open.items, look.marker.value.ordered) {
      ItemJoins(r, looks, look, r.open.items + [Item(look, [])]);
    } else {
      ItemOpens(r, looks, look, [Item(look, [])]);
    }
  }

  lemma ItemGoesOn(r: Reader, looks: seq<Look>, look: Look, items2: seq<Item>)
    requires Reads(r, looks) && r.open.InList? && r.open.items != [] && Worded(look) && Indented(look)
    requires items2 == WithMore(r.open.items, look)
    ensures Reads(Reader(r.parts, InList(items2)), looks + [look])
  {
    MoreGrows(r.open.items, look);
    MoreIsGood(r.open.items, look);
    OpenGrows(r, looks, look, InList(items2));
  }

  lemma ParaGoesOn(r: Reader, looks: seq<Look>, look: Look, lines2: seq<Look>)
    requires Reads(r, looks) && r.open.InPara? && Worded(look) && look.heading.None?
    requires lines2 == r.open.lines + [look]
    ensures Reads(Reader(r.parts, InPara(lines2)), looks + [look])
  {
    assert r.open.lines != [] && lines2[0] == r.open.lines[0];
    OpenGrows(r, looks, look, InPara(lines2));
  }

  lemma ParaOpensHere(r: Reader, looks: seq<Look>, look: Look)
    requires Reads(r, looks) && !r.open.InFence? && !r.open.InPara? && Worded(look) && look.heading.None?
    requires r.open.InList? ==> !Indented(look)
    ensures Reads(Reader(Closed(r), InPara([look])), looks + [look])
  {
    OpensNew(r, looks, look, InPara([look]));
  }

  lemma HeadingStands(r: Reader, looks: seq<Look>, look: Look)
    requires Reads(r, looks) && !r.open.InFence? && Worded(look) && look.heading.Some?
    requires r.open.InList? ==> !Indented(look)
    ensures Reads(Reader(Closed(r) + [Head(look)], Nothing), looks + [look])
  {
    Sealed(r, looks, look, Head(look));
  }

  lemma WordsReads(r: Reader, looks: seq<Look>, look: Look)
    requires Reads(r, looks) && !r.open.InFence? && Worded(look)
    ensures Reads(WordsStep(r, look), looks + [look])
  {
    if r.open.InList? && Indented(look) {
      assert r.open.items != [];
      ItemGoesOn(r, looks, look, WithMore(r.open.items, look));
    } else if look.heading.Some? {
      HeadingStands(r, looks, look);
    } else if r.open.InPara? {
      ParaGoesOn(r, looks, look, r.open.lines + [look]);
    } else {
      ParaOpensHere(r, looks, look);
    }
  }

  lemma MoreIsGood(items: seq<Item>, look: Look)
    requires GoodItems(items) && Worded(look) && Indented(look)
    ensures GoodItems(WithMore(items, look)) && WithMore(items, look)[0].first == items[0].first
  {
    var more := WithMore(items, look);
    assert forall i :: 0 <= i < |items| ==> more[i].first == items[i].first;
    forall i | 0 <= i < |more| ensures GoodItem(more[i], items[0].first.marker.value.ordered) {
      assert GoodItem(items[i], items[0].first.marker.value.ordered);
    }
  }

  lemma StepReads(r: Reader, looks: seq<Look>, look: Look, next: Reader)
    requires Reads(r, looks) && next == Step(r, look)
    ensures Reads(next, looks + [look])
  {
    if r.open.InFence? {
      FenceReads(r, looks, look);
    } else if look.fence.Some? {
      OpensNew(r, looks, look, InFence(look, []));
    } else if look.blank {
      Sealed(r, looks, look, Gap(look));
    } else if look.marker.Some? {
      MarkerReads(r, looks, look);
    } else {
      WordsReads(r, looks, look);
    }
  }

  lemma {:induction false} AllReads(looks: seq<Look>)
    ensures Reads(ReadAll(looks), looks)
  {
    if looks != [] {
      var rest, last := looks[..|looks| - 1], looks[|looks| - 1];
      AllReads(rest);
      assert rest + [last] == looks;
      StepReads(ReadAll(rest), rest, last, ReadAll(looks));
    }
  }

  /** Every line of the message is in exactly one part, in order, and each part is what its lines say. */
  lemma PartsTile(looks: seq<Look>)
    ensures Tiles(Parts(looks), looks)
  {
    AllReads(looks);
    ClosedTiles(ReadAll(looks), looks);
  }

  // ── What is drawn ──────────────────────────────────────────────────────────

  function Texts(looks: seq<Look>): (r: seq<Str>)
    ensures |r| == |looks|
  {
    if looks == [] then [] else Texts(looks[..|looks| - 1]) + [looks[|looks| - 1].text]
  }

  function WithLines(text: Str, more: seq<Look>): Str {
    if more == [] then text else WithLines(text, more[..|more| - 1]) + [LF] + more[|more| - 1].trimmed
  }

  /** An item reads as what follows its marker, and the trimmed lines that continue it. */
  function ItemText(item: Item): Str {
    WithLines(if item.first.marker.Some? then item.first.marker.value.text else [], item.more)
  }

  function ItemTexts(items: seq<Item>): (r: seq<Str>)
    ensures |r| == |items|
  {
    if items == [] then [] else ItemTexts(items[..|items| - 1]) + [ItemText(items[|items| - 1])]
  }

  function SpansEach(texts: seq<Str>): (r: seq<Spans>)
    ensures |r| == |texts|
  {
    if texts == [] then [] else SpansEach(texts[..|texts| - 1]) + [ChatInline.Spans(texts[|texts| - 1])]
  }

  function DrawPara(texts: seq<Str>): Block {
    Paragraph(ChatInline.Spans(JoinWith(texts, [LF])))
  }

  function DrawFence(fence: Fence, texts: seq<Str>): Block {
    CodeBlock(JoinWith(texts, [LF]), fence.language)
  }

  function DrawList(marker: Marker, texts: seq<Str>): Block {
    ListBlock(marker.ordered, marker.number, SpansEach(texts))
  }

  /** A gap draws nothing; every other part draws one block. */
  function Draw(part: Part): seq<Block> {
    match part
    case Gap(_) => []
    case Para(lines) => [DrawPara(Texts(lines))]
    case Head(line) => [Paragraph([ChatInline.Strong(if line.heading.Some? then line.heading.value else [])])]
    case Fenced(first, body, _) => if first.fence.Some? then [DrawFence(first.fence.value, Texts(body))] else []
    case Items(items) =>
      if items != [] && items[0].first.marker.Some? then [DrawList(items[0].first.marker.value, ItemTexts(items))] else []
  }

  function DrawAll(parts: seq<Part>): seq<Block> {
    if parts == [] then [] else DrawAll(parts[..|parts| - 1]) + Draw(parts[|parts| - 1])
  }

  /** The blocks of a message. */
  function Blocks(source: Str): seq<Block> {
    DrawAll(Parts(Looked(Split(ChatQueue.LineFeeds(source)))))
  }

  // ── The splitter ───────────────────────────────────────────────────────────

  datatype OpenList = OpenList(marker: Marker, items: seq<Str>)

  /** What the loop's variables hold of a reader that is in no fence. */
  predicate Held(r: Reader, paragraph: seq<Str>, list: Option<OpenList>) {
    match r.open
    case Nothing => paragraph == [] && list.None?
    case InPara(lines) => paragraph == Texts(lines) && paragraph != [] && list.None?
    case InList(items) =>
      && paragraph == [] && items != [] && items[0].first.marker.Some?
      && list == Some(OpenList(items[0].first.marker.value, ItemTexts(items)))
    case InFence(_, _) => false
  }

  method ReadBlocks(source: Str) returns (blocks: seq<Block>)
    ensures blocks == Blocks(source)
  {
    blocks := BuildBlocks(Looked(Split(ChatQueue.LineFeeds(source))));
  }

  method ReadItems(texts: seq<Str>) returns (items: seq<Spans>)
    ensures items == SpansEach(texts)
  {
    items := [];
    for i := 0 to |texts|
      invariant items == SpansEach(texts[..i])
    {
      var spans := ChatInline.ReadInline(texts[i]);
      assert texts[..i + 1][..i] == texts[..i];
      items := items + [spans];
    }
    assert texts[..|texts|] == texts;
  }

  lemma DrawGrows(parts: seq<Part>, part: Part)
    ensures DrawAll(parts + [part]) == DrawAll(parts) + Draw(part)
  {
    assert (parts + [part])[..|parts|] == parts;
  }

  /** `flushParagraph` and `flushList`; at most one of them has something to do. */
  method Flush(blocks: seq<Block>, paragraph: seq<Str>, list: Option<OpenList>, ghost r: Reader) returns (flushed: seq<Block>)
    requires Held(r, paragraph, list) && blocks == DrawAll(r.parts)
    ensures flushed == DrawAll(Closed(r))
  {
    flushed := blocks;
    if paragraph != [] {
      assert r.open.InPara?;
      DrawGrows(r.parts, Para(r.open.lines));
      var inline := ChatInline.ReadInline(JoinWith(paragraph, [LF]));
      flushed := flushed + [Paragraph(inline)];
      assert flushed == DrawAll(Closed(r));
    }
    if list.Some? {
      assert r.open.InList? && paragraph == [];
      DrawGrows(r.parts, Items(r.open.items));
      var items := ReadItems(list.value.items);
      flushed := flushed + [ListBlock(list.value.marker.ordered, list.value.marker.number, items)];
    }
  }

  lemma NextLine(looks: seq<Look>, index: nat)
    requires index < |looks|
    ensures ReadAll(looks[..index + 1]) == Step(ReadAll(looks[..index]), looks[index])
  {
    assert looks[..index + 1][..index] == looks[..index];
  }

  lemma TextsGrow(looks: seq<Look>, look: Look)
    ensures Texts(looks + [look]) == Texts(looks) + [look.text]
  {
    assert (looks + [look])[..|looks|] == looks;
  }

  lemma ItemTextsGrow(items: seq<Item>, item: Item)
    ensures ItemTexts(items + [item]) == ItemTexts(items) + [ItemText(item)]
  {
    assert (items + [item])[..|items|] == items;
  }

  lemma MoreTexts(items: seq<Item>, look: Look)
    requires items != []
    ensures var texts, n := ItemTexts(items), |items| - 1;
            ItemTexts(WithMore(items, look)) == texts[n := texts[n] + [LF] + look.trimmed]
  {
    var rest, last := items[..|items| - 1], items[|items| - 1];
    ItemTextsGrow(rest, Item(last.first, last.more + [look]));
    LongerItem(last, look);
    LastReplaced(ItemTexts(rest), ItemText(last), ItemText(last) + [LF] + look.trimmed);
  }

  lemma LongerItem(item: Item, look: Look)
    ensures ItemText(Item(item.first, item.more + [look])) == ItemText(item) + [LF] + look.trimmed
  {
    assert (item.more + [look])[..|item.more|] == item.more;
  }

  lemma LastReplaced(texts: seq<Str>, x: Str, y: Str)
    ensures (texts + [x])[|texts| := y] == texts + [y]
  {
  }

  lemma OneItem(look: Look)
    requires look.marker.Some?
    ensures ItemText(Item(look, [])) == look.marker.value.text
    ensures ItemTexts([Item(look, [])]) == [look.marker.value.text]
  {
    ItemTextsGrow([], Item(look, []));
    assert [] + [Item(look, [])] == [Item(look, [])];
  }

  /** A line with a marker: into the list that is open, or into a new one. */
  method TakeItem(blocks: seq<Block>, paragraph: seq<Str>, list: Option<OpenList>, look: Look, ghost r: Reader)
    returns (blocks': seq<Block>, list': Option<OpenList>)
    requires Held(r, paragraph, list) && blocks == DrawAll(r.parts) && look.marker.Some?
    ensures Held(MarkerStep(r, look), [], list') && blocks' == DrawAll(MarkerStep(r, look).parts)
  {
    var marker := look.marker.value;
    OneItem(look);
    if list.Some? && list.value.marker.ordered == marker.ordered {
      ItemTextsGrow(r.open.items, Item(look, []));
      blocks', list' := blocks, Some(OpenList(list.value.marker, list.value.items + [marker.text]));
    } else {
      blocks' := Flush(blocks, paragraph, list, r);
      list' := Some(OpenList(marker, [marker.text]));
    }
  }

  /** An indented line under an item. */
  method TakeMore(list: OpenList, look: Look, ghost items: seq<Item>) returns (list': OpenList)
    requires items != [] && list.items == ItemTexts(items)
    ensures list'.marker == list.marker && list'.items == ItemTexts(WithMore(items, look))
  {
    MoreTexts(items, look);
    var texts := list.items;
    var n := |texts| - 1;
    list' := list.(items := texts[n := texts[n] + [LF] + look.trimmed]);
  }

  /** A line of words: it continues an item, is a heading, or belongs to a paragraph. */
  method TakeWords(blocks: seq<Block>, paragraph: seq<Str>, list: Option<OpenList>, look: Look, ghost r: Reader)
    returns (blocks': seq<Block>, paragraph': seq<Str>, list': Option<OpenList>)
    requires Held(r, paragraph, list) && blocks == DrawAll(r.parts)
    ensures Held(WordsStep(r, look), paragraph', list') && blocks' == DrawAll(WordsStep(r, look).parts)
  {
    if list.Some? && Indented(look) {
      assert r.open.InList?;
      var more := TakeMore(list.value, look, r.open.items);
      FirstStays(r.open.items, look);
      blocks', paragraph', list' := blocks, paragraph, Some(more);
    } else if look.heading.Some? {
      blocks' := Flush(blocks, paragraph, list, r);
      DrawGrows(Closed(r), Head(look));
      blocks', paragraph', list' := blocks' + [Paragraph([ChatInline.Strong(look.heading.value)])], [], None;
    } else if paragraph != [] {
      assert r.open.InPara?;
      TextsGrow(r.open.lines, look);
      blocks', paragraph', list' := blocks, paragraph + [look.text], None;
    } else {
      assert !r.open.InPara?;
      blocks' := Flush(blocks, paragraph, list, r);
      TextsGrow([], look);
      assert [] + [look] == [look];
      paragraph', list' := [look.text], None;
    }
  }

  lemma FirstStays(items: seq<Item>, look: Look)
    requires items != []
    ensures WithMore(items, look) != [] && WithMore(items, look)[0].first == items[0].first
  {
  }

  lemma FenceLine(looks: seq<Look>, index: nat, r: Reader)
    requires index < |looks| && ReadAll(looks[..index]) == r && r.open.InFence?
    ensures ReadAll(looks[..index + 1]) == InFenceStep(r, looks[index])
  {
    NextLine(looks, index);
  }

  lemma FenceOpens(looks: seq<Look>, index: nat, r: Reader)
    requires index < |looks| && ReadAll(looks[..index]) == r && !r.open.InFence? && looks[index].fence.Some?
    ensures ReadAll(looks[..index + 1]) == Reader(Closed(r), InFence(looks[index], []))
  {
    NextLine(looks, index);
  }

  /** The reader after a fence: closed by a line, or open at the end. */
  function FenceRead(parts: seq<Part>, first: Look, lines: seq<Look>, close: Option<Look>): Reader {
    if close.Some? then Reader(parts + [Fenced(first, lines, close)], Nothing) else Reader(parts, InFence(first, lines))
  }

  lemma FenceDrawn(parts: seq<Part>, first: Look, lines: seq<Look>, close: Option<Look>)
    requires first.fence.Some?
    ensures DrawAll(Closed(FenceRead(parts, first, lines, close))) == DrawAll(parts) + [DrawFence(first.fence.value, Texts(lines))]
  {
    DrawGrows(parts, Fenced(first, lines, close));
  }

  /** The body of a fence: every line up to one that closes it, or to the end. */
  method ReadFence(looks: seq<Look>, index: nat, ghost parts: seq<Part>)
    returns (body: seq<Str>, next: nat, ghost lines: seq<Look>, ghost close: Option<Look>)
    requires index < |looks| && looks[index].fence.Some?
    requires ReadAll(looks[..index + 1]) == Reader(parts, InFence(looks[index], []))
    ensures index < next <= |looks| && body == Texts(lines)
    ensures ReadAll(looks[..next]) == FenceRead(parts, looks[index], lines, close) && (close.None? ==> next == |looks|)
  {
    var fence := looks[index].fence.value;
    body, lines, next, close := [], [], index + 1, None;
    while next < |looks| && !Closes(looks[next], fence)
      invariant index < next <= |looks| && body == Texts(lines)
      invariant ReadAll(looks[..next]) == Reader(parts, InFence(looks[index], lines))
    {
      FenceLine(looks, next, Reader(parts, InFence(looks[index], lines)));
      TextsGrow(lines, looks[next]);
      body, lines := body + [looks[next].text], lines + [looks[next]];
      next := next + 1;
    }
    if next < |looks| {
      FenceLine(looks, next, Reader(parts, InFence(looks[index], lines)));
      close, next := Some(looks[next]), next + 1;
    }
  }

  /** A line outside any fence that opens none. */
  method TakeLine(blocks: seq<Block>, paragraph: seq<Str>, list: Option<OpenList>, look: Look, ghost r: Reader)
    returns (blocks': seq<Block>, paragraph': seq<Str>, list': Option<OpenList>)
    requires Held(r, paragraph, list) && blocks == DrawAll(r.parts) && look.fence.None?
    ensures Held(Step(r, look), paragraph', list') && blocks' == DrawAll(Step(r, look).parts)
  {
    if look.blank {
      blocks' := Flush(blocks, paragraph, list, r);
      DrawGrows(Closed(r), Gap(look));
      paragraph', list' := [], None;
    } else if look.marker.Some? {
      blocks', list' := TakeItem(blocks, paragraph, list, look, r);
      paragraph' := [];
    } else {
      blocks', paragraph', list' := TakeWords(blocks, paragraph, list, look, r);
    }
  }

  /** A line that opens a fence, with all the fence holds. */
  method TakeFence(blocks: seq<Block>, paragraph: seq<Str>, list: Option<OpenList>, looks: seq<Look>, index: nat)
    returns (blocks': seq<Block>, next: nat)
    requires index < |looks| && looks[index].fence.Some?
    requires Held(ReadAll(looks[..index]), paragraph, list) && blocks == DrawAll(ReadAll(looks[..index]).parts)
    ensures index < next <= |looks| && blocks' == DrawAll(Closed(ReadAll(looks[..next])))
    ensures ReadAll(looks[..next]).open.Nothing? || (ReadAll(looks[..next]).open.InFence? && next == |looks|)
  {
    ghost var r := ReadAll(looks[..index]);
    FenceOpens(looks, index, r);
    blocks' := Flush(blocks, paragraph, list, r);
    var body, end, lines, close := ReadFence(looks, index, Closed(r));
    FenceDrawn(Closed(r), looks[index], lines, close);
    blocks', next := blocks' + [DrawFence(looks[index].fence.value, body)], end;
  }

  method BuildBlocks(looks: seq<Look>) returns (blocks: seq<Block>)
    ensures blocks == DrawAll(Parts(looks))
  {
    blocks := [];
    var paragraph: seq<Str> := [];
    var list: Option<OpenList> := None;
    ghost var r := Reader([], Nothing);
    var index := 0;
    while index < |looks|
      invariant index <= |looks| && r == ReadAll(looks[..index])
      invariant !r.open.InFence? ==> Held(r, paragraph, list) && blocks == DrawAll(r.parts)
      invariant r.open.InFence? ==> index == |looks| && paragraph == [] && list.None? && blocks == DrawAll(Closed(r))
      decreases |looks| - index
    {
      if looks[index].fence.Some? {
        blocks, index := TakeFence(blocks, paragraph, list, looks, index);
        paragraph, list := [], None;
      } else {
        NextLine(looks, index);
        blocks, paragraph, list := TakeLine(blocks, paragraph, list, looks[index], r);
        index := index + 1;
      }
      r := ReadAll(looks[..index]);
    }
    assert looks[..|looks|] == looks;
    blocks := Flush(blocks, paragraph, list, if r.open.InFence? then Reader(Closed(r), Nothing) else r);
  }
}
