/** What the blocks of a message keep of it, and that no other reading of its lines is possible. */
module ChatReading {
  import opened JsText
  import opened ChatBlocks
  import opened ChatLines
  import ChatQueue

  // ── The reading is the only one ────────────────────────────────────────────

  function StepAll(r: Reader, looks: seq<Look>): Reader {
    if looks == [] then r else Step(StepAll(r, looks[..|looks| - 1]), looks[|looks| - 1])
  }

  lemma StepLast(r: Reader, looks: seq<Look>, look: Look)
    ensures StepAll(r, looks + [look]) == Step(StepAll(r, looks), look)
  {
    assert (looks + [look])[..|looks|] == looks;
  }

  lemma {:induction false} StepConcat(r: Reader, a: seq<Look>, b: seq<Look>)
    ensures StepAll(r, a + b) == StepAll(StepAll(r, a), b)
    decreases |b|
  {
    if b == [] {
      assert a + b == a;
    } else {
      var rest, last := b[..|b| - 1], b[|b| - 1];
      assert a + b == (a + rest) + [last];
      StepConcat(r, a, rest);
      StepLast(r, a + rest, last);
    }
  }

  lemma {:induction false} ReadIsStep(looks: seq<Look>)
    ensures ReadAll(looks) == StepAll(Reader([], Nothing), looks)
  {
    if looks != [] {
      ReadIsStep(looks[..|looks| - 1]);
    }
  }

  /** The reader after these parts: the last one may still be going on. */
  function After(parts: seq<Part>): Reader {
    if parts == [] then Reader([], Nothing)
    else
      var rest := parts[..|parts| - 1];
      match parts[|parts| - 1]
      case Para(lines) => Reader(rest, InPara(lines))
      case Items(items) => Reader(rest, InList(items))
      case Fenced(first, body, None) => Reader(rest, InFence(first, body))
      case Fenced(_, _, Some(_)) => Reader(parts, Nothing)
      case Gap(_) => Reader(parts, Nothing)
      case Head(_) => Reader(parts, Nothing)
  }

  lemma AfterCloses(parts: seq<Part>)
    ensures Closed(After(parts)) == parts
  {
    if parts != [] {
      assert parts == parts[..|parts| - 1] + [parts[|parts| - 1]];
    }
  }

  lemma AfterMore(parts: seq<Part>, part: Part)
    ensures var r := After(parts + [part]);
            match part
            case Para(lines) => r == Reader(parts, InPara(lines))
            case Items(items) => r == Reader(parts, InList(items))
            case Fenced(first, body, None) => r == Reader(parts, InFence(first, body))
            case Fenced(_, _, Some(_)) => r == Reader(parts + [part], Nothing)
            case Gap(_) => r == Reader(parts + [part], Nothing)
            case Head(_) => r == Reader(parts + [part], Nothing)
  {
    assert (parts + [part])[..|parts|] == parts;
  }

  lemma ParaOpens(parts: seq<Part>, line: Look)
    requires Follows(parts, Para([line]))
    ensures Step(After(parts), line) == Reader(parts, InPara([line]))
  {
    AfterCloses(parts);
    assert [line][0] == line && Worded(line);
  }

  lemma ParaShorter(parts: seq<Part>, lines: seq<Look>, k: nat)
    requires Follows(parts, Para(lines)) && 0 < k <= |lines|
    ensures Follows(parts, Para(lines[..k]))
  {
    assert lines[..k][0] == lines[0];
  }

  lemma {:induction false} ParaSteps(parts: seq<Part>, lines: seq<Look>)
    requires Follows(parts, Para(lines))
    ensures StepAll(After(parts), lines) == Reader(parts, InPara(lines))
  {
    var n := |lines| - 1;
    var rest, last := lines[..n], lines[n];
    assert lines == rest + [last];
    StepLast(After(parts), rest, last);
    if n == 0 {
      assert lines == [last];
      ParaOpens(parts, last);
    } else {
      ParaShorter(parts, lines, n);
      ParaSteps(parts, rest);
    }
  }

  lemma {:induction false} BodySteps(parts: seq<Part>, first: Look, body: seq<Look>)
    requires GoodFence(first, body)
    ensures StepAll(Reader(parts, InFence(first, [])), body) == Reader(parts, InFence(first, body))
  {
    if body != [] {
      var rest, last := body[..|body| - 1], body[|body| - 1];
      assert body == rest + [last];
      BodySteps(parts, first, rest);
      StepLast(Reader(parts, InFence(first, [])), rest, last);
    }
  }

  lemma FenceOpens(parts: seq<Part>, first: Look)
    requires first.fence.Some? && (parts == [] || !(parts[|parts| - 1].Fenced? && parts[|parts| - 1].close.None?))
    ensures StepAll(After(parts), [first]) == Reader(parts, InFence(first, []))
  {
    AfterCloses(parts);
    StepLast(After(parts), [], first);
    assert [] + [first] == [first] && StepAll(After(parts), []) == After(parts);
  }

  lemma FenceBody(parts: seq<Part>, first: Look, body: seq<Look>)
    requires GoodFence(first, body) && StepAll(After(parts), [first]) == Reader(parts, InFence(first, []))
    ensures StepAll(After(parts), [first] + body) == Reader(parts, InFence(first, body))
  {
    StepConcat(After(parts), [first], body);
    BodySteps(parts, first, body);
  }

  lemma FenceSteps(parts: seq<Part>, first: Look, body: seq<Look>, close: Option<Look>)
    requires Follows(parts, Fenced(first, body, close))
    ensures StepAll(After(parts), LinesOf(Fenced(first, body, close))) == After(parts + [Fenced(first, body, close)])
  {
    AfterMore(parts, Fenced(first, body, close));
    FenceOpens(parts, first);
    FenceBody(parts, first, body);
    if close.Some? {
      StepLast(After(parts), [first] + body, close.value);
    } else {
      assert [first] + body + [] == [first] + body;
    }
  }

  lemma {:induction false} MoreSteps(parts: seq<Part>, items: seq<Item>, first: Look, more: seq<Look>)
    requires forall i :: 0 <= i < |more| ==> Worded(more[i]) && Indented(more[i])
    ensures StepAll(Reader(parts, InList(items + [Item(first, [])])), more) == Reader(parts, InList(items + [Item(first, more)]))
  {
    if more != [] {
      var rest, last := more[..|more| - 1], more[|more| - 1];
      assert more == rest + [last];
      MoreSteps(parts, items, first, rest);
      StepLast(Reader(parts, InList(items + [Item(first, [])])), rest, last);
      WithMoreLast(items, first, rest, last);
    }
  }

  lemma WithMoreLast(items: seq<Item>, first: Look, more: seq<Look>, look: Look)
    ensures WithMore(items + [Item(first, more)], look) == items + [Item(first, more + [look])]
  {
    assert (items + [Item(first, more)])[..|items|] == items;
  }

  lemma ItemStep(parts: seq<Part>, items: seq<Item>, item: Item)
    requires GoodItems(items + [item]) && Follows(parts, Items(items + [item]))
    ensures var r := if items == [] then After(parts) else Reader(parts, InList(items));
            Step(r, item.first) == Reader(parts, InList(items + [Item(item.first, [])]))
  {
    AfterCloses(parts);
    assert (items + [item])[|items|] == item;
    assert GoodItem(item, (items + [item])[0].first.marker.value.ordered);
    if items == [] {
      assert items + [Item(item.first, [])] == [Item(item.first, [])];
    } else {
      assert (items + [item])[0] == items[0];
    }
  }

  lemma {:induction false} ItemsSteps(parts: seq<Part>, items: seq<Item>)
    requires GoodItems(items) && Follows(parts, Items(items))
    ensures StepAll(After(parts), ItemLines(items)) == Reader(parts, InList(items))
  {
    var rest, last := items[..|items| - 1], items[|items| - 1];
    assert items == rest + [last];
    var r := After(parts);
    if rest != [] {
      RestGood(parts, items);
      ItemsSteps(parts, rest);
    }
    ItemStep(parts, rest, last);
    StepLast(r, ItemLines(rest), last.first);
    StepConcat(r, ItemLines(rest) + [last.first], last.more);
    assert GoodItem(last, items[0].first.marker.value.ordered);
    MoreSteps(parts, rest, last.first, last.more);
  }

  lemma RestGood(parts: seq<Part>, items: seq<Item>)
    requires GoodItems(items) && Follows(parts, Items(items)) && |items| > 1
    ensures GoodItems(items[..|items| - 1]) && Follows(parts, Items(items[..|items| - 1]))
  {
    assert items[..|items| - 1][0] == items[0];
  }

  lemma LineSteps(parts: seq<Part>, line: Look, part: Part)
    requires Follows(parts, part) && (part == Gap(line) || part == Head(line))
    ensures StepAll(After(parts), [line]) == After(parts + [part])
  {
    AfterCloses(parts);
    AfterMore(parts, part);
    StepLast(After(parts), [], line);
    assert [] + [line] == [line] && StepAll(After(parts), []) == After(parts);
  }

  lemma PartSteps(parts: seq<Part>, part: Part)
    requires Follows(parts, part)
    ensures StepAll(After(parts), LinesOf(part)) == After(parts + [part])
  {
    AfterMore(parts, part);
    match part
    case Gap(line) => LineSteps(parts, line, part);
    case Head(line) => LineSteps(parts, line, part);
    case Para(lines) => ParaSteps(parts, lines);
    case Items(items) => ItemsSteps(parts, items);
    case Fenced(first, body, close) => FenceSteps(parts, first, body, close);
  }

  lemma {:induction false} PartsSteps(parts: seq<Part>)
    requires AllGood(parts) && AllMeet(parts)
    ensures ReadAll(AllLines(parts)) == After(parts)
  {
    if parts != [] {
      var rest, last := parts[..|parts| - 1], parts[|parts| - 1];
      assert parts == rest + [last];
      PartsSteps(rest);
      ReadIsStep(AllLines(rest));
      ReadIsStep(AllLines(parts));
      StepConcat(Reader([], Nothing), AllLines(rest), LinesOf(last));
      PartSteps(rest, last);
    }
  }

  /** A division of the lines into well-formed parts that could not have gone on is the reading, and the reading is one. */
  lemma OnlyOneReading(looks: seq<Look>, parts: seq<Part>)
    ensures Tiles(parts, looks) <==> parts == Parts(looks)
  {
    PartsTile(looks);
    if Tiles(parts, looks) {
      PartsSteps(parts);
      AfterCloses(parts);
    }
  }

  // ── From the message to its blocks ─────────────────────────────────────────

  lemma {:induction false} LookedTexts(lines: seq<Str>)
    ensures Texts(Looked(lines)) == lines
  {
    if lines != [] {
      var rest, last := lines[..|lines| - 1], lines[|lines| - 1];
      LookedTexts(rest);
      TextsGrow(Looked(rest), LookAt(last));
      assert lines == rest + [last];
    }
  }

  /** The parts that draw something. */
  function Drawn(parts: seq<Part>): nat {
    if parts == [] then 0 else Drawn(parts[..|parts| - 1]) + if parts[|parts| - 1].Gap? then 0 else 1
  }

  lemma {:induction false} OneBlockEach(parts: seq<Part>)
    requires AllGood(parts)
    ensures |DrawAll(parts)| == Drawn(parts)
  {
    if parts != [] {
      assert Good(parts[|parts| - 1]);
      OneBlockEach(parts[..|parts| - 1]);
    }
  }

  /**
   * The lines of the parts, put together, are the message with its line ends made one
   * kind. Only blank lines draw nothing, and every other part draws one block.
   */
  lemma MessageKept(source: Str)
    ensures var parts := Parts(Looked(Split(ChatQueue.LineFeeds(source))));
            && JoinWith(Texts(AllLines(parts)), [LF]) == ChatQueue.LineFeeds(source)
            && |Blocks(source)| == Drawn(parts)
            && forall i :: 0 <= i < |parts| && parts[i].Gap? ==> parts[i].line.blank
  {
    var text := ChatQueue.LineFeeds(source);
    var looks := Looked(Split(text));
    PartsTile(looks);
    LookedTexts(Split(text));
    SplitJoins(text);
    OneBlockEach(Parts(looks));
    forall i | 0 <= i < |Parts(looks)| && Parts(looks)[i].Gap? ensures Parts(looks)[i].line.blank {
      assert Good(Parts(looks)[i]);
    }
  }

  lemma {:induction false} TextAt(looks: seq<Look>, i: nat)
    requires i < |looks|
    ensures Texts(looks)[i] == looks[i].text
  {
    if i < |looks| - 1 {
      TextAt(looks[..|looks| - 1], i);
    }
  }

  /** A fence draws its body's lines as they stand. */
  lemma FenceVerbatim(fence: Fence, body: seq<Look>)
    requires forall i :: 0 <= i < |body| ==> LF !in body[i].text
    ensures var text := DrawFence(fence, Texts(body)).text;
            if body == [] then text == [] else Split(text) == Texts(body)
  {
    if body != [] {
      forall i | 0 <= i < |body| ensures LF !in Texts(body)[i] { TextAt(body, i); }
      JoinSplits(Texts(body));
    }
  }

  lemma {:induction false} LineOfPart(parts: seq<Part>, i: nat, look: Look)
    requires i < |parts| && look in LinesOf(parts[i])
    ensures look in AllLines(parts)
  {
    if i < |parts| - 1 {
      LineOfPart(parts[..|parts| - 1], i, look);
    }
  }

  /** The block of a part comes after those of the parts before it. */
  lemma {:induction false} BlockOfPart(parts: seq<Part>, i: nat)
    requires AllGood(parts) && i < |parts| && !parts[i].Gap?
    ensures |Draw(parts[i])| == 1 && Drawn(parts[..i]) < |DrawAll(parts)|
    ensures DrawAll(parts)[Drawn(parts[..i])] == Draw(parts[i])[0]
  {
    var rest := parts[..|parts| - 1];
    assert Good(parts[i]);
    if i < |rest| {
      BlockOfPart(rest, i);
      assert rest[..i] == parts[..i];
    } else {
      assert parts[..i] == rest;
      OneBlockEach(rest);
    }
  }

  /**
   * Every fence of a message is one code block, in its place among the blocks, with the
   * opening line's language and the body's lines as they stand, none if there are none.
   */
  lemma CodeVerbatim(source: Str, i: nat)
    requires var parts := Parts(Looked(Split(ChatQueue.LineFeeds(source)))); i < |parts| && parts[i].Fenced?
    ensures var parts := Parts(Looked(Split(ChatQueue.LineFeeds(source))));
            var k := Drawn(parts[..i]);
            && parts[i].open.fence.Some? && k < |Blocks(source)| && Blocks(source)[k].CodeBlock?
            && Blocks(source)[k].language == parts[i].open.fence.value.language
            && if parts[i].body == [] then Blocks(source)[k].text == []
               else Split(Blocks(source)[k].text) == Texts(parts[i].body)
  {
    var lines := Split(ChatQueue.LineFeeds(source));
    var parts := Parts(Looked(lines));
    PartsTile(Looked(lines));
    BlockOfPart(parts, i);
    assert Good(parts[i]);
    BodyOneLine(lines, parts, i);
    FenceVerbatim(parts[i].open.fence.value, parts[i].body);
  }

  lemma BodyOneLine(lines: seq<Str>, parts: seq<Part>, i: nat)
    requires forall j :: 0 <= j < |lines| ==> LF !in lines[j]
    requires AllLines(parts) == Looked(lines) && i < |parts| && parts[i].Fenced?
    ensures forall j :: 0 <= j < |parts[i].body| ==> LF !in parts[i].body[j].text
  {
    var body := parts[i].body;
    forall j | 0 <= j < |body| ensures LF !in body[j].text {
      assert LinesOf(parts[i])[1 + j] == body[j];
      LineOfPart(parts, i, body[j]);
      OneLineEach(lines, Looked(lines), body[j]);
    }
  }

  lemma {:induction false} OneLineEach(lines: seq<Str>, looks: seq<Look>, look: Look)
    requires looks == Looked(lines) && look in looks && forall j :: 0 <= j < |lines| ==> LF !in lines[j]
    ensures LF !in look.text
  {
    var k :| 0 <= k < |looks| && looks[k] == look;
    LookedTexts(lines);
    TextAt(looks, k);
  }
}
