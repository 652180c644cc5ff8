/** What the patterns for a line find, said of the line itself: the pieces it is made of. */
module ChatMarks {
  import opened JsText
  import opened ChatLines

  /** Up to three spaces. */
  predicate Margin(s: Str) {
    |s| <= 3 && Blank(s)
  }

  /** At least one space. */
  predicate Gap(s: Str) {
    s != [] && Blank(s)
  }

  /** Starts with no space, and stays on its line. */
  predicate Flush(s: Str) {
    (s != [] ==> !IsSpace(s[0])) && OneLine(s)
  }

  predicate AllOf(s: Str, u: Unit) {
    forall i :: 0 <= i < |s| ==> s[i] == u
  }

  // ── Leading runs ───────────────────────────────────────────────────────────

  lemma IndentIs(a: Str, b: Str)
    requires Blank(a) && (b != [] ==> !IsSpace(b[0]))
    ensures Indent(a + b) == |a|
  {
    assert forall i :: 0 <= i < |a| ==> (a + b)[i] == a[i];
    assert b != [] ==> (a + b)[|a|] == b[0];
  }

  lemma RunIs(a: Str, b: Str, u: Unit)
    requires (forall i :: 0 <= i < |a| ==> a[i] == u) && (b != [] ==> b[0] != u)
    ensures Run(a + b, u) == |a|
  {
    assert forall i :: 0 <= i < |a| ==> (a + b)[i] == a[i];
    assert b != [] ==> (a + b)[|a|] == b[0];
  }

  lemma IndentCut(s: Str) returns (a: Str, b: Str)
    ensures s == a + b && |a| == Indent(s) && b == s[Indent(s)..] && Blank(a) && (b != [] ==> !IsSpace(b[0]))
  {
    a, b := s[..Indent(s)], s[Indent(s)..];
  }

  lemma RunCut(s: Str, u: Unit) returns (a: Str, b: Str)
    ensures s == a + b && |a| == Run(s, u) && b == s[Run(s, u)..] && AllOf(a, u) && (b != [] ==> b[0] != u)
  {
    a, b := s[..Run(s, u)], s[Run(s, u)..];
  }

  lemma DropJoined(a: Str, b: Str)
    ensures (a + b)[|a|..] == b
  {
  }

  lemma IndentDrop(a: Str, b: Str)
    requires Blank(a) && (b != [] ==> !IsSpace(b[0]))
    ensures Indent(a + b) == |a| && (a + b)[Indent(a + b)..] == b
  {
    IndentIs(a, b);
    DropJoined(a, b);
  }

  lemma RunDrop(a: Str, b: Str, u: Unit)
    requires AllOf(a, u) && (b != [] ==> b[0] != u)
    ensures Run(a + b, u) == |a| && (a + b)[..Run(a + b, u)] == a && (a + b)[Run(a + b, u)..] == b
  {
    RunIs(a, b, u);
    DropJoined(a, b);
  }

  lemma {:induction false} DigitsAre(a: Str, b: Str)
    requires (forall i :: 0 <= i < |a| ==> IsDigit(a[i])) && (b != [] ==> !IsDigit(b[0]))
    ensures Digits(a + b) == a
    decreases |a|
  {
    if a == [] {
      assert a + b == b;
    } else {
      DigitsAre(a[1..], b);
      assert (a + b)[1..] == a[1..] + b && a == [a[0]] + a[1..];
    }
  }

  // ── List items ─────────────────────────────────────────────────────────────

  predicate AllDigits(s: Str) {
    forall i :: 0 <= i < |s| ==> IsDigit(s[i])
  }

  /** What marks an item: a dash, star or plus; or one to nine digits and a dot or parenthesis. */
  predicate Marks(mark: Str, m: Marker) {
    if !m.ordered then m.number == 1 && (mark == [0x2D] || mark == [0x2A] || mark == [0x2B])
    else
      && 2 <= |mark| <= 10 && (mark[|mark| - 1] == 0x2E || mark[|mark| - 1] == 0x29)
      && AllDigits(mark[..|mark| - 1])
      && m.number == Value(mark[..|mark| - 1])
  }

  /** The line is a margin, the mark, a gap, and then the item's text to its end. */
  predicate ItemLine(line: Str, m: Marker, margin: Str, mark: Str, gap: Str) {
    line == margin + (mark + (gap + m.text)) && Margin(margin) && Marks(mark, m) && Gap(gap) && Flush(m.text)
  }

  ghost predicate IsItem(line: Str, m: Marker) {
    exists margin, mark, gap :: ItemLine(line, m, margin, mark, gap)
  }

  lemma GapOf(s: Str)
    requires AfterGap(s).Some?
    ensures s == s[..Indent(s)] + AfterGap(s).value && Gap(s[..Indent(s)]) && Flush(AfterGap(s).value)
  {
  }

  lemma GapThen(gap: Str, text: Str)
    requires Gap(gap) && Flush(text)
    ensures AfterGap(gap + text) == Some(text)
  {
    IndentIs(gap, text);
    assert (gap + text)[|gap|..] == text;
  }

  lemma Cut(s: Str, k: nat)
    requires k <= |s|
    ensures s == s[..k] + s[k..]
  {
  }

  lemma BulletMarks(rest: Str) returns (mark: Str, gap: Str)
    requires Bulleted(rest).Some?
    ensures var m := Bulleted(rest).value;
            rest == mark + (gap + m.text) && Marks(mark, m) && Gap(gap) && Flush(m.text)
  {
    var tail := rest[1..];
    GapOf(tail);
    Cut(rest, 1);
    mark, gap := [rest[0]], tail[..Indent(tail)];
    assert rest[..1] == mark;
  }

  lemma NumberMarks(rest: Str) returns (mark: Str, gap: Str)
    requires Numbered(rest).Some?
    ensures var m := Numbered(rest).value;
            rest == mark + (gap + m.text) && Marks(mark, m) && Gap(gap) && Flush(m.text)
  {
    var k := |Digits(rest)|;
    var tail := rest[k + 1..];
    GapOf(tail);
    Cut(rest, k + 1);
    mark, gap := rest[..k + 1], tail[..Indent(tail)];
    assert mark[..k] == Digits(rest);
    assert mark[k] == rest[k];
  }

  lemma MarksOf(rest: Str, m: Marker) returns (mark: Str, gap: Str)
    requires Bulleted(rest) == Some(m) || (Bulleted(rest).None? && Numbered(rest) == Some(m))
    ensures rest == mark + (gap + m.text) && Marks(mark, m) && Gap(gap) && Flush(m.text)
  {
    if Bulleted(rest).Some? { mark, gap := BulletMarks(rest); } else { mark, gap := NumberMarks(rest); }
  }

  lemma MarkerIsItem(line: Str)
    requires ListMarker(line).Some?
    ensures IsItem(line, ListMarker(line).value)
  {
    var n := Indent(line);
    var mark, gap := MarksOf(line[n..], ListMarker(line).value);
    Cut(line, n);
    assert ItemLine(line, ListMarker(line).value, line[..n], mark, gap);
  }

  lemma BulletRead(mark: Str, gap: Str, m: Marker)
    requires !m.ordered && Marks(mark, m) && Gap(gap) && Flush(m.text)
    ensures Bulleted(mark + (gap + m.text)) == Some(m)
  {
    assert (mark + (gap + m.text))[1..] == gap + m.text;
    GapThen(gap, m.text);
  }

  lemma NumberRead(mark: Str, gap: Str, m: Marker)
    requires m.ordered && Marks(mark, m) && Gap(gap) && Flush(m.text)
    ensures Bulleted(mark + (gap + m.text)).None? && Numbered(mark + (gap + m.text)) == Some(m)
  {
    var k := |mark| - 1;
    var digits, tail := mark[..k], [mark[k]] + (gap + m.text);
    var rest := mark + (gap + m.text);
    assert rest == digits + tail;
    DigitsAre(digits, tail);
    assert rest[k + 1..] == gap + m.text && rest[k] == mark[k];
    assert rest[0] == digits[0];
    GapThen(gap, m.text);
  }

  lemma ItemIsMarker(line: Str, m: Marker, margin: Str, mark: Str, gap: Str)
    requires ItemLine(line, m, margin, mark, gap)
    ensures ListMarker(line) == Some(m)
  {
    var rest := mark + (gap + m.text);
    assert rest[0] == mark[0];
    assert !IsSpace(rest[0]) by {
      if m.ordered { assert mark[..|mark| - 1][0] == mark[0]; }
    }
    IndentIs(margin, rest);
    assert line[|margin|..] == rest;
    if m.ordered { NumberRead(mark, gap, m); } else { BulletRead(mark, gap, m); }
  }

  /** A line is read as an item exactly when it has that shape, and then as that item. */
  lemma ItemExactly(line: Str, m: Marker)
    ensures ListMarker(line) == Some(m) <==> IsItem(line, m)
  {
    if ListMarker(line) == Some(m) { MarkerIsItem(line); }
    if IsItem(line, m) {
      var margin, mark, gap :| ItemLine(line, m, margin, mark, gap);
      ItemIsMarker(line, m, margin, mark, gap);
    }
  }

  // ── Fences ─────────────────────────────────────────────────────────────────

  predicate NoSpace(s: Str) {
    forall i :: 0 <= i < |s| ==> !IsSpace(s[i])
  }

  /** The text holds this word, after nothing but spaces, up to a space or the end. */
  predicate WordIn(s: Str, word: Str, pad: Str, rest: Str) {
    && s == pad + (word + rest) && Blank(pad) && word != [] && NoSpace(word) && (rest != [] ==> IsSpace(rest[0]))
  }

  ghost predicate Language(info: Str, language: Option<Str>) {
    match language
    case None => Blank(info)
    case Some(word) => exists pad, rest :: WordIn(info, word, pad, rest)
  }

  /** A margin, three or more backticks or tildes, and an info text: after backticks it holds none. */
  predicate FenceLine(line: Str, marker: Str, margin: Str, info: Str) {
    && line == margin + (marker + info) && Margin(margin)
    && |marker| >= 3 && (marker[0] == TICK || marker[0] == TILDE) && AllOf(marker, marker[0])
    && (info != [] ==> info[0] != marker[0]) && OneLine(info) && (marker[0] == TICK ==> TICK !in info)
  }

  ghost predicate IsFence(line: Str, f: Fence) {
    exists margin, info :: FenceLine(line, f.marker, margin, info) && Language(info, f.language)
  }

  lemma {:induction false} WordEnds(s: Str)
    ensures FirstWord(s) <= s && NoSpace(FirstWord(s))
    ensures |FirstWord(s)| < |s| ==> IsSpace(s[|FirstWord(s)|])
  {
    if s != [] && !IsSpace(s[0]) { WordEnds(s[1..]); }
  }

  lemma WordAgain(s: Str, word: Str)
    requires word <= s && NoSpace(word) && (|word| < |s| ==> IsSpace(s[|word|]))
    ensures FirstWord(s) == word
  {
    WordEnds(s);
    var w := FirstWord(s);
    assert forall i :: 0 <= i < |word| ==> s[i] == word[i];
    assert forall i :: 0 <= i < |w| ==> s[i] == w[i];
  }

  /** What trimming leaves, put back between the spaces it took. */
  lemma TrimParts(s: Str) returns (pad: Str, tail: Str)
    ensures s == pad + (Trim(s) + tail) && Blank(pad) && Blank(tail)
    ensures Trim(s) != [] ==> !IsSpace(Trim(s)[0]) && !IsSpace(Trim(s)[|Trim(s)| - 1])
  {
    var k := TrimStartCuts(s);
    var t := s[k..];
    var n := TrimEndCuts(t);
    pad, tail := s[..k], t[n..];
    Cut(s, k);
    Cut(t, n);
  }

  lemma LanguageRead(info: Str)
    ensures var word := FirstWord(Trim(info)); Language(info, if word == [] then None else Some(word))
  {
    var pad, tail := TrimParts(info);
    var t := Trim(info);
    var word := FirstWord(t);
    WordEnds(t);
    if word == [] {
      assert info == pad + tail;
      BlankParts(pad, tail);
    } else {
      var rest := t[|word|..] + tail;
      assert word + rest == t + tail;
      assert rest != [] ==> IsSpace(rest[0]);
      assert WordIn(info, word, pad, rest);
    }
  }

  /** There is one such word at most. */
  lemma OneWord(s: Str, word: Str, pad: Str, rest: Str, word': Str, pad': Str, rest': Str)
    requires WordIn(s, word, pad, rest) && WordIn(s, word', pad', rest')
    ensures word == word'
  {
    assert (word + rest)[0] == word[0] && (word' + rest')[0] == word'[0];
    IndentIs(pad, word + rest);
    IndentIs(pad', word' + rest');
    assert s[|pad|..] == word + rest == word' + rest';
    WordAgain(word + rest, word);
    WordAgain(word' + rest', word');
  }

  lemma WordNotBlank(s: Str, word: Str, pad: Str, rest: Str)
    requires WordIn(s, word, pad, rest)
    ensures !Blank(s)
  {
    assert s[|pad|] == word[0];
  }

  lemma LanguageOnce(info: Str, a: Option<Str>, b: Option<Str>)
    requires Language(info, a) && Language(info, b)
    ensures a == b
  {
    if a.Some? {
      var pad, rest :| WordIn(info, a.value, pad, rest);
      WordNotBlank(info, a.value, pad, rest);
      var pad', rest' :| WordIn(info, b.value, pad', rest');
      OneWord(info, a.value, pad, rest, b.value, pad', rest');
    } else if b.Some? {
      var pad, rest :| WordIn(info, b.value, pad, rest);
      WordNotBlank(info, b.value, pad, rest);
    }
  }

  lemma FenceParts(line: Str) returns (margin: Str, info: Str)
    requires OpeningFence(line).Some?
    ensures FenceLine(line, OpeningFence(line).value.marker, margin, info)
    ensures OpeningFence(line) == FenceWith(OpeningFence(line).value.marker, info)
  {
    var rest, marker;
    margin, rest := IndentCut(line);
    marker, info := FenceMarks(rest);
  }

  lemma FenceMarks(rest: Str) returns (marker: Str, info: Str)
    requires FenceHere(rest).Some?
    ensures rest == marker + info && marker != [] && FenceHere(rest) == FenceWith(marker, info)
    ensures (marker[0] == TICK || marker[0] == TILDE) && AllOf(marker, marker[0]) && (info != [] ==> info[0] != marker[0])
  {
    marker, info := RunCut(rest, rest[0]);
    assert rest[..Run(rest, rest[0])] == marker;
  }

  lemma FenceIsLine(line: Str)
    requires OpeningFence(line).Some?
    ensures IsFence(line, OpeningFence(line).value)
  {
    var margin, info := FenceParts(line);
    LanguageRead(info);
  }

  lemma MarksAreFence(marker: Str, info: Str)
    requires marker != [] && (marker[0] == TICK || marker[0] == TILDE) && AllOf(marker, marker[0])
    requires info != [] ==> info[0] != marker[0]
    ensures FenceHere(marker + info) == FenceWith(marker, info)
  {
    RunDrop(marker, info, marker[0]);
  }

  lemma WithLanguage(marker: Str, info: Str, language: Option<Str>)
    requires |marker| >= 3 && OneLine(info) && (marker[0] == TICK ==> TICK !in info) && Language(info, language)
    ensures FenceWith(marker, info) == Some(Fence(marker, language))
  {
    LanguageRead(info);
    var word := FirstWord(Trim(info));
    LanguageOnce(info, language, if word == [] then None else Some(word));
  }

  lemma LineIsFence(line: Str, f: Fence, margin: Str, info: Str)
    requires FenceLine(line, f.marker, margin, info) && Language(info, f.language)
    ensures OpeningFence(line) == Some(f)
  {
    assert (f.marker + info)[0] == f.marker[0];
    IndentDrop(margin, f.marker + info);
    MarksAreFence(f.marker, info);
    WithLanguage(f.marker, info, f.language);
  }

  /** A line opens a fence exactly when it has that shape, and then that fence. */
  lemma FenceExactly(line: Str, f: Fence)
    ensures OpeningFence(line) == Some(f) <==> IsFence(line, f)
  {
    if OpeningFence(line) == Some(f) { FenceIsLine(line); }
    if IsFence(line, f) {
      var margin, info :| FenceLine(line, f.marker, margin, info) && Language(info, f.language);
      LineIsFence(line, f, margin, info);
    }
  }

  /** A margin, a run of the opening's character at least as long, and spaces to the end. */
  predicate CloseLine(line: Str, marker: Str, margin: Str, run: Str, tail: Str)
    requires marker != []
  {
    line == margin + (run + tail) && Margin(margin) && AllOf(run, marker[0]) && |run| >= |marker| && Blank(tail)
  }

  ghost predicate IsClose(line: Str, marker: Str)
    requires marker != []
  {
    exists margin, run, tail :: CloseLine(line, marker, margin, run, tail)
  }

  lemma {:induction false} TrimIs(pad: Str, run: Str, tail: Str)
    requires Blank(pad) && Blank(tail) && run != [] && !IsSpace(run[0]) && !IsSpace(run[|run| - 1])
    ensures Trim(pad + (run + tail)) == run
  {
    var s := pad + (run + tail);
    assert (run + tail)[0] == run[0];
    var k := TrimStartCuts(s);
    IndentIs(pad, run + tail);
    assert forall i :: 0 <= i < |pad| ==> s[i] == pad[i];
    assert s[|pad|] == run[0];
    assert s[k..] == run + tail;
    var n := TrimEndCuts(run + tail);
    assert forall i :: |run| <= i < |run + tail| ==> (run + tail)[i] == tail[i - |run|];
    assert (run + tail)[|run| - 1] == run[|run| - 1];
    assert (run + tail)[..n] == run;
  }

  /** A line closes a fence exactly when it has that shape. */
  lemma CloseExactly(line: Str, marker: Str)
    requires marker != [] && !IsSpace(marker[0])
    ensures ClosesFence(line, marker) <==> IsClose(line, marker)
  {
    if ClosesFence(line, marker) {
      var pad, tail := TrimParts(line);
      var run := Trim(line);
      assert (run + tail)[0] == run[0];
      IndentIs(pad, run + tail);
      assert CloseLine(line, marker, pad, run, tail);
    }
    if IsClose(line, marker) {
      var margin, run, tail :| CloseLine(line, marker, margin, run, tail);
      TrimIs(margin, run, tail);
      assert (run + tail)[0] == run[0];
      IndentIs(margin, run + tail);
    }
  }

  // ── Headings ───────────────────────────────────────────────────────────────

  /** Spaces, hashes and spaces; any of them may be missing. */
  predicate TrailOf(s: Str, a: Str, hashes: Str, b: Str) {
    s == a + (hashes + b) && Blank(a) && AllOf(hashes, HASH) && Blank(b)
  }

  ghost predicate Trails(s: Str) {
    exists a, hashes, b :: TrailOf(s, a, hashes, b)
  }

  lemma TrailParts(s: Str) returns (a: Str, hashes: Str, b: Str)
    requires IsTrail(s)
    ensures TrailOf(s, a, hashes, b)
  {
    var rest;
    a, rest := IndentCut(s);
    hashes, b := RunCut(rest, HASH);
  }

  lemma PartsTrail(s: Str, a: Str, hashes: Str, b: Str)
    requires TrailOf(s, a, hashes, b)
    ensures IsTrail(s)
  {
    if hashes == [] {
      assert s == a + b;
      BlankParts(a, b);
      BlankTrails(s);
    } else {
      assert (hashes + b)[0] == hashes[0];
      IndentDrop(a, hashes + b);
      HashesThenBlank(hashes, b);
    }
  }

  lemma HashesThenBlank(hashes: Str, b: Str)
    requires AllOf(hashes, HASH) && Blank(b)
    ensures BlankPastHashes(hashes + b)
  {
    assert b != [] ==> IsSpace(b[0]);
    RunDrop(hashes, b, HASH);
  }

  lemma TrailExactly(s: Str)
    ensures IsTrail(s) <==> Trails(s)
  {
    if IsTrail(s) { var a, hashes, b := TrailParts(s); }
    if Trails(s) {
      var a, hashes, b :| TrailOf(s, a, hashes, b);
      PartsTrail(s, a, hashes, b);
    }
  }

  /** A margin, one to six hashes, a gap, and what follows. */
  predicate HeadLine(line: Str, rest: Str, margin: Str, hashes: Str, gap: Str) {
    && line == margin + (hashes + (gap + rest)) && Margin(margin)
    && 1 <= |hashes| <= 6 && AllOf(hashes, HASH) && Gap(gap) && (rest != [] ==> !IsSpace(rest[0]))
  }

  ghost predicate Heads(line: Str, rest: Str) {
    exists margin, hashes, gap :: HeadLine(line, rest, margin, hashes, gap)
  }

  /** The heading's text: all up to the longest trail. */
  ghost predicate UpToTrail(rest: Str, text: Str) {
    && OneLine(text) && text <= rest && Trails(rest[|text|..])
    && forall j :: 0 <= j < |text| ==> !Trails(rest[j..])
  }

  ghost predicate IsHeading(line: Str, text: Str) {
    exists rest :: Heads(line, rest) && UpToTrail(rest, text)
  }

  lemma RestParts(line: Str, rest: Str) returns (margin: Str, hashes: Str, gap: Str)
    requires HeadingRest(line) == Some(rest)
    ensures HeadLine(line, rest, margin, hashes, gap)
  {
    var marked;
    margin, marked := IndentCut(line);
    hashes, gap := HashParts(marked, rest);
  }

  lemma HashParts(marked: Str, rest: Str) returns (hashes: Str, gap: Str)
    requires AfterHashes(marked) == Some(rest)
    ensures marked == hashes + (gap + rest) && 1 <= |hashes| <= 6 && AllOf(hashes, HASH)
    ensures Gap(gap) && (rest != [] ==> !IsSpace(rest[0]))
  {
    var spaced, after;
    hashes, spaced := RunCut(marked, HASH);
    gap, after := IndentCut(spaced);
  }

  lemma HashesRead(hashes: Str, gap: Str, rest: Str)
    requires 1 <= |hashes| <= 6 && AllOf(hashes, HASH) && Gap(gap) && (rest != [] ==> !IsSpace(rest[0]))
    ensures AfterHashes(hashes + (gap + rest)) == Some(rest)
  {
    assert (gap + rest)[0] == gap[0];
    RunDrop(hashes, gap + rest, HASH);
    IndentDrop(gap, rest);
  }

  lemma HeadRead(line: Str, rest: Str, margin: Str, hashes: Str, gap: Str)
    requires HeadLine(line, rest, margin, hashes, gap)
    ensures HeadingRest(line) == Some(rest)
  {
    var marked := hashes + (gap + rest);
    assert marked[0] == hashes[0];
    IndentDrop(margin, marked);
    HashesRead(hashes, gap, rest);
  }

  lemma RestExactly(line: Str, rest: Str)
    ensures HeadingRest(line) == Some(rest) <==> Heads(line, rest)
  {
    if HeadingRest(line) == Some(rest) {
      var margin, hashes, gap := RestParts(line, rest);
    }
    if Heads(line, rest) {
      var margin, hashes, gap :| HeadLine(line, rest, margin, hashes, gap);
      HeadRead(line, rest, margin, hashes, gap);
    }
  }

  lemma TextIsUpTo(rest: Str, end: nat)
    requires end == TrailFrom(rest, 0) && OneLine(rest[..end])
    ensures UpToTrail(rest, rest[..end])
  {
    TrailExactly(rest[end..]);
    forall j | 0 <= j < end ensures !Trails(rest[j..]) { TrailExactly(rest[j..]); }
  }

  lemma {:induction false} LeastTrail(s: Str, k: nat, t: nat)
    requires k <= t <= |s| && Trails(s[t..]) && forall j :: k <= j < t ==> !Trails(s[j..])
    ensures TrailFrom(s, k) == t
    decreases t - k
  {
    TrailExactly(s[k..]);
    if k < t { LeastTrail(s, k + 1, t); }
  }

  lemma UpToIsText(rest: Str, text: Str)
    requires UpToTrail(rest, text)
    ensures rest[..TrailFrom(rest, 0)] == text
  {
    LeastTrail(rest, 0, |text|);
  }

  /** A line is read as a heading exactly when it has that shape, and then with that text. */
  lemma HeadingExactly(line: Str, text: Str)
    ensures Heading(line) == Some(text) <==> IsHeading(line, text)
  {
    if Heading(line) == Some(text) {
      RestExactly(line, HeadingRest(line).value);
      TextIsUpTo(HeadingRest(line).value, TrailFrom(HeadingRest(line).value, 0));
    }
    if IsHeading(line, text) {
      var rest :| Heads(line, rest) && UpToTrail(rest, text);
      RestExactly(line, rest);
      UpToIsText(rest, text);
    }
  }
}
