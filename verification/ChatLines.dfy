/** What one line of a message is: fence, list item, heading or plain. */
module ChatLines {
  import opened JsText

  const TILDE: Unit := 0x7E
  const HASH: Unit := 0x23

  /** What `.` does not match. */
  predicate IsTerminator(u: Unit) {
    u == LF || u == CR || u == 0x2028 || u == 0x2029
  }

  /** `.*` up to the end. */
  predicate OneLine(s: Str) {
    forall i :: 0 <= i < |s| ==> !IsTerminator(s[i])
  }

  /** `\s*`, greedily: how many leading spaces. */
  function Indent(s: Str): (n: nat)
    ensures n <= |s| && (n == |s| || !IsSpace(s[n]))
    ensures forall i :: 0 <= i < n ==> IsSpace(s[i])
  {
    if s != [] && IsSpace(s[0]) then 1 + Indent(s[1..]) else 0
  }

  /** How many of one unit a text starts with. */
  function Run(s: Str, u: Unit): (n: nat)
    ensures n <= |s| && (n == |s| || s[n] != u)
    ensures forall i :: 0 <= i < n ==> s[i] == u
  {
    if s != [] && s[0] == u then 1 + Run(s[1..], u) else 0
  }

  // ── Fences ─────────────────────────────────────────────────────────────────

  datatype Fence = Fence(marker: Str, language: Option<Str>)

  /** The text up to the first space. */
  function FirstWord(s: Str): Str {
    if s == [] || IsSpace(s[0]) then [] else [s[0]] + FirstWord(s[1..])
  }

  /** The fence these marks open, with the info text after them. */
  function FenceWith(marker: Str, info: Str): Option<Fence>
    requires marker != []
  {
    if |marker| < 3 || !OneLine(info) || (marker[0] == TICK && TICK in info) then None
    else
      var word := FirstWord(Trim(info));
      Some(Fence(marker, if word == [] then None else Some(word)))
  }

  function FenceHere(rest: Str): Option<Fence> {
    if rest == [] || (rest[0] != TICK && rest[0] != TILDE) then None
    else
      var k := Run(rest, rest[0]);
      FenceWith(rest[..k], rest[k..])
  }

  function OpeningFence(line: Str): Option<Fence> {
    var n := Indent(line);
    if n > 3 then None else FenceHere(line[n..])
  }

  /** Up to three spaces, then at least as many of the opening's character, and nothing else but spaces. */
  predicate ClosesFence(line: Str, marker: Str)
    requires marker != []
  {
    var trimmed := Trim(line);
    && |trimmed| >= |marker|
    && Indent(line) <= 3 && Indent(line) < |line|
    && forall i :: 0 <= i < |trimmed| ==> trimmed[i] == marker[0]
  }

  /** A line of nothing but one unit, after up to three spaces: which unit, and how many. */
  function ClosingRun(line: Str): Option<(Unit, nat)> {
    var trimmed := Trim(line);
    if trimmed != [] && Indent(line) <= 3 && Indent(line) < |line| && Run(trimmed, trimmed[0]) == |trimmed|
    then Some((trimmed[0], |trimmed|)) else None
  }

  /** What a line closes can be read off it without knowing the opening. */
  lemma ClosesByRun(line: Str, marker: Str)
    requires marker != []
    ensures ClosesFence(line, marker) <==>
              ClosingRun(line).Some? && ClosingRun(line).value.0 == marker[0] && ClosingRun(line).value.1 >= |marker|
  {
    var trimmed := Trim(line);
    if trimmed != [] {
      var n := Run(trimmed, trimmed[0]);
      assert n < |trimmed| ==> trimmed[n] != trimmed[0];
    }
  }

  /** An opening's marker is three or more of one fence character. */
  lemma FenceMarker(line: Str)
    ensures OpeningFence(line).Some? ==>
              var marker := OpeningFence(line).value.marker;
              && |marker| >= 3 && (marker[0] == TICK || marker[0] == TILDE)
              && (forall i :: 0 <= i < |marker| ==> marker[i] == marker[0])
              && !Blank(line)
  {
    var n := Indent(line);
    if OpeningFence(line).Some? {
      assert line[n] == line[n..][0] && !IsSpace(line[n]);
    }
  }

  // ── List items ─────────────────────────────────────────────────────────────

  datatype Marker = Marker(ordered: bool, number: nat, text: Str)

  /** `\s+(.*)$`: what follows at least one space. */
  function AfterGap(s: Str): Option<Str> {
    var n := Indent(s);
    if n == 0 || !OneLine(s[n..]) then None else Some(s[n..])
  }

  predicate IsBullet(u: Unit) { u == 0x2D || u == 0x2A || u == 0x2B }

  predicate EndsNumber(u: Unit) { u == 0x2E || u == 0x29 }

  function Bulleted(rest: Str): Option<Marker> {
    if rest == [] || !IsBullet(rest[0]) then None
    else match AfterGap(rest[1..])
      case None => None
      case Some(text) => Some(Marker(false, 1, text))
  }

  function Numbered(rest: Str): Option<Marker> {
    var k := |Digits(rest)|;
    if k == 0 || k > 9 || k == |rest| || !EndsNumber(rest[k]) then None
    else match AfterGap(rest[k + 1..])
      case None => None
      case Some(text) => Some(Marker(true, Value(Digits(rest)), text))
  }

  function ListMarker(line: Str): Option<Marker> {
    var n := Indent(line);
    if n > 3 then None else if Bulleted(line[n..]).Some? then Bulleted(line[n..]) else Numbered(line[n..])
  }

  // ── Headings ───────────────────────────────────────────────────────────────

  /** `\s*#*\s*` */
  predicate IsTrail(s: Str) {
    BlankPastHashes(s[Indent(s)..])
  }

  predicate BlankPastHashes(s: Str) {
    Blank(s[Run(s, HASH)..])
  }

  /** `(.*?)\s*#*\s*$`: the least start from `k` on of a trail. */
  function TrailFrom(s: Str, k: nat): (r: nat)
    requires k <= |s|
    ensures k <= r <= |s| && IsTrail(s[r..]) && forall j :: k <= j < r ==> !IsTrail(s[j..])
    decreases |s| - k
  {
    if k == |s| then assert s[k..] == []; k else if IsTrail(s[k..]) then k else TrailFrom(s, k + 1)
  }

  function AfterSpaces(spaced: Str): Option<Str> {
    var n := Indent(spaced);
    if n == 0 then None else Some(spaced[n..])
  }

  function AfterHashes(marked: Str): Option<Str> {
    var k := Run(marked, HASH);
    if k == 0 || k > 6 then None else AfterSpaces(marked[k..])
  }

  /** What follows one to six hashes and a gap, on a heading line. */
  function HeadingRest(line: Str): Option<Str> {
    var n := Indent(line);
    if n > 3 then None else AfterHashes(line[n..])
  }

  function Heading(line: Str): Option<Str> {
    match HeadingRest(line)
    case None => None
    case Some(rest) =>
      var end := TrailFrom(rest, 0);
      if OneLine(rest[..end]) then Some(rest[..end]) else None
  }

  lemma BlankTrails(s: Str)
    requires Blank(s)
    ensures IsTrail(s)
  {
  }

  /** A trail has nothing but spaces and hashes. */
  lemma TrailUnits(s: Str, i: nat)
    requires i < |s|
    ensures IsTrail(s) ==> IsSpace(s[i]) || s[i] == HASH
  {
    var n := Indent(s);
    var rest := s[n..];
    var k := Run(rest, HASH);
    if i >= n {
      assert s[i] == rest[i - n];
      if i - n >= k {
        assert s[i] == rest[k..][i - n - k];
      }
    }
  }

  lemma HashTrails(s: Str)
    requires s != [] && s[0] == HASH && Blank(s[1..])
    ensures IsTrail(s)
  {
    assert Indent(s) == 0 && s[0..] == s;
    assert Run(s[1..], HASH) == 0 by {
      if |s| > 1 { assert IsSpace(s[1..][0]); }
    }
    assert Run(s, HASH) == 1;
  }

  lemma NoTrail(rest: Str, e: nat, n: nat)
    requires e < n <= |rest| && !IsSpace(rest[n - 1]) && rest[n - 1] != HASH
    ensures !IsTrail(rest[e..])
  {
    TrailUnits(rest[e..], n - 1 - e);
  }

  /** A trail starts right after the last unit that is no space, unless that is a hash. */
  lemma TrailStarts(rest: Str, n: nat)
    requires n <= |rest| && Blank(rest[n..]) && (n == 0 || !IsSpace(rest[n - 1]))
    ensures TrailFrom(rest, 0) <= n
    ensures TrailFrom(rest, 0) == n <==> n == 0 || rest[n - 1] != HASH
  {
    BlankTrails(rest[n..]);
    if n > 0 {
      if rest[n - 1] == HASH {
        assert rest[n - 1..][1..] == rest[n..];
        HashTrails(rest[n - 1..]);
      } else {
        forall e | 0 <= e < n ensures !IsTrail(rest[e..]) { NoTrail(rest, e, n); }
      }
    }
  }

  lemma RestShown(rest: Str)
    ensures var whole := TrimEnd(rest);
            rest[..TrailFrom(rest, 0)] == whole <==> whole == [] || whole[|whole| - 1] != HASH
  {
    var n := TrimEndCuts(rest);
    TrailStarts(rest, n);
    ShownUpTo(rest, TrailFrom(rest, 0), n);
  }

  lemma ShownUpTo(rest: Str, end: nat, n: nat)
    requires end <= n <= |rest|
    ensures rest[..end] == rest[..n] <==> end == n
    ensures n > 0 ==> rest[..n][n - 1] == rest[n - 1]
  {
    assert |rest[..end]| == end && |rest[..n]| == n;
  }

  /**
   * A heading shows all of its text, up to trailing spaces, exactly when that text does
   * not end in a hash. A closing run of hashes is taken off even where no space sets it apart.
   */
  lemma HeadingShowsAll(line: Str)
    requires Heading(line).Some?
    ensures var whole := TrimEnd(HeadingRest(line).value);
            Heading(line) == Some(whole) <==> whole == [] || whole[|whole| - 1] != HASH
  {
    RestShown(HeadingRest(line).value);
  }

  /** "# C#" reads as a bold "C". */
  lemma SharpIsLost()
    ensures Heading([HASH, 0x20, 0x43, HASH]) == Some([0x43])
  {
    var line: Str := [HASH, 0x20, 0x43, HASH];
    assert Indent(line) == 0;
    assert line[0..] == line;
    assert line[1..] == [0x20, 0x43, HASH];
    assert Run(line[1..], HASH) == 0;
    assert Run(line, HASH) == 1;
    assert line[1..][1..] == [0x43, HASH];
    assert Indent(line[1..][1..]) == 0;
    assert Indent(line[1..]) == 1;
    var rest: Str := [0x43, HASH];
    assert line[2..] == rest;
    assert HeadingRest(line) == Some(rest);
    assert !IsTrail(rest[0..]) by {
      assert rest[0..] == rest;
      TrailUnits(rest, 0);
    }
    assert rest[1..] == [HASH];
    HashTrails(rest[1..]);
    assert TrailFrom(rest, 0) == 1;
    assert rest[..1] == [0x43];
  }
}
