/** JavaScript strings as the phone's code sees them: sequences of UTF-16 code units. */
module JsText {

  datatype Option<+T> = None | Some(value: T)

  /** One UTF-16 code unit. Lone surrogates are ordinary values, as in JavaScript. */
  type Unit = u: int | 0 <= u < 0x1_0000

  type Str = seq<Unit>

  const LF: Unit := 0x0A
  const CR: Unit := 0x0D
  const SPACE: Unit := 0x20
  const TICK: Unit := 0x60

  /** ECMA-262 WhiteSpace and LineTerminator: what `trim` removes and `\s` matches. */
  predicate IsSpace(u: Unit) {
    || 0x09 <= u <= 0x0D
    || u == 0x20 || u == 0xA0 || u == 0x1680
    || 0x2000 <= u <= 0x200A
    || u == 0x2028 || u == 0x2029 || u == 0x202F || u == 0x205F || u == 0x3000 || u == 0xFEFF
  }

  function TrimStart(s: Str): Str {
    if s != [] && IsSpace(s[0]) then TrimStart(s[1..]) else s
  }

  function TrimEnd(s: Str): Str {
    if s != [] && IsSpace(s[|s| - 1]) then TrimEnd(s[..|s| - 1]) else s
  }

  function Trim(s: Str): Str {
    TrimEnd(TrimStart(s))
  }

  /** `TrimStart` cuts exactly the leading spaces. */
  lemma {:induction false} TrimStartCuts(s: Str) returns (k: nat)
    ensures k <= |s| && TrimStart(s) == s[k..]
    ensures forall i :: 0 <= i < k ==> IsSpace(s[i])
    ensures k == |s| || !IsSpace(s[k])
  {
    if s != [] && IsSpace(s[0]) {
      var j := TrimStartCuts(s[1..]);
      k := j + 1;
      assert s[1..][j..] == s[k..];
      forall i | 0 <= i < k ensures IsSpace(s[i]) {
        if i > 0 { assert s[i] == s[1..][i - 1]; }
      }
    } else {
      k := 0;
    }
  }

  /** `TrimEnd` cuts exactly the trailing spaces. */
  lemma {:induction false} TrimEndCuts(s: Str) returns (k: nat)
    ensures k <= |s| && TrimEnd(s) == s[..k]
    ensures forall i :: k <= i < |s| ==> IsSpace(s[i])
    ensures k == 0 || !IsSpace(s[k - 1])
  {
    if s != [] && IsSpace(s[|s| - 1]) {
      k := TrimEndCuts(s[..|s| - 1]);
      assert s[..|s| - 1][..k] == s[..k];
    } else {
      k := |s|;
      assert s[..k] == s;
    }
  }

  /** `text.trim() === ""`, by `BlankIsTrimmedAway`. */
  predicate Blank(s: Str) {
    forall i :: 0 <= i < |s| ==> IsSpace(s[i])
  }

  lemma BlankIsTrimmedAway(s: Str)
    ensures Blank(s) <==> Trim(s) == []
  {
    var k := TrimStartCuts(s);
    var n := TrimEndCuts(s[k..]);
    if k < |s| {
      assert s[k..][0] == s[k];
    }
  }

  lemma BlankParts(a: Str, b: Str)
    ensures Blank(a + b) <==> Blank(a) && Blank(b)
  {
    if Blank(a + b) {
      assert forall i :: 0 <= i < |a| ==> a[i] == (a + b)[i];
      assert forall i :: 0 <= i < |b| ==> b[i] == (a + b)[|a| + i];
    }
  }

  predicate IsHigh(u: Unit) { 0xD800 <= u <= 0xDBFF }

  predicate IsLow(u: Unit) { 0xDC00 <= u <= 0xDFFF }

  /** Bytes of one unit on its own; a lone surrogate becomes U+FFFD, three bytes. */
  function UnitBytes(u: Unit): nat {
    if u < 0x80 then 1 else if u < 0x800 then 2 else 3
  }

  /** `new TextEncoder().encode(s).length`: UTF-8 as in section 3 of RFC 3629. */
  function Utf8Length(s: Str): nat {
    if s == [] then 0
    else if |s| > 1 && IsHigh(s[0]) && IsLow(s[1]) then 4 + Utf8Length(s[2..])
    else UnitBytes(s[0]) + Utf8Length(s[1..])
  }

  /** Cutting a text where no surrogate pair is split cuts its bytes. */
  lemma {:induction false} Utf8Concat(a: Str, b: Str)
    requires a == [] || b == [] || !(IsHigh(a[|a| - 1]) && IsLow(b[0]))
    ensures Utf8Length(a + b) == Utf8Length(a) + Utf8Length(b)
    decreases |a|
  {
    if a == [] {
      assert a + b == b;
    } else if |a| > 1 && IsHigh(a[0]) && IsLow(a[1]) {
      assert (a + b)[2..] == a[2..] + b;
      Utf8Concat(a[2..], b);
    } else {
      assert (a + b)[1..] == a[1..] + b;
      Utf8Concat(a[1..], b);
    }
  }

  /** `parts.join(glue)` */
  function JoinWith(parts: seq<Str>, glue: Str): Str {
    if |parts| == 0 then []
    else if |parts| == 1 then parts[0]
    else parts[0] + glue + JoinWith(parts[1..], glue)
  }

  lemma {:induction false} JoinSplit(xs: seq<Str>, ys: seq<Str>, glue: Str)
    requires xs != [] && ys != []
    ensures JoinWith(xs + ys, glue) == JoinWith(xs, glue) + glue + JoinWith(ys, glue)
  {
    if |xs| == 1 {
      assert (xs + ys)[1..] == ys;
    } else {
      JoinSplit(xs[1..], ys, glue);
      assert (xs + ys)[1..] == xs[1..] + ys;
      assert xs[0] + glue + (JoinWith(xs[1..], glue) + glue + JoinWith(ys, glue))
          == (xs[0] + glue + JoinWith(xs[1..], glue)) + glue + JoinWith(ys, glue);
    }
  }

  /** `s.split("\n")`: always at least one line. */
  function Split(s: Str): (r: seq<Str>)
    ensures r != [] && forall i :: 0 <= i < |r| ==> LF !in r[i]
  {
    if s == [] then [[]]
    else
      var rest := Split(s[1..]);
      if s[0] == LF then [[]] + rest else [[s[0]] + rest[0]] + rest[1..]
  }

  /** Lines as a program prints them, each ended by a line feed. */
  function Printed(lines: seq<Str>): Str {
    if lines == [] then [] else lines[0] + [LF] + Printed(lines[1..])
  }

  lemma {:induction false} SplitLine(line: Str, rest: Str)
    requires LF !in line
    ensures Split(line + [LF] + rest) == [line] + Split(rest)
  {
    if line == [] {
      assert ([LF] + rest)[1..] == rest;
    } else {
      var s := line + [LF] + rest;
      SplitLine(line[1..], rest);
      assert s[1..] == line[1..] + [LF] + rest;
      assert line[0] != LF && s[0] == line[0];
      assert Split(s[1..])[1..] == Split(rest) && Split(s[1..])[0] == line[1..];
      assert [line[0]] + line[1..] == line;
    }
  }

  lemma {:induction false} SplitPrinted(lines: seq<Str>)
    requires forall i :: 0 <= i < |lines| ==> LF !in lines[i]
    ensures Split(Printed(lines)) == lines + [[]]
  {
    if lines != [] {
      SplitPrinted(lines[1..]);
      SplitLine(lines[0], Printed(lines[1..]));
    }
  }

  /** Splitting and joining undo each other. */
  lemma {:induction false} SplitJoins(s: Str)
    ensures JoinWith(Split(s), [LF]) == s
  {
    if s != [] {
      SplitJoins(s[1..]);
      var rest := Split(s[1..]);
      if s[0] == LF {
        JoinSplit([[]], rest, [LF]);
        assert Split(s) == [[]] + rest;
      } else if |rest| == 1 {
        assert Split(s) == [[s[0]] + rest[0]];
      } else {
        assert Split(s)[1..] == rest[1..];
        assert [s[0]] + (rest[0] + [LF] + JoinWith(rest[1..], [LF])) == ([s[0]] + rest[0]) + [LF] + JoinWith(rest[1..], [LF]);
      }
    }
  }

  lemma {:induction false} JoinSplits(lines: seq<Str>)
    requires lines != [] && forall i :: 0 <= i < |lines| ==> LF !in lines[i]
    ensures Split(JoinWith(lines, [LF])) == lines
  {
    if |lines| == 1 {
      SplitNone(lines[0]);
    } else {
      JoinSplits(lines[1..]);
      SplitLine(lines[0], JoinWith(lines[1..], [LF]));
    }
  }

  lemma {:induction false} SplitNone(line: Str)
    requires LF !in line
    ensures Split(line) == [line]
  {
    if line != [] {
      SplitNone(line[1..]);
      assert line[0] != LF && line == [line[0]] + line[1..];
    }
  }

  predicate IsDigit(u: Unit) { 0x30 <= u <= 0x39 }

  /** The longest run of digits a text starts with. */
  function Digits(s: Str): (r: Str)
    ensures r <= s && forall i :: 0 <= i < |r| ==> IsDigit(r[i])
  {
    if s != [] && IsDigit(s[0]) then [s[0]] + Digits(s[1..]) else []
  }

  /** `Number(digits)` */
  function Value(digits: Str): nat
    requires forall i :: 0 <= i < |digits| ==> IsDigit(digits[i])
  {
    if digits == [] then 0
    else
      var last: int := digits[|digits| - 1];
      assert IsDigit(digits[|digits| - 1]);
      10 * Value(digits[..|digits| - 1]) + (last - 0x30)
  }
}
