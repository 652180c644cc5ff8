/** A patch of several files: what is read of each, and what is drawn of the lines between them. */
module FileDiffFiles {
  import opened JsText
  import opened FileDiff

  /** One file of a patch: the lines before its hunks, the hunks, and the file before and after. */
  datatype File = File(header: seq<Str>, hunks: seq<Hunk>, before: seq<Str>, after: seq<Str>)

  predicate PrintedFile(f: File) {
    && (forall i :: 0 <= i < |f.header| ==> OneLine(f.header[i]) && HunkStarts(f.header[i]).None?)
    && (forall i :: 0 <= i < |f.hunks| ==> Printable(f.hunks[i]))
    && Consistent(f.hunks, f.before, f.after, 0, 0)
  }

  predicate PrintedFiles(files: seq<File>) {
    forall i :: 0 <= i < |files| ==> PrintedFile(files[i])
  }

  function FileLines(f: File): seq<Str> { f.header + HunkLines(f.hunks) }

  function FilesLines(files: seq<File>): seq<Str> {
    if files == [] then [] else FileLines(files[0]) + FilesLines(files[1..])
  }

  /** The rows of the hunks alone, file after file. */
  function HunksOnly(files: seq<File>): seq<Row> {
    if files == [] then [] else PatchRows(files[0].hunks) + HunksOnly(files[1..])
  }

  /** How the reader stands after a file. */
  function Past(f: File, c: Count): Count {
    Ends(Matched(FileLines(f)), c)
  }

  /** What is drawn: each file's hunks, and before them whatever its header lines draw. */
  function FilesRows(files: seq<File>, c: Count): seq<Row>
    decreases |files|
  {
    if files == [] then []
    else Rows(Matched(files[0].header), c) + PatchRows(files[0].hunks) + FilesRows(files[1..], Past(files[0], c))
  }

  /** Header lines that come after some hunk. */
  function Stray(files: seq<File>, hunked: bool): nat
    decreases |files|
  {
    if files == [] then 0
    else (if hunked then |files[0].header| else 0) + Stray(files[1..], hunked || files[0].hunks != [])
  }

  // ── Header lines ───────────────────────────────────────────────────────────

  /** Outside a hunk a line without the pattern draws nothing, inside one it draws one row. */
  lemma {:induction false} HeaderRows(header: seq<Str>, c: Count)
    requires forall i :: 0 <= i < |header| ==> HunkStarts(header[i]).None?
    ensures |Rows(Matched(header), c)| == if c.hunked then |header| else 0
    ensures Ends(Matched(header), c).hunked == c.hunked
    decreases |header|
  {
    if header != [] {
      var line := Line(header[0], None);
      assert Matched(header)[0] == line && Matched(header)[1..] == Matched(header[1..]);
      HeaderRows(header[1..], Next(line, c));
    }
  }

  lemma {:induction false} EndsConcat(a: seq<Line>, b: seq<Line>, c: Count)
    ensures Ends(a + b, c) == Ends(b, Ends(a, c))
    decreases |a|
  {
    if a == [] {
      assert a + b == b;
    } else {
      assert (a + b)[0] == a[0] && (a + b)[1..] == a[1..] + b;
      EndsConcat(a[1..], b, Next(a[0], c));
    }
  }

  lemma {:induction false} HunkedStays(lines: seq<Line>, c: Count)
    requires c.hunked
    ensures Ends(lines, c).hunked
    decreases |lines|
  {
    if lines != [] {
      HunkedStays(lines[1..], Next(lines[0], c));
    }
  }

  /** The first header line of a hunk is found, whatever came before. */
  lemma HunksHunk(hs: seq<Hunk>, c: Count)
    requires hs != [] && Headed(hs[0])
    ensures Ends(Matched(HunkLines(hs)), c).hunked
  {
    var h := hs[0];
    HeaderReads(h.oldAt, OldCount(h.ops), h.newAt, NewCount(h.ops), h.heading);
    FirstHunks(HunkLines(hs), c);
  }

  lemma FirstHunks(lines: seq<Str>, c: Count)
    requires lines != [] && HunkStarts(lines[0]).Some?
    ensures Ends(Matched(lines), c).hunked
  {
    HunkedStays(Matched(lines)[1..], Next(Matched(lines)[0], c));
  }

  lemma FileHunks(f: File, c: Count)
    requires PrintedFile(f)
    ensures Past(f, c).hunked == (c.hunked || f.hunks != [])
  {
    MatchedConcat(f.header, HunkLines(f.hunks));
    EndsConcat(Matched(f.header), Matched(HunkLines(f.hunks)), c);
    HeaderRows(f.header, c);
    if f.hunks != [] {
      assert Printable(f.hunks[0]);
      HunksHunk(f.hunks, Ends(Matched(f.header), c));
    }
  }

  lemma FileDraws(f: File, c: Count)
    requires PrintedFile(f)
    ensures Rows(Matched(FileLines(f)), c) == Rows(Matched(f.header), c) + PatchRows(f.hunks)
  {
    MatchedConcat(f.header, HunkLines(f.hunks));
    RowsConcat(Matched(f.header), Matched(HunkLines(f.hunks)), c);
    forall i | 0 <= i < |f.hunks| ensures Headed(f.hunks[i]) { assert Printable(f.hunks[i]); }
    HunksDraw(f.hunks, Ends(Matched(f.header), c));
  }

  // ── All the files ──────────────────────────────────────────────────────────

  lemma {:induction false} FilesDraw(files: seq<File>, c: Count)
    requires PrintedFiles(files)
    ensures Rows(Matched(FilesLines(files)), c) == FilesRows(files, c)
    decreases |files|
  {
    if files != [] {
      var f, rest := files[0], files[1..];
      MatchedConcat(FileLines(f), FilesLines(rest));
      RowsConcat(Matched(FileLines(f)), Matched(FilesLines(rest)), c);
      FileDraws(f, c);
      FilesDraw(rest, Past(f, c));
    }
  }

  lemma {:induction false} FilesCount(files: seq<File>, c: Count)
    requires PrintedFiles(files)
    ensures |FilesRows(files, c)| == |HunksOnly(files)| + Stray(files, c.hunked)
    decreases |files|
  {
    if files != [] {
      HeaderRows(files[0].header, c);
      FileHunks(files[0], c);
      FilesCount(files[1..], Past(files[0], c));
    }
  }

  /** A file none of whose header lines is stray draws its hunks. */
  lemma NoStrayHere(files: seq<File>, c: Count, next: Count)
    requires PrintedFiles(files) && files != [] && Stray(files, c.hunked) == 0 && next == Past(files[0], c)
    ensures FilesRows(files, c) == PatchRows(files[0].hunks) + FilesRows(files[1..], next)
    ensures Stray(files[1..], next.hunked) == 0
  {
    HeaderRows(files[0].header, c);
    FileHunks(files[0], c);
    NothingBefore(Rows(Matched(files[0].header), c), PatchRows(files[0].hunks), FilesRows(files[1..], next));
  }

  lemma NothingBefore(a: seq<Row>, b: seq<Row>, c: seq<Row>)
    requires |a| == 0
    ensures a + b + c == b + c
  {
    assert a == [];
  }

  lemma {:induction false} NoStrayNoMore(files: seq<File>, c: Count, rows: seq<Row>)
    requires PrintedFiles(files) && Stray(files, c.hunked) == 0 && rows == FilesRows(files, c)
    ensures rows == HunksOnly(files)
    decreases |files|
  {
    if files != [] {
      var next := Past(files[0], c);
      NoStrayHere(files, c, next);
      NoStrayNoMore(files[1..], next, FilesRows(files[1..], next));
    }
  }

  lemma {:induction false} FilesOneLine(files: seq<File>)
    requires PrintedFiles(files)
    ensures AllOneLine(FilesLines(files))
  {
    if files != [] {
      assert PrintedFile(files[0]);
      HunkLinesOneLine(files[0].hunks);
      FilesOneLine(files[1..]);
    }
  }

  function Parsed(files: seq<File>): seq<Row> {
    Rows(Matched(WithoutEmptyTail(Split(Printed(FilesLines(files))))), UNREAD)
  }

  lemma ParsedIs(files: seq<File>)
    requires PrintedFiles(files)
    ensures Parsed(files) == FilesRows(files, UNREAD)
  {
    var lines := FilesLines(files);
    FilesOneLine(files);
    SplitPrinted(lines);
    assert WithoutEmptyTail(lines + [[]]) == lines;
    FilesDraw(files, UNREAD);
  }

  /**
   * In a patch of several files each file's hunks are still read row for row, with every
   * number the position of that text in its own file. Each header line after the first
   * hunk draws one row too many, so the rows are the hunks' alone exactly when there is
   * no such line.
   */
  lemma SeveralFiles(files: seq<File>)
    requires PrintedFiles(files)
    ensures Parsed(files) == FilesRows(files, UNREAD)
    ensures |Parsed(files)| == |HunksOnly(files)| + Stray(files, false)
    ensures Parsed(files) == HunksOnly(files) <==> Stray(files, false) == 0
    ensures forall i :: 0 <= i < |files| ==> AllIndex(PatchRows(files[i].hunks), files[i].before, files[i].after)
  {
    ParsedIs(files);
    FilesCount(files, UNREAD);
    if Stray(files, false) == 0 { NoStrayNoMore(files, UNREAD, FilesRows(files, UNREAD)); }
    forall i | 0 <= i < |files| ensures AllIndex(PatchRows(files[i].hunks), files[i].before, files[i].after) {
      assert PrintedFile(files[i]);
      PatchIndexes(files[i].hunks, files[i].before, files[i].after, 0, 0);
    }
  }
}
