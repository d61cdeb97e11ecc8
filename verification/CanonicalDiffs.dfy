/** A canonical printer for parsed diffs. */
module CanonicalDiffs {
  import opened Wrappers
  import opened Text
  import opened UnifiedDiff
  import opened DiffPrinting

  // ----- well-formed parsed diffs -----

  /** The lines of a hunk are numbered on from its start numbers, each counter moved by the lines it counts. */
  predicate Consecutive(lines: seq<Line>, o: int, n: int)
    decreases lines
  {
    lines == []
    || (var l := lines[0];
        Fits(l, o, n) && Consecutive(lines[1..], OldAfter(l, o), NewAfter(l, n)))
  }

  predicate Fits(l: Line, o: int, n: int) {
    l.oldLine == (if l.kind == Added then 0 else o) && l.newLine == if l.kind == Deleted then 0 else n
  }

  function OldAfter(l: Line, o: int): int {
    if l.kind == Added then o else Next(o)
  }

  function NewAfter(l: Line, n: int): int {
    if l.kind == Deleted then n else Next(n)
  }

  /** A hunk as the parser numbers and indexes it. */
  predicate WellNumbered(h: Hunk) {
    && 0 <= h.oldStart <= MAX_INT && 0 <= h.newStart <= MAX_INT
    && Consecutive(h.lines, h.oldStart, h.newStart)
    && h.candidates == AddedNumbers(h.lines) && h.context == ContextTexts(h.lines)
  }

  /** No file name, or that of a Go file; a name is trimmed and is not the null device. */
  predicate WellNamed(f: File) {
    if f.language == "" then f.path == "" && !f.isTest
    else f.language == "go" && Trimmed(f.path) && f.path != "/dev/null" && f.isTest == HasSuffix(f.path, "_test.go")
  }

  predicate WellRead(f: File) {
    WellNamed(f) && forall i :: 0 <= i < |f.hunks| ==> WellNumbered(f.hunks[i])
  }

  // ----- everything parsed is well-formed -----

  function OldAtEnd(lines: seq<Line>, o: int): int
    decreases lines
  {
    if lines == [] then o else OldAtEnd(lines[1..], OldAfter(lines[0], o))
  }

  function NewAtEnd(lines: seq<Line>, n: int): int
    decreases lines
  {
    if lines == [] then n else NewAtEnd(lines[1..], NewAfter(lines[0], n))
  }

  lemma {:induction false} ConsecutiveSnoc(lines: seq<Line>, o: int, n: int, l: Line)
    requires Consecutive(lines, o, n) && Fits(l, OldAtEnd(lines, o), NewAtEnd(lines, n))
    ensures Consecutive(lines + [l], o, n)
    ensures OldAtEnd(lines + [l], o) == OldAfter(l, OldAtEnd(lines, o))
    ensures NewAtEnd(lines + [l], n) == NewAfter(l, NewAtEnd(lines, n))
    decreases lines
  {
    if lines == [] {
      assert [] + [l] == [l] && [l][1..] == [];
    } else {
      assert (lines + [l])[1..] == lines[1..] + [l];
      ConsecutiveSnoc(lines[1..], OldAfter(lines[0], o), NewAfter(lines[0], n), l);
    }
  }

  lemma {:induction false} ListsSnoc(lines: seq<Line>, l: Line)
    ensures AddedNumbers(lines + [l]) == AddedNumbers(lines) + if l.kind == Added then [l.newLine] else []
    ensures ContextTexts(lines + [l]) == ContextTexts(lines) + if l.kind == Context then [l.text] else []
  {
    if lines == [] {
      assert [] + [l] == [l] && [l][1..] == [];
    } else {
      assert (lines + [l])[1..] == lines[1..] + [l];
      ListsSnoc(lines[1..], l);
    }
  }

  predicate OpenOk(o: OpenHunk) {
    && WellNumbered(o.hunk)
    && o.oldLine == OldAtEnd(o.hunk.lines, o.hunk.oldStart) && o.newLine == NewAtEnd(o.hunk.lines, o.hunk.newStart)
  }

  /** The line a body line becomes, whatever it begins with. */
  function LineRead(o: OpenHunk, line: string): Line {
    if "+" <= line then Line(0, o.newLine, Added, line[1..])
    else if "-" <= line then Line(o.oldLine, 0, Deleted, line[1..])
    else Line(o.oldLine, o.newLine, Context, line)
  }

  lemma TakeKeepsOk(o: OpenHunk, line: string)
    requires OpenOk(o)
    ensures OpenOk(Take(o, line))
  {
    var l := LineRead(o, line);
    ConsecutiveSnoc(o.hunk.lines, o.hunk.oldStart, o.hunk.newStart, l);
    ListsSnoc(o.hunk.lines, l);
    ConcatNil(o.hunk.candidates);
    ConcatNil(o.hunk.context);
  }

  predicate StateOk(s: State) {
    s.Reading? ==>
      && (forall i :: 0 <= i < |s.files| ==> WellRead(s.files[i]))
      && (s.current.Some? ==> WellRead(s.current.value))
      && (s.open.Some? ==> OpenOk(s.open.value))
  }

  lemma PathOk(f: File, line: string)
    requires WellRead(f)
    ensures WellRead(WithPath(f, ReadPath(line)))
  {
    TrimSpaceIs(TrimPrefix(TrimPrefix(TrimPrefix(line, "+++ "), "b/"), "a/"));
  }

  lemma StepKeepsOk(s: State, line: string)
    requires StateOk(s)
    ensures StateOk(Step(s, line))
  {
    if s.Reading? {
      match Classify(line) {
        case NewHeader => PathOk(Orphan(s.current), line);
        case Other => if s.open.Some? { TakeKeepsOk(s.open.value, line); }
        case _ =>
      }
    }
  }

  lemma {:induction false} RunKeepsOk(s: State, lines: seq<string>)
    requires StateOk(s)
    ensures StateOk(Run(s, lines))
    decreases lines
  {
    if lines != [] {
      StepKeepsOk(s, lines[0]);
      RunKeepsOk(Step(s, lines[0]), lines[1..]);
    }
  }

  /** Whatever the text, every parsed file is named well, and every parsed hunk is numbered on from its header, with the
      added numbers as candidates and the context texts as context. */
  lemma EverythingParsedIsWellRead(input: string)
    requires Parse(input).Parsed?
    ensures forall i :: 0 <= i < |Parse(input).files| ==> WellRead(Parse(input).files[i])
  {
    RunKeepsOk(Start, Lines(input));
  }

  // ----- what can be printed -----

  /** Context lines keep their space, are empty, or are markers that keep their backslash. */
  predicate Marked(l: Line) {
    l.kind == Context ==> l.text == "" || " " <= l.text || "\\" <= l.text
  }

  /** The texts are those of lines: without a newline, and without a carriage return at the end. */
  predicate Plain(text: string) {
    OneLine(text) && StripCR(text) == text
  }

  predicate PrintableLines(lines: seq<Line>) {
    forall j :: 0 <= j < |lines| ==> Marked(lines[j]) && Plain(lines[j].text)
  }

  /** A file as the parser reads it from a well-formed diff. */
  predicate FromDiff(f: File) {
    && WellRead(f) && OneLine(f.path)
    && forall i :: 0 <= i < |f.hunks| ==> f.hunks[i].file == f.path && PrintableLines(f.hunks[i].lines)
  }

  /** A line whose printed form is mistaken for a header. */
  predicate TrapLine(l: Line) {
    (l.kind == Deleted && "-- " <= l.text) || (l.kind == Added && "++ " <= l.text)
  }

  predicate TrapFreeFile(f: File) {
    forall i, j :: 0 <= i < |f.hunks| && 0 <= j < |f.hunks[i].lines| ==> !TrapLine(f.hunks[i].lines[j])
  }

  // ----- the printer -----

  function EditOf(l: Line): Edit {
    match l.kind
    case Added => Insert(l.text)
    case Deleted => Remove(l.text)
    case Context =>
      if l.text == "" then Empty(false)
      else if " " <= l.text then Keep(l.text[1..]) else Marker(TrimPrefix(l.text, "\\"))
  }

  function EditsOf(lines: seq<Line>): (r: seq<Edit>)
    ensures |r| == |lines|
    ensures forall i :: 0 <= i < |lines| ==> r[i] == EditOf(lines[i])
  {
    if lines == [] then [] else [EditOf(lines[0])] + EditsOf(lines[1..])
  }

  function HunkOf(h: Hunk): PrintedHunk {
    PrintedHunk(if h.oldStart < 0 then 0 else h.oldStart, None, if h.newStart < 0 then 0 else h.newStart, None, "",
                EditsOf(h.lines))
  }

  function HunksOf(hs: seq<Hunk>): (r: seq<PrintedHunk>)
    ensures |r| == |hs|
    ensures forall i :: 0 <= i < |hs| ==> r[i] == HunkOf(hs[i])
  {
    if hs == [] then [] else [HunkOf(hs[0])] + HunksOf(hs[1..])
  }

  /** The parser takes "b/" and then "a/" off a name, so both are printed. */
  function Canonical(f: File): PrintedFile {
    PrintedFile("", [], f.language != "", "", "b/a/" + f.path, HunksOf(f.hunks))
  }

  function AllCanonical(fs: seq<File>): (r: seq<PrintedFile>)
    ensures |r| == |fs|
    ensures forall i :: 0 <= i < |fs| ==> r[i] == Canonical(fs[i])
  {
    if fs == [] then [] else [Canonical(fs[0])] + AllCanonical(fs[1..])
  }

  // ----- reading back -----

  lemma EditOfReads(l: Line, o: int, n: int)
    requires Fits(l, o, n) && Marked(l)
    ensures LineOf(EditOf(l), o, n) == l
  {
    if l.kind == Context && l.text != "" {
      assert l.text == [l.text[0]] + l.text[1..];
    }
  }

  lemma {:induction false} EditsOfRead(lines: seq<Line>, o: int, n: int)
    requires Consecutive(lines, o, n) && PrintableLines(lines)
    ensures Numbered(EditsOf(lines), o, n) == lines
    decreases lines
  {
    if lines != [] {
      EditOfReads(lines[0], o, n);
      EditsOfRead(lines[1..], OldAfter(lines[0], o), NewAfter(lines[0], n));
      assert EditsOf(lines)[1..] == EditsOf(lines[1..]);
    }
  }

  lemma HunksOfRead(path: string, hs: seq<Hunk>)
    requires forall i :: 0 <= i < |hs| ==> hs[i].file == path && WellNumbered(hs[i]) && PrintableLines(hs[i].lines)
    ensures ExpectedHunks(path, HunksOf(hs)) == hs
  {
    forall i | 0 <= i < |hs|
      ensures ExpectedHunk(path, HunkOf(hs[i])) == hs[i]
    {
      EditsOfRead(hs[i].lines, hs[i].oldStart, hs[i].newStart);
    }
  }

  lemma CanonicalName(path: string)
    requires Trimmed(path)
    ensures ReadPath("+++ " + ("b/a/" + path)) == path
  {
    var line := "+++ " + ("b/a/" + path);
    assert TrimPrefix(line, "+++ ") == "b/a/" + path;
    assert TrimPrefix("b/a/" + path, "b/") == "a/" + path;
    assert TrimPrefix("a/" + path, "a/") == path;
    TrimSpaceOfTrimmed(path);
  }

  /** Every well-formed file is what should be read from its canonical form. */
  lemma CanonicalIsExpected(f: File)
    requires FromDiff(f)
    ensures ExpectedFile(Canonical(f)) == f
  {
    HunksOfRead(f.path, f.hunks);
    if f.language != "" {
      CanonicalName(f.path);
    }
  }

  lemma EditPlain(l: Line)
    requires Plain(l.text) && Marked(l)
    ensures OneLine(TextOf(EditOf(l))) && CleanEdit(EditOf(l)) == EditOf(l)
    ensures Trap(EditOf(l)) <==> TrapLine(l)
  {
    if l.kind == Context && l.text != "" {
      var t := l.text[1..];
      assert l.text == [l.text[0]] + t;
      assert forall i :: 0 <= i < |t| ==> t[i] == l.text[i + 1];
      StripCROfCons(l.text[0], t);
      assert StripCR(t) == ([l.text[0]] + StripCR(t))[1..];
    }
  }

  lemma HunkPlain(h: Hunk)
    requires WellNumbered(h) && PrintableLines(h.lines)
    ensures PrintableHunk(HunkOf(h)) && CleanHunk(HunkOf(h)) == HunkOf(h)
    ensures TrapFree(HunkOf(h).edits) <==> forall j :: 0 <= j < |h.lines| ==> !TrapLine(h.lines[j])
  {
    forall j | 0 <= j < |h.lines|
      ensures OneLine(TextOf(EditOf(h.lines[j]))) && CleanEdit(EditOf(h.lines[j])) == EditOf(h.lines[j])
      ensures Trap(EditOf(h.lines[j])) <==> TrapLine(h.lines[j])
    {
      EditPlain(h.lines[j]);
    }
    assert CleanEdits(EditsOf(h.lines)) == EditsOf(h.lines);
  }

  lemma CanonicalPrintable(f: File)
    requires FromDiff(f)
    ensures Printable(Canonical(f)) && CleanFile(Canonical(f)) == Canonical(f)
    ensures FileTrapFree(Canonical(f)) <==> TrapFreeFile(f)
  {
    var p := Canonical(f);
    forall i | 0 <= i < |f.hunks|
      ensures PrintableHunk(p.hunks[i]) && CleanHunk(p.hunks[i]) == p.hunks[i]
      ensures TrapFree(p.hunks[i].edits)
         <==> forall j :: 0 <= j < |f.hunks[i].lines| ==> !TrapLine(f.hunks[i].lines[j])
    {
      HunkPlain(f.hunks[i]);
    }
    assert CleanHunks(p.hunks) == p.hunks;
    NameClean(f.path);
  }

  lemma NameClean(path: string)
    requires Trimmed(path) && OneLine(path)
    ensures OneLine("b/a/" + path) && StripCR("b/a/" + path) == "b/a/" + path
  {
    assert IsSpace('\r');
  }

  lemma {:induction false} CanonicalExpected(fs: seq<File>)
    requires forall i :: 0 <= i < |fs| ==> FromDiff(fs[i])
    ensures ExpectedFiles(AllCanonical(fs)) == fs
  {
    if fs != [] {
      CanonicalIsExpected(fs[0]);
      CanonicalExpected(fs[1..]);
    }
  }

  /** Every list of well-formed files is read back from its canonical form exactly when no line looks like a
      header. */
  lemma CanonicalReadsBackExactly(fs: seq<File>)
    requires forall i :: 0 <= i < |fs| ==> FromDiff(fs[i])
    ensures Parse(Print(AllCanonical(fs))) == Parsed(fs) <==> forall i :: 0 <= i < |fs| ==> TrapFreeFile(fs[i])
  {
    var ps := AllCanonical(fs);
    forall i | 0 <= i < |fs|
      ensures Printable(ps[i]) && CleanFile(ps[i]) == ps[i] && (FileTrapFree(ps[i]) <==> TrapFreeFile(fs[i]))
    {
      CanonicalPrintable(fs[i]);
    }
    assert CleanFiles(ps) == ps;
    CanonicalExpected(fs);
    ParsingUndoesPrinting(ps);
  }
}
