/** Unified diffs as they are printed, and what the parser reads back from them. */
module DiffPrinting {
  import opened Wrappers
  import opened Text
  import opened UnifiedDiff

  /** A line of a hunk body. A marker, such as " No newline at end of file", is printed behind a backslash and
      belongs to neither file. A kept empty line may be printed without its space, with nothing but a carriage return
      if the file has these. */
  datatype Edit = Keep(text: string) | Remove(text: string) | Insert(text: string) | Marker(text: string)
                | Empty(cr: bool)

  function TextOf(e: Edit): string {
    match e
    case Empty(cr) => if cr then "\r" else ""
    case _ => e.text
  }

  /** A hunk as printed; an omitted count stands for 1. */
  datatype PrintedHunk = PrintedHunk(oldStart: nat, oldCount: Option<nat>, newStart: nat, newCount: Option<nat>,
                                     heading: string, edits: seq<Edit>)

  /** A pure rename is printed without the two name lines. */
  datatype PrintedFile = PrintedFile(names: string, extended: seq<string>, named: bool, oldName: string,
                                     newName: string, hunks: seq<PrintedHunk>)

  // ----- printing -----

  function BodyLine(e: Edit): string {
    match e
    case Keep(t) => " " + t
    case Remove(t) => "-" + t
    case Insert(t) => "+" + t
    case Marker(t) => "\\" + t
    case Empty(_) => TextOf(e)
  }

  function BodyLines(edits: seq<Edit>): (r: seq<string>)
    ensures |r| == |edits|
  {
    if edits == [] then [] else [BodyLine(edits[0])] + BodyLines(edits[1..])
  }

  function Count(c: Option<nat>): string {
    if c.Some? then "," + Decimal(c.value) else ""
  }

  function HeaderLine(h: PrintedHunk): string {
    "@@ -" + (Decimal(h.oldStart) + (Count(h.oldCount) + (" +" + (Decimal(h.newStart)
    + (Count(h.newCount) + (" @@" + h.heading))))))
  }

  function HunkLines(h: PrintedHunk): seq<string> {
    [HeaderLine(h)] + BodyLines(h.edits)
  }

  function AllHunkLines(hs: seq<PrintedHunk>): seq<string> {
    if hs == [] then [] else HunkLines(hs[0]) + AllHunkLines(hs[1..])
  }

  function NameLines(f: PrintedFile): seq<string> {
    if f.named then ["--- " + f.oldName, "+++ " + f.newName] else []
  }

  function Preamble(f: PrintedFile): seq<string> {
    ["diff --git " + f.names] + f.extended + NameLines(f)
  }

  function FileLines(f: PrintedFile): seq<string> {
    Preamble(f) + AllHunkLines(f.hunks)
  }

  function Print(fs: seq<PrintedFile>): string {
    if fs == [] then "" else Unlines(FileLines(fs[0])) + Print(fs[1..])
  }

  predicate PrintableHunk(h: PrintedHunk) {
    && h.oldStart <= MAX_INT && h.newStart <= MAX_INT && OneLine(h.heading)
    && forall i :: 0 <= i < |h.edits| ==> OneLine(TextOf(h.edits[i]))
  }

  /** Between "diff --git" and "---" git may print further lines, such as "index" or "new file mode". */
  predicate Printable(f: PrintedFile) {
    && OneLine(f.names) && OneLine(f.oldName) && OneLine(f.newName)
    && (forall i :: 0 <= i < |f.extended| ==> OneLine(f.extended[i]) && !AnyHeader(StripCR(f.extended[i])))
    && forall i :: 0 <= i < |f.hunks| ==> PrintableHunk(f.hunks[i])
  }

  // ----- what should be read back -----

  /** The line one edit becomes, given the counters. */
  function LineOf(e: Edit, o: int, n: int): Line {
    match e
    case Keep(t) => Line(o, n, Context, " " + t)
    case Remove(t) => Line(o, 0, Deleted, t)
    case Insert(t) => Line(0, n, Added, t)
    case Marker(t) => Line(o, n, Context, "\\" + t)
    case Empty(_) => Line(o, n, Context, TextOf(e))
  }

  /** The lines of a hunk numbered from the start numbers of its header. */
  function Numbered(edits: seq<Edit>, o: int, n: int): (r: seq<Line>)
    ensures |r| == |edits|
  {
    if edits == [] then []
    else
      var e := edits[0];
      [LineOf(e, o, n)] + Numbered(edits[1..], if e.Insert? then o else Next(o), if e.Remove? then n else Next(n))
  }

  function AddedNumbers(lines: seq<Line>): seq<int> {
    if lines == [] then []
    else (if lines[0].kind == Added then [lines[0].newLine] else []) + AddedNumbers(lines[1..])
  }

  function ContextTexts(lines: seq<Line>): seq<string> {
    if lines == [] then []
    else (if lines[0].kind == Context then [lines[0].text] else []) + ContextTexts(lines[1..])
  }

  function ExpectedHunk(path: string, h: PrintedHunk): Hunk {
    var lines := Numbered(h.edits, h.oldStart, h.newStart);
    Hunk(path, h.oldStart, h.newStart, lines, AddedNumbers(lines), ContextTexts(lines))
  }

  function ExpectedHunks(path: string, hs: seq<PrintedHunk>): (r: seq<Hunk>)
    ensures |r| == |hs|
    ensures forall i :: 0 <= i < |hs| ==> r[i] == ExpectedHunk(path, hs[i])
  {
    if hs == [] then [] else [ExpectedHunk(path, hs[0])] + ExpectedHunks(path, hs[1..])
  }

  function NamedFile(newName: string): File {
    WithPath(NoFile, ReadPath("+++ " + newName))
  }

  /** What the preamble tells of the file. */
  function ReadName(f: PrintedFile): File {
    if f.named then NamedFile(f.newName) else NoFile
  }

  function ExpectedFile(f: PrintedFile): File {
    ReadName(f).(hunks := ExpectedHunks(ReadName(f).path, f.hunks))
  }

  function ExpectedFiles(fs: seq<PrintedFile>): seq<File> {
    if fs == [] then [] else [ExpectedFile(fs[0])] + ExpectedFiles(fs[1..])
  }

  /** A removed line "-- ..." or an inserted line "++ ..." prints as a file header. */
  predicate Trap(e: Edit) {
    (e.Remove? && "-- " <= e.text) || (e.Insert? && "++ " <= e.text)
  }

  predicate TrapFree(edits: seq<Edit>) {
    forall i :: 0 <= i < |edits| ==> !Trap(edits[i])
  }

  predicate FileTrapFree(f: PrintedFile) {
    forall i :: 0 <= i < |f.hunks| ==> TrapFree(f.hunks[i].edits)
  }

  // ----- carriage returns -----

  /** The same edit without the trailing carriage return that readers take off every line. */
  function CleanEdit(e: Edit): Edit {
    if e.Empty? then Empty(false) else e.(text := StripCR(e.text))
  }

  function CleanEdits(edits: seq<Edit>): (r: seq<Edit>)
    ensures |r| == |edits|
    ensures forall i :: 0 <= i < |edits| ==> r[i] == CleanEdit(edits[i])
  {
    if edits == [] then [] else [CleanEdit(edits[0])] + CleanEdits(edits[1..])
  }

  function CleanHunk(h: PrintedHunk): PrintedHunk {
    h.(heading := StripCR(h.heading), edits := CleanEdits(h.edits))
  }

  function CleanHunks(hs: seq<PrintedHunk>): (r: seq<PrintedHunk>)
    ensures |r| == |hs|
    ensures forall i :: 0 <= i < |hs| ==> r[i] == CleanHunk(hs[i])
  {
    if hs == [] then [] else [CleanHunk(hs[0])] + CleanHunks(hs[1..])
  }

  function CleanFile(f: PrintedFile): PrintedFile {
    PrintedFile(StripCR(f.names), StripAll(f.extended), f.named, StripCR(f.oldName), StripCR(f.newName),
                CleanHunks(f.hunks))
  }

  function CleanFiles(fs: seq<PrintedFile>): (r: seq<PrintedFile>)
    ensures |r| == |fs|
    ensures forall i :: 0 <= i < |fs| ==> r[i] == CleanFile(fs[i])
  {
    if fs == [] then [] else [CleanFile(fs[0])] + CleanFiles(fs[1..])
  }

  lemma StripEdit(e: Edit)
    ensures StripCR(BodyLine(e)) == BodyLine(CleanEdit(e))
  {
    if !e.Empty? {
      StripCROfCons(BodyLine(e)[0], e.text);
    }
  }

  lemma {:induction false} StripBody(edits: seq<Edit>)
    ensures StripAll(BodyLines(edits)) == BodyLines(CleanEdits(edits))
  {
    if edits != [] {
      StripEdit(edits[0]);
      StripBody(edits[1..]);
    }
  }

  lemma HeadingLast(h: PrintedHunk, heading: string)
    ensures var body := HeaderLine(h.(heading := ""));
            body + heading == HeaderLine(h.(heading := heading)) && body[|body| - 1] == '@'
  {
    var a := Decimal(h.oldStart) + Count(h.oldCount);
    var b := Decimal(h.newStart) + Count(h.newCount);
    assert HeaderLine(h.(heading := "")) == "@@ -" + a + " +" + b + " @@";
    assert HeaderLine(h.(heading := heading)) == "@@ -" + a + " +" + b + " @@" + heading;
  }

  lemma StripHeader(h: PrintedHunk)
    ensures StripCR(HeaderLine(h)) == HeaderLine(CleanHunk(h))
  {
    HeadingLast(h, h.heading);
    HeadingLast(h, StripCR(h.heading));
    StripCROfConcat(HeaderLine(h.(heading := "")), h.heading);
    HeaderIgnoresEdits(h.(heading := StripCR(h.heading)), CleanEdits(h.edits));
  }

  lemma HeaderIgnoresEdits(h: PrintedHunk, edits: seq<Edit>)
    ensures HeaderLine(h) == HeaderLine(h.(edits := edits))
  {}

  lemma StripHunk(h: PrintedHunk)
    ensures StripAll(HunkLines(h)) == HunkLines(CleanHunk(h))
  {
    StripHeader(h);
    StripBody(h.edits);
    StripAllConcat([HeaderLine(h)], BodyLines(h.edits));
    StripOne(HeaderLine(h));
  }

  lemma StripOne(line: string)
    ensures StripAll([line]) == [StripCR(line)]
  {
    assert [line][1..] == [];
  }

  lemma {:induction false} StripHunks(hs: seq<PrintedHunk>)
    ensures StripAll(AllHunkLines(hs)) == AllHunkLines(CleanHunks(hs))
  {
    if hs != [] {
      StripHunk(hs[0]);
      StripAllConcat(HunkLines(hs[0]), AllHunkLines(hs[1..]));
      StripHunks(hs[1..]);
    }
  }

  lemma StripNames(f: PrintedFile)
    ensures StripAll(NameLines(f)) == NameLines(CleanFile(f))
  {
    var minus, plus := "--- " + f.oldName, "+++ " + f.newName;
    StripCROfConcat("--- ", f.oldName);
    StripCROfConcat("+++ ", f.newName);
    StripOne(minus);
    StripOne(plus);
    StripAllConcat([minus], [plus]);
    assert [minus] + [plus] == [minus, plus];
  }

  lemma StripPreamble(f: PrintedFile)
    ensures StripAll(Preamble(f)) == Preamble(CleanFile(f))
  {
    var git := "diff --git " + f.names;
    StripCROfConcat("diff --git ", f.names);
    StripOne(git);
    StripNames(f);
    StripAllConcat([git], f.extended);
    StripAllConcat([git] + f.extended, NameLines(f));
  }

  lemma StripFile(f: PrintedFile)
    ensures StripAll(FileLines(f)) == FileLines(CleanFile(f))
  {
    StripPreamble(f);
    StripHunks(f.hunks);
    StripAllConcat(Preamble(f), AllHunkLines(f.hunks));
  }

  lemma HeadersAfterStripCR(line: string, prefix: string)
    requires prefix != "" && prefix[|prefix| - 1] != '\r'
    ensures prefix <= StripCR(line) <==> prefix <= line
  {
    if prefix <= line {
      StripCRKeepsPrefix(line, prefix);
    }
  }

  lemma CleanTraps(edits: seq<Edit>)
    ensures TrapFree(CleanEdits(edits)) <==> TrapFree(edits)
  {
    forall i | 0 <= i < |edits|
      ensures Trap(CleanEdits(edits)[i]) <==> Trap(edits[i])
    {
      HeadersAfterStripCR(TextOf(edits[i]), "-- ");
      HeadersAfterStripCR(TextOf(edits[i]), "++ ");
    }
  }

  lemma CleanFileTraps(f: PrintedFile)
    ensures FileTrapFree(CleanFile(f)) <==> FileTrapFree(f)
  {
    forall i | 0 <= i < |f.hunks|
      ensures TrapFree(CleanFile(f).hunks[i].edits) <==> TrapFree(f.hunks[i].edits)
    {
      CleanTraps(f.hunks[i].edits);
    }
  }

  predicate InRange(h: PrintedHunk) {
    h.oldStart <= MAX_INT && h.newStart <= MAX_INT
  }

  /** A file as readers see it: printable lines of which none of the preamble is a header by accident. */
  predicate Readable(f: PrintedFile) {
    && (forall i :: 0 <= i < |f.extended| ==> !AnyHeader(f.extended[i]))
    && forall i :: 0 <= i < |f.hunks| ==> InRange(f.hunks[i])
  }

  lemma {:induction false} StripAllAt(ls: seq<string>, i: nat)
    requires i < |ls|
    ensures StripAll(ls)[i] == StripCR(ls[i])
  {
    if i > 0 {
      StripAllAt(ls[1..], i - 1);
    }
  }

  lemma PrintableReadable(f: PrintedFile)
    requires Printable(f)
    ensures Readable(CleanFile(f))
  {
    forall i | 0 <= i < |f.extended|
      ensures !AnyHeader(CleanFile(f).extended[i])
    {
      StripAllAt(f.extended, i);
    }
    forall i | 0 <= i < |f.hunks|
      ensures InRange(CleanFile(f).hunks[i])
    {
      assert PrintableHunk(f.hunks[i]);
    }
  }

  // ----- reading one hunk -----

  lemma {:induction false} DigitRunOf(d: string, rest: string)
    requires AllDigits(d) && (rest == "" || !IsDigit(rest[0]))
    ensures DigitRun(d + rest) == |d|
  {
    if d == "" {
      assert d + rest == rest;
    } else {
      assert (d + rest)[1..] == d[1..] + rest;
      DigitRunOf(d[1..], rest);
    }
  }

  lemma SkipCountOf(c: Option<nat>, rest: string)
    requires rest != "" && rest[0] == ' '
    ensures SkipCount(Count(c) + rest) == rest
  {
    if c.Some? {
      var s := Count(c) + rest;
      assert s[1..] == Decimal(c.value) + rest;
      DigitRunOf(Decimal(c.value), rest);
    } else {
      assert Count(c) + rest == rest;
    }
  }

  /** A printed number with its optional count, followed by a space. */
  lemma RangeReadsBack(start: nat, count: Option<nat>, rest: string)
    requires start <= MAX_INT && rest != "" && rest[0] == ' '
    ensures var s := Decimal(start) + (Count(count) + rest);
            var n := DigitRun(s);
            n > 0 && AtoiClamped(s[..n]) == start && SkipCount(s[n..]) == rest
  {
    var s := Decimal(start) + (Count(count) + rest);
    DigitRunOf(Decimal(start), Count(count) + rest);
    assert s[..|Decimal(start)|] == Decimal(start);
    assert s[|Decimal(start)|..] == Count(count) + rest;
    SkipCountOf(count, rest);
    DecimalRoundTrip(start);
  }

  /** A printed header matches the pattern and gives back its two start numbers. */
  lemma HeaderReadsBack(h: PrintedHunk)
    requires InRange(h)
    ensures ScanHeader(HeaderLine(h)) == Some((h.oldStart, h.newStart))
  {
    var afterNew := " @@" + h.heading;
    var t := Decimal(h.newStart) + (Count(h.newCount) + afterNew);
    var afterOld := " +" + t;
    var s := Decimal(h.oldStart) + (Count(h.oldCount) + afterOld);
    assert HeaderLine(h)[4..] == s;
    RangeReadsBack(h.oldStart, h.oldCount, afterOld);
    assert afterOld[2..] == t;
    RangeReadsBack(h.newStart, h.newCount, afterNew);
  }

  // ----- reading a hunk body -----

  lemma PrefixOfCons(c: char, p: string, t: string)
    ensures [c] + p <= [c] + t <==> p <= t
  {
    assert ([c] + t)[1..] == t && ([c] + p)[1..] == p;
  }

  lemma ClassifyByFirst(c: char, t: string)
    requires c in {' ', '-', '+', '\\'}
    ensures Classify([c] + t) == if c == '-' && "-- " <= t then OldHeader
                                 else if c == '+' && "++ " <= t then NewHeader
                                 else Other
  {
    PrefixOfCons(c, "-- ", t);
    PrefixOfCons(c, "++ ", t);
    assert "--- " == ['-'] + "-- " && "+++ " == ['+'] + "++ ";
    assert ([c] + t)[0] == c;
    assert "diff --git "[0] == 'd' && "@@ "[0] == '@' && "--- "[0] == '-' && "+++ "[0] == '+';
  }

  lemma EmptyIsNoHeader(line: string)
    requires |line| <= 1
    ensures Classify(line) == Other
  {}

  /** A body line is a file header exactly when it is a trap, and never anything else. */
  lemma BodyLineKind(e: Edit)
    ensures Classify(BodyLine(e)) == if !Trap(e) then Other else if e.Remove? then OldHeader else NewHeader
  {
    if e.Empty? {
      EmptyIsNoHeader(TextOf(e));
    } else {
      ClassifyByFirst(BodyLine(e)[0], e.text);
      assert BodyLine(e) == [BodyLine(e)[0]] + e.text;
    }
  }

  function TakeAll(o: OpenHunk, edits: seq<Edit>): OpenHunk
    decreases edits
  {
    if edits == [] then o else TakeAll(Take(o, BodyLine(edits[0])), edits[1..])
  }

  function Extend(h: Hunk, n: seq<Line>): Hunk {
    h.(lines := h.lines + n, candidates := h.candidates + AddedNumbers(n), context := h.context + ContextTexts(n))
  }

  lemma AddedCons(l: Line, m: seq<Line>)
    ensures AddedNumbers([l] + m) == AddedNumbers([l]) + AddedNumbers(m)
    ensures ContextTexts([l] + m) == ContextTexts([l]) + ContextTexts(m)
  {
    assert ([l] + m)[1..] == m && [l][1..] == [];
  }

  lemma ExtendTwice(h: Hunk, l: Line, m: seq<Line>)
    ensures Extend(Extend(h, [l]), m) == Extend(h, [l] + m)
  {
    ConcatAssoc(h.lines, [l], m);
    ConcatAssoc(h.candidates, AddedNumbers([l]), AddedNumbers(m));
    ConcatAssoc(h.context, ContextTexts([l]), ContextTexts(m));
    AddedCons(l, m);
  }

  lemma FirstOfBody(e: Edit)
    ensures "+" <= BodyLine(e) <==> e.Insert?
    ensures "-" <= BodyLine(e) <==> e.Remove?
  {
    var line := BodyLine(e);
    if e.Empty? {
      assert line == "" || line[0] == '\r';
    } else {
      assert line[0] == if e.Insert? then '+' else if e.Remove? then '-' else if e.Keep? then ' ' else '\\';
    }
    assert "+"[0] == '+' && "-"[0] == '-';
  }

  lemma TakeOne(o: OpenHunk, e: Edit)
    ensures var o1 := Take(o, BodyLine(e));
            && o1.hunk == Extend(o.hunk, [LineOf(e, o.oldLine, o.newLine)])
            && o1.oldLine == (if e.Insert? then o.oldLine else Next(o.oldLine))
            && o1.newLine == (if e.Remove? then o.newLine else Next(o.newLine))
  {
    BodyLineKind(e);
    var line := BodyLine(e);
    assert !e.Empty? ==> line[1..] == e.text;
    FirstOfBody(e);
    var l := LineOf(e, o.oldLine, o.newLine);
    assert [l][1..] == [];
    assert AddedNumbers([l]) == if l.kind == Added then [l.newLine] else [];
    assert ContextTexts([l]) == if l.kind == Context then [l.text] else [];
    ConcatNil(o.hunk.candidates);
    ConcatNil(o.hunk.context);
  }

  lemma {:induction false} TakeAllNumbers(o: OpenHunk, edits: seq<Edit>)
    ensures TakeAll(o, edits).hunk == Extend(o.hunk, Numbered(edits, o.oldLine, o.newLine))
    decreases edits
  {
    if edits == [] {
      ConcatNil(o.hunk.lines);
      ConcatNil(o.hunk.candidates);
      ConcatNil(o.hunk.context);
    } else {
      TakeOne(o, edits[0]);
      var o1 := Take(o, BodyLine(edits[0]));
      TakeAllNumbers(o1, edits[1..]);
      ExtendTwice(o.hunk, LineOf(edits[0], o.oldLine, o.newLine), Numbered(edits[1..], o1.oldLine, o1.newLine));
    }
  }

  lemma {:induction false} BodyRun(s: State, edits: seq<Edit>)
    requires s.Reading? && s.current.Some? && s.open.Some? && TrapFree(edits)
    ensures Run(s, BodyLines(edits)) == s.(open := Some(TakeAll(s.open.value, edits)))
    decreases edits
  {
    if edits != [] {
      BodyLineKind(edits[0]);
      assert BodyLines(edits)[1..] == BodyLines(edits[1..]);
      BodyRun(Step(s, BodyLine(edits[0])), edits[1..]);
    }
  }

  // ----- reading all hunks of a file -----

  /** The file under construction, its open hunk included. */
  function Pending(s: State): File
    requires s.Reading? && s.current.Some?
  {
    WithHunk(s.current.value, s.open)
  }

  lemma ClassifyHeader(line: string)
    ensures "diff --git " <= line ==> Classify(line) == GitHeader
    ensures "--- " <= line ==> Classify(line) == OldHeader
    ensures "+++ " <= line ==> Classify(line) == NewHeader
    ensures "@@ " <= line ==> Classify(line) == HunkHeader
  {
    assert "diff --git "[0] == 'd' && "@@ "[0] == '@' && "--- "[0] == '-' && "+++ "[0] == '+';
  }

  lemma ClassifyHunkHeader(h: PrintedHunk)
    ensures Classify(HeaderLine(h)) == HunkHeader
  {
    assert "@@ " <= "@@ -" <= HeaderLine(h);
    ClassifyHeader(HeaderLine(h));
  }

  lemma HeaderStep(s: State, h: PrintedHunk)
    requires s.Reading? && s.current.Some? && InRange(h)
    ensures Step(s, HeaderLine(h))
         == Reading(s.files, Some(Pending(s)),
                    Some(OpenHunk(Hunk(s.current.value.path, h.oldStart, h.newStart, [], [], []),
                                  h.oldStart, h.newStart)))
  {
    HeaderReadsBack(h);
    ClassifyHunkHeader(h);
  }

  lemma HunkRun(s: State, h: PrintedHunk)
    requires s.Reading? && s.current.Some? && InRange(h) && TrapFree(h.edits)
    ensures var t := Run(s, HunkLines(h));
            && t.Reading? && t.files == s.files && t.current == Some(Pending(s))
            && Pending(t) == Pending(s).(hunks := Pending(s).hunks + [ExpectedHunk(s.current.value.path, h)])
  {
    HeaderStep(s, h);
    var s1 := Step(s, HeaderLine(h));
    assert HunkLines(h)[1..] == BodyLines(h.edits);
    BodyRun(s1, h.edits);
    TakeAllNumbers(s1.open.value, h.edits);
    var n := Numbered(h.edits, h.oldStart, h.newStart);
    ConcatNil(n);
    ConcatNil(AddedNumbers(n));
    ConcatNil(ContextTexts(n));
  }

  lemma {:induction false} HunksRun(s: State, hs: seq<PrintedHunk>)
    requires s.Reading? && s.current.Some?
    requires forall i :: 0 <= i < |hs| ==> InRange(hs[i]) && TrapFree(hs[i].edits)
    ensures var t := Run(s, AllHunkLines(hs));
            && t.Reading? && t.files == s.files && t.current.Some?
            && Pending(t) == Pending(s).(hunks := Pending(s).hunks + ExpectedHunks(s.current.value.path, hs))
    decreases hs
  {
    if hs == [] {
      ConcatNil(Pending(s).hunks);
    } else {
      RunConcat(s, HunkLines(hs[0]), AllHunkLines(hs[1..]));
      HunkRun(s, hs[0]);
      HunksRun(Run(s, HunkLines(hs[0])), hs[1..]);
      ConcatAssoc(Pending(s).hunks, [ExpectedHunk(s.current.value.path, hs[0])],
                  ExpectedHunks(s.current.value.path, hs[1..]));
    }
  }

  lemma {:induction false} ExtendedRun(s: State, lines: seq<string>)
    requires s.Reading? && s.open.None?
    requires forall i :: 0 <= i < |lines| ==> !AnyHeader(lines[i])
    ensures Run(s, lines) == s
  {
    if lines != [] {
      ExtendedRun(s, lines[1..]);
    }
  }

  lemma RunOne(s: State, raw: string)
    ensures Run(s, [raw]) == Step(s, raw)
  {
    assert [raw][1..] == [];
    assert Run(s, [raw]) == Run(Step(s, raw), []);
  }

  lemma NamesRun(f: PrintedFile)
    ensures Run(Reading([], Some(NoFile), None), NameLines(f)) == Reading([], Some(ReadName(f)), None)
  {
    var minus, plus := "--- " + f.oldName, "+++ " + f.newName;
    ClassifyHeader(minus);
    ClassifyHeader(plus);
    var s := Reading([], Some(NoFile), None);
    RunOne(s, minus);
    RunOne(s, plus);
    RunConcat(s, [minus], [plus]);
    assert [minus] + [plus] == [minus, plus];
  }

  lemma PreambleRun(f: PrintedFile)
    requires Readable(f)
    ensures Run(Start, Preamble(f)) == Reading([], Some(ReadName(f)), None)
  {
    var git := "diff --git " + f.names;
    ClassifyHeader(git);
    RunOne(Start, git);
    RunConcat(Start, [git], f.extended);
    ExtendedRun(Reading([], Some(NoFile), None), f.extended);
    NamesRun(f);
    RunConcat(Start, [git] + f.extended, NameLines(f));
  }

  lemma FileRunHunks(named: File, hs: seq<PrintedHunk>)
    requires named.hunks == []
    requires forall i :: 0 <= i < |hs| ==> InRange(hs[i]) && TrapFree(hs[i].edits)
    ensures Finish(Run(Reading([], Some(named), None), AllHunkLines(hs)))
         == Parsed([named.(hunks := ExpectedHunks(named.path, hs))])
  {
    HunksRun(Reading([], Some(named), None), hs);
    ConcatNil(ExpectedHunks(named.path, hs));
  }

  lemma FileRun(f: PrintedFile)
    requires Readable(f) && FileTrapFree(f)
    ensures Finish(Run(Start, FileLines(f))) == Parsed([ExpectedFile(f)])
  {
    PreambleRun(f);
    RunConcat(Start, Preamble(f), AllHunkLines(f.hunks));
    FileRunHunks(ReadName(f), f.hunks);
  }

  // ----- counting changes, traps or not -----

  predicate Changes(e: Edit) {
    e.Insert? || e.Remove?
  }

  function ChangeCount(edits: seq<Edit>): nat {
    if edits == [] then 0 else (if Changes(edits[0]) then 1 else 0) + ChangeCount(edits[1..])
  }

  /** The changes that are not traps. */
  function Untrapped(edits: seq<Edit>): (n: nat)
    ensures n <= ChangeCount(edits) && (n == ChangeCount(edits) <==> TrapFree(edits))
  {
    if edits == [] then 0 else (if Changes(edits[0]) && !Trap(edits[0]) then 1 else 0) + Untrapped(edits[1..])
  }

  function UntrappedIn(hs: seq<PrintedHunk>): nat {
    if hs == [] then 0 else Untrapped(hs[0].edits) + UntrappedIn(hs[1..])
  }

  function ChangesIn(hs: seq<PrintedHunk>): (n: nat)
    ensures UntrappedIn(hs) <= n
    ensures UntrappedIn(hs) == n <==> forall i :: 0 <= i < |hs| ==> TrapFree(hs[i].edits)
  {
    if hs == [] then 0
    else
      assert forall i :: 1 <= i < |hs| ==> hs[i] == hs[1..][i - 1];
      ChangeCount(hs[0].edits) + ChangesIn(hs[1..])
  }

  /** The added and deleted lines of parsed hunks: all but the context. */
  function ParsedChanges(hs: seq<Hunk>): int {
    if hs == [] then 0
    else ParsedChanges(hs[..|hs| - 1]) + |hs[|hs| - 1].lines| - |hs[|hs| - 1].context|
  }

  function PendingChanges(s: State): int
    requires s.Reading? && s.current.Some?
  {
    ParsedChanges(s.current.value.hunks)
    + if s.open.Some? then |s.open.value.hunk.lines| - |s.open.value.hunk.context| else 0
  }

  lemma PendingChangesClosed(s: State)
    requires s.Reading? && s.current.Some?
    ensures PendingChanges(s) == ParsedChanges(Pending(s).hunks)
  {
    if s.open.Some? {
      var hs := Pending(s).hunks;
      assert hs[..|hs| - 1] == s.current.value.hunks;
    }
  }

  predicate InFile(s: State, files: seq<File>) {
    s.Reading? && s.current.Some? && s.files == files
  }

  lemma TakeCount(o: OpenHunk, e: Edit)
    ensures var h := Take(o, BodyLine(e)).hunk;
            |h.lines| - |h.context| == |o.hunk.lines| - |o.hunk.context| + if Changes(e) then 1 else 0
  {
    FirstOfBody(e);
  }

  lemma {:induction false} BodyCount(s: State, edits: seq<Edit>)
    requires s.Reading? && s.current.Some? && s.open.Some?
    ensures var t := Run(s, BodyLines(edits));
            InFile(t, s.files) && t.open.Some? && PendingChanges(t) == PendingChanges(s) + Untrapped(edits)
    decreases edits
  {
    if edits != [] {
      BodyLineKind(edits[0]);
      TakeCount(s.open.value, edits[0]);
      assert BodyLines(edits)[1..] == BodyLines(edits[1..]);
      BodyCount(Step(s, BodyLine(edits[0])), edits[1..]);
    }
  }

  lemma {:induction false} HunksCount(s: State, hs: seq<PrintedHunk>)
    requires s.Reading? && s.current.Some? && forall i :: 0 <= i < |hs| ==> InRange(hs[i])
    ensures var t := Run(s, AllHunkLines(hs));
            InFile(t, s.files) && PendingChanges(t) == PendingChanges(s) + UntrappedIn(hs)
    decreases hs
  {
    if hs != [] {
      var s1 := Step(s, HeaderLine(hs[0]));
      HeaderStep(s, hs[0]);
      PendingChangesClosed(s);
      assert HunkLines(hs[0])[1..] == BodyLines(hs[0].edits);
      BodyCount(s1, hs[0].edits);
      RunConcat(s, HunkLines(hs[0]), AllHunkLines(hs[1..]));
      HunksCount(Run(s, HunkLines(hs[0])), hs[1..]);
    }
  }

  lemma {:induction false} NumberedCount(edits: seq<Edit>, o: int, n: int)
    ensures |edits| - |ContextTexts(Numbered(edits, o, n))| == ChangeCount(edits)
    decreases edits
  {
    if edits != [] {
      var e := edits[0];
      NumberedCount(edits[1..], if e.Insert? then o else Next(o), if e.Remove? then n else Next(n));
    }
  }

  lemma {:induction false} ExpectedCount(path: string, hs: seq<PrintedHunk>)
    ensures ParsedChanges(ExpectedHunks(path, hs)) == ChangesIn(hs)
  {
    if hs != [] {
      ExpectedCount(path, hs[1..]);
      NumberedCount(hs[0].edits, hs[0].oldStart, hs[0].newStart);
      ParsedChangesCons(ExpectedHunk(path, hs[0]), ExpectedHunks(path, hs[1..]));
    }
  }

  lemma {:induction false} ParsedChangesCons(h: Hunk, hs: seq<Hunk>)
    ensures ParsedChanges([h] + hs) == |h.lines| - |h.context| + ParsedChanges(hs)
  {
    var all := [h] + hs;
    if hs == [] {
      assert all[..0] == [];
    } else {
      assert all[..|all| - 1] == [h] + hs[..|hs| - 1];
      ParsedChangesCons(h, hs[..|hs| - 1]);
    }
  }

  // ----- parsing undoes printing, exactly when there is no trap -----

  /** One printed file is always read as one file, whose number of changed lines is that of the changes that
      are not traps. */
  lemma FileCount(f: PrintedFile)
    requires Readable(f)
    ensures var o := Finish(Run(Start, FileLines(f)));
            o.Parsed? && |o.files| == 1 && ParsedChanges(o.files[0].hunks) == UntrappedIn(f.hunks)
  {
    PreambleRun(f);
    var s := Reading([], Some(ReadName(f)), None);
    RunConcat(Start, Preamble(f), AllHunkLines(f.hunks));
    HunksCount(s, f.hunks);
    PendingChangesClosed(Run(s, AllHunkLines(f.hunks)));
  }

  lemma FileReadsBackExactly(f: PrintedFile)
    requires Readable(f)
    ensures var o := Finish(Run(Start, FileLines(f)));
            o.Parsed? && |o.files| == 1 && (o.files[0] == ExpectedFile(f) <==> FileTrapFree(f))
  {
    FileCount(f);
    ExpectedCount(ReadName(f).path, f.hunks);
    if FileTrapFree(f) {
      FileRun(f);
    }
  }

  lemma {:induction false} HunkLinesOneLine(hs: seq<PrintedHunk>)
    requires forall i :: 0 <= i < |hs| ==> PrintableHunk(hs[i])
    ensures AllOneLine(AllHunkLines(hs))
  {
    if hs != [] {
      HunkLinesOneLine(hs[1..]);
      HeaderOneLine(hs[0]);
      BodyOneLine(hs[0].edits);
    }
  }

  lemma DecimalOneLine(n: nat)
    ensures OneLine(Decimal(n))
  {}

  lemma HeaderOneLine(h: PrintedHunk)
    requires OneLine(h.heading)
    ensures OneLine(HeaderLine(h))
  {
    DecimalOneLine(h.oldStart);
    DecimalOneLine(h.newStart);
    var o, n := Count(h.oldCount), Count(h.newCount);
    assert OneLine(o) && OneLine(n);
    var t := Decimal(h.newStart) + (n + (" @@" + h.heading));
    assert OneLine(t);
    assert OneLine(Decimal(h.oldStart) + (o + (" +" + t)));
  }

  lemma {:induction false} BodyOneLine(edits: seq<Edit>)
    requires forall i :: 0 <= i < |edits| ==> OneLine(TextOf(edits[i]))
    ensures AllOneLine(BodyLines(edits))
  {
    if edits != [] {
      BodyOneLine(edits[1..]);
    }
  }

  lemma FileLinesOneLine(f: PrintedFile)
    requires Printable(f)
    ensures AllOneLine(FileLines(f))
  {
    HunkLinesOneLine(f.hunks);
    assert OneLine("diff --git " + f.names) && OneLine("--- " + f.oldName) && OneLine("+++ " + f.newName);
    assert AllOneLine(NameLines(f));
    assert AllOneLine(Preamble(f));
  }

  lemma ParseOneFile(f: PrintedFile)
    requires Printable(f)
    ensures Parse(Unlines(FileLines(f))) == Finish(Run(Start, FileLines(CleanFile(f))))
  {
    FileLinesOneLine(f);
    LinesOfUnlines(FileLines(f), "");
    ConcatNil(Unlines(FileLines(f)));
    ConcatNil(StripAll(FileLines(f)));
    StripFile(f);
  }

  lemma PrefixOfConcat(p: string, a: string, b: string)
    requires p <= a
    ensures p <= a + b
  {}

  lemma UnlinesStartsWith(ls: seq<string>, p: string)
    requires ls != [] && p <= ls[0]
    ensures p <= Unlines(ls)
  {
    PrefixOfConcat(p, ls[0], "\n" + Unlines(ls[1..]));
    ConcatAssoc(ls[0], "\n", Unlines(ls[1..]));
  }

  lemma FileTextEnds(f: PrintedFile, rest: string)
    ensures var s := Unlines(FileLines(f));
            s != "" && s[|s| - 1] == '\n' && "diff --git " <= s + rest
  {
    var lines := FileLines(f);
    assert lines[0] == "diff --git " + f.names;
    UnlinesEndsInNewline(lines);
    UnlinesStartsWith(lines, "diff --git ");
    PrefixOfConcat("diff --git ", Unlines(lines), rest);
  }

  lemma {:induction false} UnlinesEndsInNewline(ls: seq<string>)
    requires ls != []
    ensures Unlines(ls) != "" && Unlines(ls)[|Unlines(ls)| - 1] == '\n'
  {
    if |ls| > 1 {
      UnlinesEndsInNewline(ls[1..]);
    }
  }

  predicate AllPrintable(fs: seq<PrintedFile>) {
    forall i :: 0 <= i < |fs| ==> Printable(fs[i])
  }

  predicate AllTrapFree(fs: seq<PrintedFile>) {
    forall i :: 0 <= i < |fs| ==> FileTrapFree(fs[i])
  }

  /** What the parser makes of each file on its own, joined. */
  function ReadAll(fs: seq<PrintedFile>): Outcome {
    if fs == [] then Parsed([]) else Join(Finish(Run(Start, FileLines(CleanFile(fs[0])))), ReadAll(fs[1..]))
  }

  lemma PrintedApart(f: PrintedFile, fs: seq<PrintedFile>)
    requires Parse(Unlines(FileLines(f))).Parsed?
    ensures Parse(Unlines(FileLines(f)) + Print(fs)) == Join(Parse(Unlines(FileLines(f))), Parse(Print(fs)))
  {
    var x := Unlines(FileLines(f));
    FileTextEnds(f, "");
    if fs == [] {
      ConcatNil(x);
      ConcatNil(Parse(x).files);
    } else {
      FileTextEnds(fs[0], Print(fs[1..]));
      ParseConcat(x, Print(fs));
    }
  }

  lemma FileOutcome(f: PrintedFile)
    requires Printable(f)
    ensures var o := Finish(Run(Start, FileLines(CleanFile(f))));
            o.Parsed? && |o.files| == 1 && (o.files[0] == ExpectedFile(CleanFile(f)) <==> FileTrapFree(f))
  {
    PrintableReadable(f);
    FileReadsBackExactly(CleanFile(f));
    CleanFileTraps(f);
  }

  lemma ParseReadsFirst(f: PrintedFile, fs: seq<PrintedFile>)
    requires Printable(f)
    ensures Parse(Unlines(FileLines(f)) + Print(fs))
         == Join(Finish(Run(Start, FileLines(CleanFile(f)))), Parse(Print(fs)))
  {
    FileOutcome(f);
    ParseOneFile(f);
    PrintedApart(f, fs);
  }

  lemma ParseNothing()
    ensures Parse("") == Parsed([])
  {
    assert Lines("") == [];
  }

  lemma {:induction false} ParseReadsAll(fs: seq<PrintedFile>)
    requires AllPrintable(fs)
    ensures Parse(Print(fs)) == ReadAll(fs)
  {
    if fs == [] {
      ParseNothing();
    } else {
      ParseReadsFirst(fs[0], fs[1..]);
      ParseReadsAll(fs[1..]);
    }
  }

  lemma JoinOne(a: Outcome, b: Outcome, e: File, es: seq<File>)
    requires a.Parsed? && |a.files| == 1 && b.Parsed?
    ensures Join(a, b).Parsed? && |Join(a, b).files| == 1 + |b.files|
    ensures Join(a, b) == Parsed([e] + es) <==> a.files[0] == e && b == Parsed(es)
  {
    var f := a.files[0];
    assert a.files == [f];
    assert ([f] + b.files)[1..] == b.files && ([e] + es)[1..] == es;
    assert ([f] + b.files)[0] == f && ([e] + es)[0] == e;
  }

  lemma AllTrapFreeStep(fs: seq<PrintedFile>)
    requires fs != []
    ensures AllTrapFree(fs) <==> FileTrapFree(fs[0]) && AllTrapFree(fs[1..])
  {
    assert forall i :: 1 <= i < |fs| ==> fs[i] == fs[1..][i - 1];
  }

  lemma {:induction false} ReadAllExactly(fs: seq<PrintedFile>)
    requires AllPrintable(fs)
    ensures ReadAll(fs).Parsed? && |ReadAll(fs).files| == |fs|
    ensures ReadAll(fs) == Parsed(ExpectedFiles(CleanFiles(fs))) <==> AllTrapFree(fs)
  {
    if fs != [] {
      var first := Finish(Run(Start, FileLines(CleanFile(fs[0]))));
      FileOutcome(fs[0]);
      ReadAllExactly(fs[1..]);
      JoinOne(first, ReadAll(fs[1..]), ExpectedFile(CleanFile(fs[0])), ExpectedFiles(CleanFiles(fs[1..])));
      AllTrapFreeStep(fs);
      assert CleanFiles(fs)[1..] == CleanFiles(fs[1..]);
    }
  }

  /** Any list of printed files is read back as that many files, and as exactly the expected ones if and
      only if no edit is a trap. */
  lemma ParsingUndoesPrinting(fs: seq<PrintedFile>)
    requires AllPrintable(fs)
    ensures var o := Parse(Print(fs));
            o.Parsed? && |o.files| == |fs| && (o == Parsed(ExpectedFiles(CleanFiles(fs))) <==> AllTrapFree(fs))
  {
    ParseReadsAll(fs);
    ReadAllExactly(fs);
  }
}
