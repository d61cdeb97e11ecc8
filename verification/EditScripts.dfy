/** Diffs of an old against a new file, and the line numbers the parser gives them. */
module EditScripts {
  import opened Wrappers
  import opened Text
  import opened UnifiedDiff
  import opened DiffPrinting

  /** Unchanged lines that are not shown, then a hunk. A count of 1 may be left out of the header. */
  datatype Chunk = Chunk(skipped: seq<string>, edits: seq<Edit>, heading: string,
                         showOldCount: bool, showNewCount: bool)

  datatype FileDiff = FileDiff(names: string, extended: seq<string>, oldName: string, newName: string,
                               chunks: seq<Chunk>, tail: seq<string>)

  datatype Side = Old | New

  /** The edit's text is a line of that side's file. */
  predicate On(e: Edit, s: Side) {
    e.Keep? || e.Empty? || (s.Old? && e.Remove?) || (s.New? && e.Insert?)
  }

  function TextOn(edits: seq<Edit>, s: Side): seq<string> {
    if edits == [] then []
    else (if On(edits[0], s) then [TextOf(edits[0])] else []) + TextOn(edits[1..], s)
  }

  function FileOn(chunks: seq<Chunk>, tail: seq<string>, s: Side): seq<string> {
    if chunks == [] then tail
    else chunks[0].skipped + (TextOn(chunks[0].edits, s) + FileOn(chunks[1..], tail, s))
  }

  function OldFile(d: FileDiff): seq<string> {
    FileOn(d.chunks, d.tail, Old)
  }

  function NewFile(d: FileDiff): seq<string> {
    FileOn(d.chunks, d.tail, New)
  }

  /** The start of a range of count lines after `before` lines; an empty range starts one line earlier. */
  function RangeStart(before: nat, count: nat): nat {
    if count == 0 then before else before + 1
  }

  function RangeCount(shown: bool, count: nat): Option<nat> {
    if shown || count != 1 then Some(count) else None
  }

  function ToHunk(c: Chunk, o: nat, n: nat): PrintedHunk {
    var oldCount, newCount := |TextOn(c.edits, Old)|, |TextOn(c.edits, New)|;
    PrintedHunk(RangeStart(o, oldCount), RangeCount(c.showOldCount, oldCount),
                RangeStart(n, newCount), RangeCount(c.showNewCount, newCount), c.heading, c.edits)
  }

  function ToHunks(chunks: seq<Chunk>, o: nat, n: nat): (r: seq<PrintedHunk>)
    ensures |r| == |chunks|
  {
    if chunks == [] then []
    else
      var c := chunks[0];
      var o1, n1 := o + |c.skipped|, n + |c.skipped|;
      [ToHunk(c, o1, n1)] + ToHunks(chunks[1..], o1 + |TextOn(c.edits, Old)|, n1 + |TextOn(c.edits, New)|)
  }

  function ToPrinted(d: FileDiff): PrintedFile {
    PrintedFile(d.names, d.extended, true, d.oldName, d.newName, ToHunks(d.chunks, 0, 0))
  }

  predicate ChunkOneLine(c: Chunk) {
    OneLine(c.heading) && forall i :: 0 <= i < |c.edits| ==> OneLine(TextOf(c.edits[i]))
  }

  /** Texts hold no newline, and an int can count the lines of either file and those of a hunk on top. */
  predicate WellFormed(d: FileDiff) {
    && OneLine(d.names) && OneLine(d.oldName) && OneLine(d.newName)
    && (forall i :: 0 <= i < |d.extended| ==> OneLine(d.extended[i]) && !AnyHeader(StripCR(d.extended[i])))
    && (forall i :: 0 <= i < |d.chunks| ==> ChunkOneLine(d.chunks[i]) && Countable(d, d.chunks[i]))
  }

  predicate Countable(d: FileDiff, c: Chunk) {
    |OldFile(d)| + |c.edits| < MAX_INT && |NewFile(d)| + |c.edits| < MAX_INT
  }

  predicate NoTraps(d: FileDiff) {
    forall i :: 0 <= i < |d.chunks| ==> TrapFree(d.chunks[i].edits)
  }

  // ----- the true numbers -----

  /** The lines of a side's file before chunk i's hunk. */
  function BeforeOn(chunks: seq<Chunk>, i: nat, s: Side): nat
    requires i < |chunks|
  {
    if i == 0 then |chunks[0].skipped|
    else |chunks[0].skipped| + |TextOn(chunks[0].edits, s)| + BeforeOn(chunks[1..], i - 1, s)
  }

  /** The lines of a side's file that a hunk holds before edit j. */
  function Offset(edits: seq<Edit>, j: nat, s: Side): (n: nat)
    requires j <= |edits|
    ensures n <= j
  {
    if j == 0 then 0 else (if On(edits[0], s) then 1 else 0) + Offset(edits[1..], j - 1, s)
  }

  /** The markers before edit j of a hunk. */
  function MarkersBefore(edits: seq<Edit>, j: nat): (n: nat)
    requires j <= |edits|
    ensures n <= j
  {
    if j == 0 then 0 else (if edits[0].Marker? then 1 else 0) + MarkersBefore(edits[1..], j - 1)
  }

  predicate IsEdit(d: FileDiff, i: int, j: int) {
    0 <= i < |d.chunks| && 0 <= j < |d.chunks[i].edits|
  }

  /** The number that an edit's line has in its file. */
  function TrueNumber(d: FileDiff, i: nat, j: nat, s: Side): nat
    requires IsEdit(d, i, j)
  {
    BeforeOn(d.chunks, i, s) + Offset(d.chunks[i].edits, j, s) + 1
  }

  lemma {:induction false} OffsetIs(edits: seq<Edit>, j: nat, s: Side)
    requires j < |edits| && On(edits[j], s)
    ensures Offset(edits, j, s) < |TextOn(edits, s)| && TextOn(edits, s)[Offset(edits, j, s)] == TextOf(edits[j])
  {
    if j > 0 {
      OffsetIs(edits[1..], j - 1, s);
    }
  }

  lemma {:induction false} FileLineIs(chunks: seq<Chunk>, tail: seq<string>, i: nat, j: nat, s: Side)
    requires i < |chunks| && j < |chunks[i].edits| && On(chunks[i].edits[j], s)
    ensures var k := BeforeOn(chunks, i, s) + Offset(chunks[i].edits, j, s);
            k < |FileOn(chunks, tail, s)| && FileOn(chunks, tail, s)[k] == TextOf(chunks[i].edits[j])
  {
    if i == 0 {
      OffsetIs(chunks[0].edits, j, s);
    } else {
      FileLineIs(chunks[1..], tail, i - 1, j, s);
    }
  }

  /** The true number is that of the edit's line in its file. */
  lemma TrueNumberIs(d: FileDiff, i: nat, j: nat, s: Side)
    requires IsEdit(d, i, j) && On(d.chunks[i].edits[j], s)
    ensures IsLine(FileOn(d.chunks, d.tail, s), TrueNumber(d, i, j, s), StripCR(TextOf(d.chunks[i].edits[j])))
  {
    FileLineIs(d.chunks, d.tail, i, j, s);
  }

  predicate IsLine(file: seq<string>, number: int, text: string) {
    1 <= number <= |file| && StripCR(file[number - 1]) == text
  }

  // ----- the numbers the parser gives -----

  /** How far a side's counter has moved at edit j: by the lines of its file, and by every marker. */
  function Ahead(edits: seq<Edit>, j: nat, s: Side): nat
    requires j <= |edits|
  {
    if j == 0 then 0 else (if edits[0].Marker? || On(edits[0], s) then 1 else 0) + Ahead(edits[1..], j - 1, s)
  }

  lemma {:induction false} AheadIs(edits: seq<Edit>, j: nat, s: Side)
    requires j <= |edits|
    ensures Ahead(edits, j, s) == Offset(edits, j, s) + MarkersBefore(edits, j)
  {
    if j > 0 {
      AheadIs(edits[1..], j - 1, s);
    }
  }

  lemma {:induction false} CleanAhead(edits: seq<Edit>, j: nat, s: Side)
    requires j <= |edits|
    ensures Ahead(CleanEdits(edits), j, s) == Ahead(edits, j, s)
  {
    if j > 0 {
      assert CleanEdits(edits)[1..] == CleanEdits(edits[1..]);
      CleanAhead(edits[1..], j - 1, s);
    }
  }

  lemma {:induction false} NumberedAt(edits: seq<Edit>, o: int, n: int, j: nat)
    requires j < |edits| && o + |edits| <= MAX_INT && n + |edits| <= MAX_INT
    ensures Numbered(edits, o, n)[j] == LineOf(edits[j], o + Ahead(edits, j, Old), n + Ahead(edits, j, New))
    decreases edits
  {
    if j > 0 {
      var e := edits[0];
      NumberedAt(edits[1..], if e.Insert? then o else o + 1, if e.Remove? then n else n + 1, j - 1);
    }
  }

  lemma {:induction false} HunkAt(chunks: seq<Chunk>, o: nat, n: nat, i: nat)
    requires i < |chunks|
    ensures ToHunks(chunks, o, n)[i] == ToHunk(chunks[i], o + BeforeOn(chunks, i, Old), n + BeforeOn(chunks, i, New))
  {
    if i > 0 {
      var c := chunks[0];
      HunkAt(chunks[1..], o + |c.skipped| + |TextOn(c.edits, Old)|, n + |c.skipped| + |TextOn(c.edits, New)|, i - 1);
    }
  }

  lemma {:induction false} BeforeFits(chunks: seq<Chunk>, tail: seq<string>, i: nat, s: Side)
    requires i < |chunks|
    ensures BeforeOn(chunks, i, s) + |TextOn(chunks[i].edits, s)| <= |FileOn(chunks, tail, s)|
  {
    if i > 0 {
      BeforeFits(chunks[1..], tail, i - 1, s);
    }
  }

  lemma HunkFits(d: FileDiff, i: nat)
    requires WellFormed(d) && i < |d.chunks|
    ensures var h := ToPrinted(d).hunks[i];
            && h == ToHunk(d.chunks[i], BeforeOn(d.chunks, i, Old), BeforeOn(d.chunks, i, New))
            && PrintableHunk(h)
            && h.oldStart + |h.edits| <= MAX_INT && h.newStart + |h.edits| <= MAX_INT
  {
    HunkAt(d.chunks, 0, 0, i);
    BeforeFits(d.chunks, d.tail, i, Old);
    BeforeFits(d.chunks, d.tail, i, New);
    assert ChunkOneLine(d.chunks[i]) && Countable(d, d.chunks[i]);
  }

  /** A line that has a side's file as its own: there the range is not empty and starts at the next line. */
  lemma StartsNext(c: Chunk, o: nat, n: nat, j: nat)
    requires j < |c.edits|
    ensures On(c.edits[j], Old) ==> ToHunk(c, o, n).oldStart == o + 1
    ensures On(c.edits[j], New) ==> ToHunk(c, o, n).newStart == n + 1
  {
    if On(c.edits[j], Old) {
      OffsetIs(c.edits, j, Old);
    }
    if On(c.edits[j], New) {
      OffsetIs(c.edits, j, New);
    }
  }

  /** The line an edit becomes at the given numbers; of a marker only that it is a context line. */
  predicate Shows(l: Line, e: Edit, o: int, n: int) {
    if e.Marker? then l.kind == Context && l.text == "\\" + e.text else l == LineOf(e, o, n)
  }

  lemma ShowsOnSides(e: Edit, o: int, n: int, o2: int, n2: int)
    requires (On(e, Old) ==> o == o2) && (On(e, New) ==> n == n2)
    ensures Shows(LineOf(e, o, n), e, o2, n2)
  {}

  lemma CleanAheadIs(edits: seq<Edit>, j: nat, s: Side)
    requires j <= |edits|
    ensures Ahead(CleanEdits(edits), j, s) == Offset(edits, j, s) + MarkersBefore(edits, j)
  {
    CleanAhead(edits, j, s);
    AheadIs(edits, j, s);
  }

  lemma NumberedBy(edits: seq<Edit>, o: int, n: int, j: nat, e: Edit, a: nat, b: nat)
    requires j < |edits| && o + |edits| <= MAX_INT && n + |edits| <= MAX_INT && e == edits[j]
    requires Ahead(edits, j, Old) == a && Ahead(edits, j, New) == b
    ensures Numbered(edits, o, n)[j] == LineOf(e, o + a, n + b)
  {
    NumberedAt(edits, o, n, j);
  }

  /** A line of a hunk whose counts of earlier lines are o and n. */
  lemma HunkLineIs(edits: seq<Edit>, oldStart: nat, newStart: nat, o: nat, n: nat, j: nat, late: nat)
    requires j < |edits| && oldStart + |edits| <= MAX_INT && newStart + |edits| <= MAX_INT
    requires late == MarkersBefore(edits, j)
    requires On(edits[j], Old) ==> oldStart == o + 1
    requires On(edits[j], New) ==> newStart == n + 1
    ensures Shows(Numbered(CleanEdits(edits), oldStart, newStart)[j], CleanEdit(edits[j]),
                  o + Offset(edits, j, Old) + 1 + late, n + Offset(edits, j, New) + 1 + late)
  {
    CleanAheadIs(edits, j, Old);
    CleanAheadIs(edits, j, New);
    NumberedBy(CleanEdits(edits), oldStart, newStart, j, CleanEdit(edits[j]),
               Offset(edits, j, Old) + late, Offset(edits, j, New) + late);
    ShowsOnSides(CleanEdit(edits[j]), oldStart + (Offset(edits, j, Old) + late),
                 newStart + (Offset(edits, j, New) + late),
                 o + Offset(edits, j, Old) + 1 + late, n + Offset(edits, j, New) + 1 + late);
  }

  /** The line that an edit is read as. A marker becomes a context line that is in neither file; every other line
      carries its true number plus the markers before it in its hunk. */
  predicate ReadAs(d: FileDiff, i: nat, j: nat, l: Line)
    requires IsEdit(d, i, j)
  {
    var late := MarkersBefore(d.chunks[i].edits, j);
    Shows(l, CleanEdit(d.chunks[i].edits[j]), TrueNumber(d, i, j, Old) + late, TrueNumber(d, i, j, New) + late)
  }

  lemma EditIsRead(d: FileDiff, i: nat, j: nat)
    requires WellFormed(d) && IsEdit(d, i, j)
    ensures var h := ToPrinted(d).hunks[i];
            h.edits == d.chunks[i].edits && ReadAs(d, i, j, Numbered(CleanEdits(h.edits), h.oldStart, h.newStart)[j])
  {
    var h := ToPrinted(d).hunks[i];
    var o, n := BeforeOn(d.chunks, i, Old), BeforeOn(d.chunks, i, New);
    HunkFits(d, i);
    StartsNext(d.chunks[i], o, n, j);
    HunkLineIs(h.edits, h.oldStart, h.newStart, o, n, j, MarkersBefore(h.edits, j));
  }

  /** A parsed file says what the script says: one hunk per chunk, and one line per edit, read as it should be. */
  ghost predicate Faithful(f: File, d: FileDiff) {
    && |f.hunks| == |d.chunks|
    && (forall i :: 0 <= i < |d.chunks| ==> |f.hunks[i].lines| == |d.chunks[i].edits|)
    && forall i, j :: IsEdit(d, i, j) ==> ReadAs(d, i, j, f.hunks[i].lines[j])
  }

  lemma ExpectedIsFaithful(d: FileDiff)
    requires WellFormed(d)
    ensures Faithful(ExpectedFile(CleanFile(ToPrinted(d))), d)
  {
    var f := ExpectedFile(CleanFile(ToPrinted(d)));
    forall i | 0 <= i < |d.chunks|
      ensures |f.hunks[i].lines| == |d.chunks[i].edits|
    {
      HunkFits(d, i);
    }
    forall i, j | IsEdit(d, i, j)
      ensures ReadAs(d, i, j, f.hunks[i].lines[j])
    {
      EditIsRead(d, i, j);
    }
  }

  lemma ToPrintedPrintable(d: FileDiff)
    requires WellFormed(d)
    ensures Printable(ToPrinted(d)) && (FileTrapFree(ToPrinted(d)) <==> NoTraps(d))
  {
    forall i | 0 <= i < |d.chunks|
      ensures PrintableHunk(ToPrinted(d).hunks[i]) && ToPrinted(d).hunks[i].edits == d.chunks[i].edits
    {
      HunkFits(d, i);
    }
  }

  lemma OneExpected(f: PrintedFile)
    ensures ExpectedFiles(CleanFiles([f])) == [ExpectedFile(CleanFile(f))]
  {
    assert [f][1..] == [];
    assert CleanFiles([f]) == [CleanFile(f)];
    assert [CleanFile(f)][1..] == [];
  }

  /** The parser reads the printed script as expected exactly when the script is free of traps; a trap anywhere
      loses that line. */
  lemma ScriptReadsBackExactly(d: FileDiff)
    requires WellFormed(d)
    ensures Parse(Print([ToPrinted(d)])) == Parsed([ExpectedFile(CleanFile(ToPrinted(d)))]) <==> NoTraps(d)
  {
    var f := ToPrinted(d);
    ToPrintedPrintable(d);
    ParsingUndoesPrinting([f]);
    OneExpected(f);
    assert AllTrapFree([f]) <==> FileTrapFree([f][0]);
  }

  /** For every edit script between an old and a new file, markers included, printed with correct hunk starts and
      free of traps, the parser reads one file that is faithful to the script. */
  lemma EditScriptIsNumbered(d: FileDiff)
    requires WellFormed(d) && NoTraps(d)
    ensures exists f :: Parse(Print([ToPrinted(d)])) == Parsed([f]) && Faithful(f, d)
  {
    ScriptReadsBackExactly(d);
    ExpectedIsFaithful(d);
  }

  // ----- what markers do -----

  ghost predicate HasMarker(d: FileDiff) {
    exists i, j :: IsEdit(d, i, j) && d.chunks[i].edits[j].Marker?
  }

  /** Some hunk has a marker in front of an added or a deleted line. */
  ghost predicate MarkerBeforeChange(d: FileDiff) {
    exists i, j :: IsEdit(d, i, j) && Changes(d.chunks[i].edits[j]) && MarkersBefore(d.chunks[i].edits, j) > 0
  }

  /** Every added line has its number in the new file, and every deleted line its number in the old one. */
  ghost predicate ChangesRight(f: File, d: FileDiff)
    requires Faithful(f, d)
  {
    forall i, j :: IsEdit(d, i, j) && Changes(d.chunks[i].edits[j]) ==>
      var l := f.hunks[i].lines[j];
      if d.chunks[i].edits[j].Insert? then l.newLine == TrueNumber(d, i, j, New)
      else l.oldLine == TrueNumber(d, i, j, Old)
  }

  /** Behind its leading space, if it is not empty, a context line is the line of either file that it claims to be. */
  predicate ContextRight(l: Line, d: FileDiff) {
    && (l.text == "" || " " <= l.text)
    && IsLine(OldFile(d), l.oldLine, TrimPrefix(l.text, " ")) && IsLine(NewFile(d), l.newLine, TrimPrefix(l.text, " "))
  }

  ghost predicate ContextsRight(f: File, d: FileDiff)
    requires Faithful(f, d)
  {
    forall i, j :: IsEdit(d, i, j) && f.hunks[i].lines[j].kind == Context ==> ContextRight(f.hunks[i].lines[j], d)
  }

  lemma {:induction false} MarkersCount(edits: seq<Edit>, j: nat)
    requires j <= |edits|
    ensures MarkersBefore(edits, j) > 0 <==> exists k :: 0 <= k < j && edits[k].Marker?
  {
    if j > 0 {
      MarkersCount(edits[1..], j - 1);
      assert forall k :: 1 <= k < j ==> edits[k] == edits[1..][k - 1];
      assert forall k :: 0 <= k < j - 1 ==> edits[1..][k] == edits[k + 1];
    }
  }

  lemma ContextOf(d: FileDiff, f: File, i: nat, j: nat)
    requires Faithful(f, d) && IsEdit(d, i, j) && f.hunks[i].lines[j].kind == Context
    ensures d.chunks[i].edits[j].Marker? ==> !ContextRight(f.hunks[i].lines[j], d)
    ensures !d.chunks[i].edits[j].Marker? && MarkersBefore(d.chunks[i].edits, j) == 0
            ==> ContextRight(f.hunks[i].lines[j], d)
  {
    var e, l := d.chunks[i].edits[j], f.hunks[i].lines[j];
    assert ReadAs(d, i, j, l);
    if e.Marker? {
      assert l.text[0] == '\\' && " "[0] == ' ';
    } else {
      assert (e.Keep? || e.Empty?) && TrimPrefix(l.text, " ") == StripCR(TextOf(e));
      TrueNumberIs(d, i, j, Old);
      TrueNumberIs(d, i, j, New);
    }
  }

  /** Markers are the only cause of wrong numbers: added and deleted lines are right exactly when no marker
      precedes one of them in its hunk, and context lines are exactly when there is no marker at all. */
  lemma MarkersExactly(d: FileDiff, f: File)
    requires Faithful(f, d)
    ensures ChangesRight(f, d) <==> !MarkerBeforeChange(d)
    ensures ContextsRight(f, d) <==> !HasMarker(d)
  {
    forall i, j | IsEdit(d, i, j)
      ensures ReadAs(d, i, j, f.hunks[i].lines[j])
    {}
    forall i, j | IsEdit(d, i, j) && f.hunks[i].lines[j].kind == Context
      ensures !HasMarker(d) ==> ContextRight(f.hunks[i].lines[j], d)
      ensures d.chunks[i].edits[j].Marker? ==> !ContextRight(f.hunks[i].lines[j], d)
    {
      ContextOf(d, f, i, j);
      MarkersCount(d.chunks[i].edits, j);
      if MarkersBefore(d.chunks[i].edits, j) > 0 {
        var k :| 0 <= k < j && d.chunks[i].edits[k].Marker?;
        assert IsEdit(d, i, k);
      }
    }
  }

  const NO_NEWLINE := " No newline at end of file"

  const LosesNewline := FileDiff("a/f b/f", [], "a/f", "b/f",
                                 [Chunk([], [Remove("a"), Marker(NO_NEWLINE), Insert("a"), Insert("b")],
                                        "", false, true)], [])

  /** The new lines 1 and 2 are read as 2 and 3, and the marker as context. */
  predicate Misnumbered(f: File) {
    && |f.hunks| == 1 && |f.hunks[0].lines| == 4
    && f.hunks[0].lines[2] == Line(0, 2, Added, "a") && f.hunks[0].lines[3] == Line(0, 3, Added, "b")
    && f.hunks[0].lines[1].kind == Context && !ContextRight(f.hunks[0].lines[1], LosesNewline)
  }

  /** A file that gets a second line and the newline it lacked is read with wrong numbers. */
  lemma MarkerMisnumbers()
    ensures NewFile(LosesNewline) == ["a", "b"]
    ensures exists f :: Parse(Print([ToPrinted(LosesNewline)])) == Parsed([f]) && Misnumbered(f)
  {
    LosesNewlineReadable();
    EditScriptIsNumbered(LosesNewline);
    var f :| Parse(Print([ToPrinted(LosesNewline)])) == Parsed([f]) && Faithful(f, LosesNewline);
    LosesNewlineRead(f);
  }

  lemma LosesNewlineReadable()
    ensures WellFormed(LosesNewline) && NoTraps(LosesNewline)
  {
    var d := LosesNewline;
    FilesShort(d.chunks[0], Old);
    FilesShort(d.chunks[0], New);
    assert d.chunks == [d.chunks[0]];
    assert !("-- " <= "a") && !("++ " <= "a") && !("++ " <= "b");
  }

  lemma FilesShort(c: Chunk, s: Side)
    requires c.skipped == []
    ensures |FileOn([c], [], s)| <= |c.edits|
  {
    assert [c][1..] == [];
    assert FileOn([c][1..], [], s) == [];
    TextShort(c.edits, s);
  }

  lemma {:induction false} TextShort(edits: seq<Edit>, s: Side)
    ensures |TextOn(edits, s)| <= |edits|
  {
    if edits != [] {
      TextShort(edits[1..], s);
    }
  }

  lemma LosesNewlineRead(f: File)
    requires Faithful(f, LosesNewline)
    ensures NewFile(LosesNewline) == ["a", "b"] && Misnumbered(f)
  {
    var d := LosesNewline;
    var e0 := d.chunks[0].edits;
    assert e0 == [Remove("a"), Marker(NO_NEWLINE), Insert("a"), Insert("b")];
    var e1, e2, e3 := e0[1..], e0[1..][1..], e0[1..][1..][1..];
    assert e1 == [Marker(NO_NEWLINE), Insert("a"), Insert("b")];
    assert e2 == [Insert("a"), Insert("b")] && e3 == [Insert("b")] && e3[1..] == [];
    assert TextOn([], New) == [];
    assert TextOn(e3, New) == ["b"] + [];
    assert TextOn(e2, New) == ["a"] + TextOn(e3, New);
    assert TextOn(e1, New) == [] + TextOn(e2, New);
    assert TextOn(e0, New) == [] + TextOn(e1, New);
    assert d.chunks[1..] == [] && FileOn([], [], New) == [];
    assert NewFile(d) == [] + (TextOn(e0, New) + []);
    assert Offset(e2, 0, New) == 0 && Offset(e1, 1, New) == 0 && Offset(e0, 2, New) == 0;
    assert Offset(e3, 0, New) == 0 && Offset(e2, 1, New) == 1 && Offset(e1, 2, New) == 1 && Offset(e0, 3, New) == 1;
    assert MarkersBefore(e2, 0) == 0 && MarkersBefore(e1, 1) == 1 && MarkersBefore(e0, 2) == 1;
    assert MarkersBefore(e3, 0) == 0 && MarkersBefore(e2, 1) == 0 && MarkersBefore(e1, 2) == 1;
    assert MarkersBefore(e0, 3) == 1;
    assert IsEdit(d, 0, 1) && IsEdit(d, 0, 2) && IsEdit(d, 0, 3);
    assert ReadAs(d, 0, 2, f.hunks[0].lines[2]) && ReadAs(d, 0, 3, f.hunks[0].lines[3]);
    assert ReadAs(d, 0, 1, f.hunks[0].lines[1]);
    ContextOf(d, f, 0, 1);
  }

  // ----- what a script means -----

  function Unmark(edits: seq<Edit>): seq<Edit> {
    if edits == [] then [] else (if edits[0].Marker? then [] else [edits[0]]) + Unmark(edits[1..])
  }

  function UnmarkChunks(chunks: seq<Chunk>): (r: seq<Chunk>)
    ensures |r| == |chunks|
  {
    if chunks == [] then []
    else [chunks[0].(edits := Unmark(chunks[0].edits))] + UnmarkChunks(chunks[1..])
  }

  /** What the parser should read: the script's lines at their true numbers, and nothing else. */
  function Meaning(d: FileDiff): File {
    ExpectedFile(CleanFile(ToPrinted(d.(chunks := UnmarkChunks(d.chunks)))))
  }

  lemma {:induction false} UnmarkKeeps(edits: seq<Edit>, s: Side)
    ensures TextOn(Unmark(edits), s) == TextOn(edits, s) && ChangeCount(Unmark(edits)) == ChangeCount(edits)
    ensures |Unmark(edits)| <= |edits|
    ensures |Unmark(edits)| == |edits| <==> forall j :: 0 <= j < |edits| ==> !edits[j].Marker?
    ensures |Unmark(edits)| == |edits| ==> Unmark(edits) == edits
  {
    if edits != [] {
      UnmarkKeeps(edits[1..], s);
      ConcatNil(Unmark(edits[1..]));
      assert forall j :: 1 <= j < |edits| ==> edits[j] == edits[1..][j - 1];
      if !edits[0].Marker? {
        assert ([edits[0]] + Unmark(edits[1..]))[1..] == Unmark(edits[1..]);
      }
    }
  }

  lemma {:induction false} UnmarkedChanges(chunks: seq<Chunk>, o: nat, n: nat)
    ensures ChangesIn(ToHunks(UnmarkChunks(chunks), o, n)) == ChangesIn(ToHunks(chunks, o, n))
  {
    if chunks != [] {
      var c := chunks[0];
      UnmarkKeeps(c.edits, Old);
      UnmarkKeeps(c.edits, New);
      UnmarkedChanges(chunks[1..], o + |c.skipped| + |TextOn(c.edits, Old)|, n + |c.skipped| + |TextOn(c.edits, New)|);
    }
  }

  lemma {:induction false} UnmarkedAt(chunks: seq<Chunk>, o: nat, n: nat, i: nat)
    requires i < |chunks|
    ensures ToHunks(UnmarkChunks(chunks), o, n)[i].edits == Unmark(chunks[i].edits)
  {
    if i > 0 {
      var c := chunks[0].(edits := Unmark(chunks[0].edits));
      var o1, n1 := o + |c.skipped| + |TextOn(c.edits, Old)|, n + |c.skipped| + |TextOn(c.edits, New)|;
      UnmarkedAt(chunks[1..], o1, n1, i - 1);
    }
  }

  lemma {:induction false} UnmarkedChunks(chunks: seq<Chunk>)
    requires forall i, j :: 0 <= i < |chunks| && 0 <= j < |chunks[i].edits| ==> !chunks[i].edits[j].Marker?
    ensures UnmarkChunks(chunks) == chunks
  {
    if chunks != [] {
      UnmarkKeeps(chunks[0].edits, Old);
      UnmarkedChunks(chunks[1..]);
    }
  }

  /** Cleaning changes no change. */
  lemma {:induction false} CleanChanges(edits: seq<Edit>)
    ensures ChangeCount(CleanEdits(edits)) == ChangeCount(edits)
  {
    if edits != [] {
      assert CleanEdits(edits)[1..] == CleanEdits(edits[1..]);
      CleanChanges(edits[1..]);
    }
  }

  lemma {:induction false} CleanChangesIn(hs: seq<PrintedHunk>)
    ensures ChangesIn(CleanHunks(hs)) == ChangesIn(hs)
  {
    if hs != [] {
      assert CleanHunks(hs)[1..] == CleanHunks(hs[1..]);
      CleanChanges(hs[0].edits);
      CleanChangesIn(hs[1..]);
    }
  }

  /** The meaning has as many changes as the script, so a parse that equals it lost none to a trap. */
  lemma MeaningHasAllChanges(d: FileDiff)
    ensures ParsedChanges(Meaning(d).hunks) == ChangesIn(CleanFile(ToPrinted(d)).hunks)
  {
    var u := d.(chunks := UnmarkChunks(d.chunks));
    UnmarkedChanges(d.chunks, 0, 0);
    CleanChangesIn(ToPrinted(u).hunks);
    CleanChangesIn(ToPrinted(d).hunks);
    ExpectedCount(Meaning(d).path, CleanFile(ToPrinted(u)).hunks);
  }

  lemma MeaningShort(d: FileDiff, i: nat)
    requires i < |d.chunks|
    ensures |Meaning(d).hunks| == |d.chunks| && |Meaning(d).hunks[i].lines| == |Unmark(d.chunks[i].edits)|
  {
    UnmarkedAt(d.chunks, 0, 0, i);
  }

  /** The parser reads exactly what a script means if and only if the script has neither traps nor markers. */
  lemma EditScriptExactly(d: FileDiff)
    requires WellFormed(d)
    ensures Parse(Print([ToPrinted(d)])) == Parsed([Meaning(d)]) <==> NoTraps(d) && !HasMarker(d)
  {
    ScriptReadsBackExactly(d);
    if !HasMarker(d) {
      forall i, j | 0 <= i < |d.chunks| && 0 <= j < |d.chunks[i].edits|
        ensures !d.chunks[i].edits[j].Marker?
      {
        assert IsEdit(d, i, j);
      }
      UnmarkedChunks(d.chunks);
    }
    if Parse(Print([ToPrinted(d)])) == Parsed([Meaning(d)]) {
      MeaningHasNoTraps(d);
      MeaningHasNoMarkers(d);
    }
  }

  lemma ParsedAlone(f: PrintedFile, g: File)
    requires Printable(f) && Parse(Print([f])) == Parsed([g])
    ensures ParsedChanges(g.hunks) == UntrappedIn(CleanFile(f).hunks)
  {
    assert [f][1..] == [];
    ConcatNil(Unlines(FileLines(f)));
    ParseOneFile(f);
    PrintableReadable(f);
    FileCount(CleanFile(f));
    assert [g][0] == g;
  }

  lemma MeaningHasNoTraps(d: FileDiff)
    requires WellFormed(d) && Parse(Print([ToPrinted(d)])) == Parsed([Meaning(d)])
    ensures NoTraps(d)
  {
    var f := ToPrinted(d);
    ToPrintedPrintable(d);
    ParsedAlone(f, Meaning(d));
    MeaningHasAllChanges(d);
    CleanFileTraps(f);
    assert UntrappedIn(CleanFile(f).hunks) == ChangesIn(CleanFile(f).hunks);
  }

  lemma MeaningHasNoMarkers(d: FileDiff)
    requires WellFormed(d) && Parse(Print([ToPrinted(d)])) == Parsed([Meaning(d)]) && NoTraps(d)
    ensures !HasMarker(d)
  {
    ScriptReadsBackExactly(d);
    ExpectedIsFaithful(d);
    assert [ExpectedFile(CleanFile(ToPrinted(d)))][0] == [Meaning(d)][0];
    forall i, j | IsEdit(d, i, j)
      ensures !d.chunks[i].edits[j].Marker?
    {
      MeaningShort(d, i);
      UnmarkKeeps(d.chunks[i].edits, Old);
    }
  }
}
