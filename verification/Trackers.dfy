/** The two line trackers on one printed diff: what the Skill's scanner sees of the lines the parser numbers. */
module Trackers {
  import opened Wrappers
  import opened Text
  import opened UnifiedDiff
  import opened DiffPrinting
  import opened SkillScan

  // ----- what the scanner makes of one edit -----

  /** The scanner takes a line "+++..." for neither a file name nor an added line. */
  predicate Hidden(e: Edit) {
    e.Insert? && "++" <= e.text
  }

  predicate Seen(e: Edit) {
    e.Insert? && !Hidden(e)
  }

  function TokenOfEdit(e: Edit): Token {
    match e
    case Keep(t) => ContextLine(t)
    case Remove(_) => Ignored
    case Marker(_) => Ignored
    case Empty(_) => Ignored
    case Insert(t) => if Hidden(e) then Ignored else AddLine(TrimSpace(t))
  }

  function EditTokens(edits: seq<Edit>): seq<Token> {
    if edits == [] then [] else [TokenOfEdit(edits[0])] + EditTokens(edits[1..])
  }

  lemma TokenByFirst(c: char, t: string)
    requires c in {' ', '-', '+', '\\'}
    ensures var token := TokenOf([c] + t);
            && (c == ' ' ==> token == ContextLine(t))
            && (c == '-' || c == '\\' ==> token == Ignored)
            && (c == '+' && !("++" <= t) ==> token == AddLine(TrimSpace(t)))
            && (c == '+' && "++" <= t && !("++ b/" <= t) ==> token == Ignored)
  {
    PrefixOfCons(c, "++ b/", t);
    PrefixOfCons(c, "++", t);
    assert "+++ b/" == ['+'] + "++ b/" && "+++" == ['+'] + "++";
    assert ([c] + t)[0] == c && ([c] + t)[1..] == t;
    assert "@@"[0] == '@' && " "[0] == ' ' && "+"[0] == '+' && "+++ b/"[0] == '+';
  }

  lemma TokenOfShort(line: string)
    requires line == "" || line == "\r"
    ensures TokenOf(line) == Ignored
  {
    assert " "[0] == ' ' && "+"[0] == '+';
  }

  lemma TokenOfBodyLine(e: Edit)
    requires !Trap(e)
    ensures TokenOf(BodyLine(e)) == TokenOfEdit(e)
  {
    var line := BodyLine(e);
    if e.Empty? {
      TokenOfShort(line);
    } else {
      assert line == [line[0]] + e.text;
      TokenByFirst(line[0], e.text);
      if "++ b/" <= e.text {
        assert "++ " <= e.text;
      }
    }
  }

  lemma {:induction false} TokensOfBody(edits: seq<Edit>)
    requires TrapFree(edits)
    ensures Tokens(BodyLines(edits)) == EditTokens(edits)
  {
    if edits != [] {
      TokenOfBodyLine(edits[0]);
      TokensOfBody(edits[1..]);
    }
  }

  // ----- what both see -----

  /** A place: file, line number and trimmed text of an added line. */
  datatype Place = Place(file: string, line: int, text: string)

  function Places(es: seq<Emission>): seq<Place> {
    seq(|es|, i requires 0 <= i < |es| => Place(es[i].file, es[i].line, es[i].text))
  }

  function LinePlaces(path: string, lines: seq<Line>): seq<Place> {
    if lines == [] then []
    else (if lines[0].kind == Added then [Place(path, lines[0].newLine, TrimSpace(lines[0].text))] else [])
         + LinePlaces(path, lines[1..])
  }

  /** What the scanner makes of an inserted line: nothing at all, or an added line of the file it believes to be
      in, `lag` lines too early. */
  datatype Mark = NotShown | Shown(scanned: string, parsed: string, lag: nat)

  /** The emissions are the places in order, each as its mark says. */
  predicate Sees(es: seq<Emission>, ps: seq<Place>, marks: seq<Mark>) {
    if marks == [] then es == [] && ps == []
    else
      && ps != []
      && if marks[0].NotShown? then Sees(es, ps[1..], marks[1..])
         else es != [] && MarkHolds(es[0], ps[0], marks[0]) && Sees(es[1..], ps[1..], marks[1..])
  }

  predicate MarkHolds(e: Emission, p: Place, m: Mark) {
    m.Shown? && e.file == m.scanned && p.file == m.parsed && e.line + m.lag == p.line && e.text == p.text
  }

  function NextNeed(e: Edit, need: nat): nat {
    if Seen(e) && need > 0 then need - 1 else need
  }

  /** The parser counts this line on the new side and the scanner does not; `need` is the number of added lines
      until its counter is positive. */
  predicate Missed(e: Edit, need: nat) {
    e.Marker? || e.Empty? || Hidden(e) || (e.Keep? && need > 0)
  }

  function NextLag(e: Edit, need: nat, lag: nat): nat {
    if Missed(e, need) then lag + 1 else lag
  }

  function MarkOf(e: Edit, scanned: string, parsed: string, lag: nat): seq<Mark> {
    if Hidden(e) then [NotShown] else if e.Insert? then [Shown(scanned, parsed, lag)] else []
  }

  function Marks(scanned: string, parsed: string, edits: seq<Edit>, need: nat, lag: nat): seq<Mark> {
    if edits == [] then []
    else MarkOf(edits[0], scanned, parsed, lag)
         + Marks(scanned, parsed, edits[1..], NextNeed(edits[0], need), NextLag(edits[0], need, lag))
  }

  /** Added lines the scanner needs before its counter is positive. */
  function Need(start: nat): nat {
    if start < 2 then 2 - start else 0
  }

  function PlaceOf(path: string, l: Line): seq<Place> {
    if l.kind == Added then [Place(path, l.newLine, TrimSpace(l.text))] else []
  }

  lemma LinePlacesCons(path: string, l: Line, ls: seq<Line>)
    ensures LinePlaces(path, [l] + ls) == PlaceOf(path, l) + LinePlaces(path, ls)
  {
    assert ([l] + ls)[1..] == ls;
  }

  predicate InStep(counter: int, n: int, need: nat, lag: nat) {
    counter + 1 == n - lag && if need > 0 then counter == 1 - need else counter > 0
  }

  lemma ScanOne(s: ScanState, index: nat, e: Edit, o: int, n: int, need: nat, lag: nat, parsed: string)
    requires InStep(s.newLine, n, need, lag) && n < MAX_INT
    ensures var s1 := ScanStep(s, TokenOfEdit(e));
            && s1.file == s.file
            && InStep(s1.newLine, if e.Remove? then n else n + 1, NextNeed(e, need), NextLag(e, need, lag))
    ensures Sees(Emit(s, index, TokenOfEdit(e)), PlaceOf(parsed, LineOf(e, o, n)), MarkOf(e, s.file, parsed, lag))
  {
    if Seen(e) {
      SeesOne(Emit(s, index, TokenOfEdit(e))[0], Place(parsed, n, TrimSpace(e.text)), Shown(s.file, parsed, lag));
    } else if e.Insert? {
      HidesOne(Place(parsed, n, TrimSpace(e.text)));
    }
  }

  lemma SeesOne(e: Emission, p: Place, m: Mark)
    requires MarkHolds(e, p, m)
    ensures Sees([e], [p], [m])
  {
    assert [e][1..] == [] && [p][1..] == [] && [m][1..] == [];
    assert Sees([], [], []);
  }

  lemma HidesOne(p: Place)
    ensures Sees([], [p], [NotShown])
  {
    assert [p][1..] == [] && [NotShown][1..] == [];
    assert Sees([], [], []);
  }

  lemma {:induction false} SeesConcat(e1: seq<Emission>, p1: seq<Place>, m1: seq<Mark>,
                                      e2: seq<Emission>, p2: seq<Place>, m2: seq<Mark>)
    requires Sees(e1, p1, m1) && Sees(e2, p2, m2)
    ensures Sees(e1 + e2, p1 + p2, m1 + m2)
    decreases m1
  {
    if m1 == [] {
      ConcatNil(e2);
      ConcatNil(p2);
      ConcatNil(m2);
    } else {
      assert (p1 + p2)[1..] == p1[1..] + p2 && (m1 + m2)[1..] == m1[1..] + m2;
      if m1[0].NotShown? {
        SeesConcat(e1, p1[1..], m1[1..], e2, p2, m2);
      } else {
        assert (e1 + e2)[1..] == e1[1..] + e2;
        SeesConcat(e1[1..], p1[1..], m1[1..], e2, p2, m2);
      }
    }
  }

  /** Through one hunk body the scanner sees what the marks say. */
  lemma {:induction false} BodySeen(s: ScanState, index: nat, parsed: string, edits: seq<Edit>, o: int, n: int,
                                    need: nat, lag: nat)
    requires InStep(s.newLine, n, need, lag) && n + |edits| <= MAX_INT
    ensures ScanTo(s, EditTokens(edits)).file == s.file
    ensures Sees(Scan(s, index, EditTokens(edits)), LinePlaces(parsed, Numbered(edits, o, n)),
                 Marks(s.file, parsed, edits, need, lag))
    decreases edits
  {
    if edits != [] {
      var e, rest := edits[0], edits[1..];
      var s1 := ScanStep(s, TokenOfEdit(e));
      var o1, n1 := if e.Insert? then o else Next(o), if e.Remove? then n else Next(n);
      ScanOne(s, index, e, o, n, need, lag, parsed);
      BodySeen(s1, index + 1, parsed, rest, o1, n1, NextNeed(e, need), NextLag(e, need, lag));
      LinePlacesCons(parsed, LineOf(e, o, n), Numbered(rest, o1, n1));
      SeesConcat(Emit(s, index, TokenOfEdit(e)), PlaceOf(parsed, LineOf(e, o, n)), MarkOf(e, s.file, parsed, lag),
                 Scan(s1, index + 1, EditTokens(rest)), LinePlaces(parsed, Numbered(rest, o1, n1)),
                 Marks(s.file, parsed, rest, NextNeed(e, need), NextLag(e, need, lag)));
    }
  }

  // ----- the hunks of a file -----

  lemma {:induction false} PlusDigitsSkip(a: string, b: string)
    requires forall i :: 0 <= i < |a| ==> a[i] != '+'
    ensures PlusDigits(a + b) == PlusDigits(b)
  {
    if a == "" {
      ConcatNil(b);
    } else {
      assert (a + b)[1..] == a[1..] + b;
      PlusDigitsSkip(a[1..], b);
    }
  }

  lemma PlusDigitsHere(n: nat, rest: string)
    requires rest != "" && !IsDigit(rest[0])
    ensures PlusDigits("+" + (Decimal(n) + rest)) == Some(Decimal(n))
  {
    var t := Decimal(n) + rest;
    assert ("+" + t)[1..] == t;
    DigitRunOf(Decimal(n), rest);
    assert t[..|Decimal(n)|] == Decimal(n);
  }

  lemma ScannedHeader(h: PrintedHunk)
    requires InRange(h)
    ensures TokenOf(HeaderLine(h)) == HunkMark(h.newStart - 1)
  {
    var before := "@@ -" + (Decimal(h.oldStart) + Count(h.oldCount)) + " ";
    var rest := Count(h.newCount) + (" @@" + h.heading);
    assert HeaderLine(h) == before + ("+" + (Decimal(h.newStart) + rest));
    PlusDigitsSkip(before, "+" + (Decimal(h.newStart) + rest));
    PlusDigitsHere(h.newStart, rest);
    DecimalRoundTrip(h.newStart);
    TokenHunk(HeaderLine(h));
  }

  lemma TokenHunk(line: string)
    requires "@@" <= line
    ensures TokenOf(line) == HunkMark(StartCounter(line))
  {
    assert line[0] == '@' && "+++ b/"[0] == '+';
  }

  function HunkPlaces(path: string, h: PrintedHunk): seq<Place> {
    LinePlaces(path, Numbered(h.edits, h.oldStart, h.newStart))
  }

  function HunkMarks(scanned: string, parsed: string, h: PrintedHunk): seq<Mark> {
    Marks(scanned, parsed, h.edits, Need(h.newStart), 0)
  }

  /** An int can count the lines. */
  predicate HunkInRange(h: PrintedHunk) {
    InRange(h) && h.newStart + |h.edits| <= MAX_INT
  }

  function HunkTokens(h: PrintedHunk): seq<Token> {
    [HunkMark(h.newStart - 1)] + EditTokens(h.edits)
  }

  function AllHunkTokens(hs: seq<PrintedHunk>): seq<Token> {
    if hs == [] then [] else HunkTokens(hs[0]) + AllHunkTokens(hs[1..])
  }

  lemma TokensOfHunk(h: PrintedHunk)
    requires HunkInRange(h) && TrapFree(h.edits)
    ensures Tokens(HunkLines(h)) == HunkTokens(h)
  {
    ScannedHeader(h);
    assert HunkLines(h)[1..] == BodyLines(h.edits);
    TokensOfBody(h.edits);
  }

  lemma {:induction false} TokensOfHunks(hs: seq<PrintedHunk>)
    requires forall i :: 0 <= i < |hs| ==> HunkInRange(hs[i]) && TrapFree(hs[i].edits)
    ensures Tokens(AllHunkLines(hs)) == AllHunkTokens(hs)
  {
    if hs != [] {
      TokensOfHunk(hs[0]);
      TokensConcat(HunkLines(hs[0]), AllHunkLines(hs[1..]));
      TokensOfHunks(hs[1..]);
    }
  }

  lemma HunkSeen(s: ScanState, index: nat, parsed: string, h: PrintedHunk)
    requires h.newStart + |h.edits| <= MAX_INT
    ensures Sees(Scan(s, index, HunkTokens(h)), HunkPlaces(parsed, h), HunkMarks(s.file, parsed, h))
    ensures ScanTo(s, HunkTokens(h)).file == s.file
  {
    var s1 := ScanStep(s, HunkMark(h.newStart - 1));
    assert HunkTokens(h)[1..] == EditTokens(h.edits);
    BodySeen(s1, index + 1, parsed, h.edits, h.oldStart, h.newStart, Need(h.newStart), 0);
    ConcatNil(Scan(s1, index + 1, EditTokens(h.edits)));
  }

  function AllHunkPlaces(path: string, hs: seq<PrintedHunk>): seq<Place> {
    if hs == [] then [] else HunkPlaces(path, hs[0]) + AllHunkPlaces(path, hs[1..])
  }

  function AllHunkMarks(scanned: string, parsed: string, hs: seq<PrintedHunk>): seq<Mark> {
    if hs == [] then [] else HunkMarks(scanned, parsed, hs[0]) + AllHunkMarks(scanned, parsed, hs[1..])
  }

  lemma ScanAppend(s: ScanState, index: nat, x: seq<Token>, p1: seq<Place>, m1: seq<Mark>,
                   y: seq<Token>, p2: seq<Place>, m2: seq<Mark>)
    requires Sees(Scan(s, index, x), p1, m1) && Sees(Scan(ScanTo(s, x), index + |x|, y), p2, m2)
    ensures Sees(Scan(s, index, x + y), p1 + p2, m1 + m2)
  {
    ScanConcat(s, index, x, y);
    SeesConcat(Scan(s, index, x), p1, m1, Scan(ScanTo(s, x), index + |x|, y), p2, m2);
  }

  predicate Countable(hs: seq<PrintedHunk>) {
    hs == [] || (hs[0].newStart + |hs[0].edits| <= MAX_INT && Countable(hs[1..]))
  }

  lemma {:induction false} HunksSeen(s: ScanState, index: nat, parsed: string, hs: seq<PrintedHunk>)
    requires Countable(hs)
    ensures Sees(Scan(s, index, AllHunkTokens(hs)), AllHunkPlaces(parsed, hs), AllHunkMarks(s.file, parsed, hs))
    ensures ScanTo(s, AllHunkTokens(hs)).file == s.file
    decreases hs
  {
    if hs != [] {
      var x, rest := HunkTokens(hs[0]), AllHunkTokens(hs[1..]);
      var s1 := ScanTo(s, x);
      assert s1.file == s.file
             && Sees(Scan(s, index, x), HunkPlaces(parsed, hs[0]), HunkMarks(s.file, parsed, hs[0])) by {
        HunkSeen(s, index, parsed, hs[0]);
      }
      HunksSeen(s1, index + |x|, parsed, hs[1..]);
      ScanConcat(s, index, x, rest);
      ScanAppend(s, index, x, HunkPlaces(parsed, hs[0]), HunkMarks(s.file, parsed, hs[0]),
                 rest, AllHunkPlaces(parsed, hs[1..]), AllHunkMarks(s.file, parsed, hs[1..]));
    }
  }

  // ----- the preamble of a file -----

  /** The file name the scanner goes on with: only a name line with "b/" tells it a new one. */
  function NameAfter(name: string, f: PrintedFile): string {
    if f.named && "b/" <= f.newName then f.newName[2..] else name
  }

  function NameTokens(f: PrintedFile): seq<Token> {
    if !f.named then []
    else [Ignored, if "b/" <= f.newName then FileMark(f.newName[2..]) else Ignored]
  }

  function Quiet(n: nat): (r: seq<Token>)
    ensures |r| == n
  {
    if n == 0 then [] else [Ignored] + Quiet(n - 1)
  }

  lemma InertFirst(line: string)
    requires line != "" && line[0] !in {'+', '@', ' '}
    ensures TokenOf(line) == Ignored
  {
    assert "+++ b/"[0] == '+' && "@@"[0] == '@' && "+"[0] == '+' && " "[0] == ' ';
  }

  lemma {:induction false} TokensQuiet(lines: seq<string>)
    requires forall i :: 0 <= i < |lines| ==> TokenOf(lines[i]) == Ignored
    ensures Tokens(lines) == Quiet(|lines|)
  {
    if lines != [] {
      TokensQuiet(lines[1..]);
    }
  }

  lemma NameToken(name: string)
    ensures TokenOf("+++ " + name) == if "b/" <= name then FileMark(name[2..]) else Ignored
  {
    var line := "+++ " + name;
    assert "+++ b/" == "+++ " + "b/";
    assert line[4..] == name;
    if "b/" <= name {
      assert line[..6] == "+++ b/" && line[6..] == name[2..];
    }
    assert "+++" <= line && line[0] == '+' && "@@"[0] == '@' && " "[0] == ' ';
  }

  lemma TokensOne(line: string)
    ensures Tokens([line]) == [TokenOf(line)]
  {
    assert [line][1..] == [];
  }

  lemma TokensOfNames(f: PrintedFile)
    ensures Tokens(NameLines(f)) == NameTokens(f)
  {
    var minus, plus := "--- " + f.oldName, "+++ " + f.newName;
    InertFirst(minus);
    NameToken(f.newName);
    TokensOne(minus);
    TokensOne(plus);
    TokensConcat([minus], [plus]);
    assert [minus] + [plus] == [minus, plus];
  }

  function FileTokens(f: PrintedFile): seq<Token> {
    Quiet(|f.extended| + 1) + NameTokens(f) + AllHunkTokens(f.hunks)
  }

  lemma TokensOfPreamble(f: PrintedFile)
    requires forall i :: 0 <= i < |f.extended| ==> TokenOf(f.extended[i]) == Ignored
    ensures Tokens(Preamble(f)) == Quiet(|f.extended| + 1) + NameTokens(f)
  {
    var git := "diff --git " + f.names;
    InertFirst(git);
    TokensOne(git);
    TokensQuiet(f.extended);
    TokensConcat([git], f.extended);
    TokensOfNames(f);
    TokensConcat([git] + f.extended, NameLines(f));
  }

  /** The further lines of the preamble say nothing to the scanner, and an int can count the lines. */
  predicate Scannable(f: PrintedFile) {
    && (forall i :: 0 <= i < |f.extended| ==> TokenOf(f.extended[i]) == Ignored)
    && forall i :: 0 <= i < |f.hunks| ==> HunkInRange(f.hunks[i])
  }

  /** What the scanner sees of a printed file. */
  lemma TokensOfFile(f: PrintedFile)
    requires Scannable(f) && FileTrapFree(f)
    ensures Tokens(FileLines(f)) == FileTokens(f)
  {
    TokensOfPreamble(f);
    TokensOfHunks(f.hunks);
    TokensConcat(Preamble(f), AllHunkLines(f.hunks));
  }

  lemma {:induction false} QuietScan(s: ScanState, index: nat, n: nat)
    ensures ScanTo(s, Quiet(n)) == s && Scan(s, index, Quiet(n)) == []
    decreases n
  {
    if n > 0 {
      assert Quiet(n)[1..] == Quiet(n - 1);
      QuietScan(s, index + 1, n - 1);
    }
  }

  lemma NamesScan(s: ScanState, index: nat, f: PrintedFile)
    ensures ScanTo(s, NameTokens(f)) == s.(file := NameAfter(s.file, f)) && Scan(s, index, NameTokens(f)) == []
  {
    if f.named {
      var last := NameTokens(f)[1];
      assert NameTokens(f)[1..] == [last] && [last][1..] == [];
      assert Scan(ScanStep(s, last), index + 2, []) == [] && Scan(s, index + 1, [last]) == [];
      assert ScanTo(s, [last]) == ScanTo(ScanStep(s, last), []);
    }
  }

  lemma PreambleScan(s: ScanState, index: nat, f: PrintedFile)
    ensures var pre := Quiet(|f.extended| + 1) + NameTokens(f);
            ScanTo(s, pre) == s.(file := NameAfter(s.file, f)) && Scan(s, index, pre) == []
  {
    var n := |f.extended| + 1;
    QuietScan(s, index, n);
    NamesScan(s, index + n, f);
    ScanConcat(s, index, Quiet(n), NameTokens(f));
  }

  function FilePlaces(f: PrintedFile): seq<Place> {
    AllHunkPlaces(ReadName(f).path, f.hunks)
  }

  function FileMarks(name: string, f: PrintedFile): seq<Mark> {
    AllHunkMarks(NameAfter(name, f), ReadName(f).path, f.hunks)
  }

  lemma FileSeen(s: ScanState, index: nat, f: PrintedFile)
    requires Countable(f.hunks)
    ensures Sees(Scan(s, index, FileTokens(f)), FilePlaces(f), FileMarks(s.file, f))
    ensures ScanTo(s, FileTokens(f)).file == NameAfter(s.file, f)
  {
    var pre := Quiet(|f.extended| + 1) + NameTokens(f);
    PreambleScan(s, index, f);
    HunksSeen(ScanTo(s, pre), index + |pre|, ReadName(f).path, f.hunks);
    ScanConcat(s, index, pre, AllHunkTokens(f.hunks));
    ScanAppend(s, index, pre, [], [], AllHunkTokens(f.hunks), FilePlaces(f), FileMarks(s.file, f));
    ConcatNil(FilePlaces(f));
    ConcatNil(FileMarks(s.file, f));
  }

  // ----- whole documents -----

  function AllLines(fs: seq<PrintedFile>): seq<string> {
    if fs == [] then [] else FileLines(fs[0]) + AllLines(fs[1..])
  }

  function AllPlaces(fs: seq<PrintedFile>): seq<Place> {
    if fs == [] then [] else FilePlaces(fs[0]) + AllPlaces(fs[1..])
  }

  function AllMarks(name: string, fs: seq<PrintedFile>): seq<Mark>
    decreases fs
  {
    if fs == [] then [] else FileMarks(name, fs[0]) + AllMarks(NameAfter(name, fs[0]), fs[1..])
  }

  function AllFileTokens(fs: seq<PrintedFile>): seq<Token> {
    if fs == [] then [] else FileTokens(fs[0]) + AllFileTokens(fs[1..])
  }

  lemma {:induction false} TokensOfFiles(fs: seq<PrintedFile>)
    requires forall i :: 0 <= i < |fs| ==> Scannable(fs[i]) && FileTrapFree(fs[i])
    ensures Tokens(AllLines(fs)) == AllFileTokens(fs)
  {
    if fs != [] {
      TokensOfFile(fs[0]);
      TokensConcat(FileLines(fs[0]), AllLines(fs[1..]));
      TokensOfFiles(fs[1..]);
    }
  }

  predicate AllCountable(fs: seq<PrintedFile>) {
    fs == [] || (Countable(fs[0].hunks) && AllCountable(fs[1..]))
  }

  lemma {:induction false} FilesSeen(s: ScanState, index: nat, fs: seq<PrintedFile>)
    requires AllCountable(fs)
    ensures Sees(Scan(s, index, AllFileTokens(fs)), AllPlaces(fs), AllMarks(s.file, fs))
    decreases fs
  {
    if fs != [] {
      var x := FileTokens(fs[0]);
      FileSeen(s, index, fs[0]);
      FilesSeen(ScanTo(s, x), index + |x|, fs[1..]);
      ScanAppend(s, index, x, FilePlaces(fs[0]), FileMarks(s.file, fs[0]),
                 AllFileTokens(fs[1..]), AllPlaces(fs[1..]), AllMarks(NameAfter(s.file, fs[0]), fs[1..]));
    }
  }

  function ParsedHunkPlaces(path: string, hs: seq<Hunk>): seq<Place> {
    if hs == [] then [] else LinePlaces(path, hs[0].lines) + ParsedHunkPlaces(path, hs[1..])
  }

  function ParsedPlaces(files: seq<File>): seq<Place> {
    if files == [] then [] else ParsedHunkPlaces(files[0].path, files[0].hunks) + ParsedPlaces(files[1..])
  }

  /** Where the parser puts the added lines of a text. */
  function ParserPlaces(text: string): seq<Place> {
    var o := Parse(text);
    if o.Parsed? then ParsedPlaces(o.files) else []
  }

  lemma {:induction false} ExpectedHunkPlaces(path: string, hs: seq<PrintedHunk>)
    ensures ParsedHunkPlaces(path, ExpectedHunks(path, hs)) == AllHunkPlaces(path, hs)
  {
    if hs != [] {
      ExpectedHunkPlaces(path, hs[1..]);
    }
  }

  lemma {:induction false} ExpectedPlaces(fs: seq<PrintedFile>)
    ensures ParsedPlaces(ExpectedFiles(fs)) == AllPlaces(fs)
  {
    if fs != [] {
      ExpectedHunkPlaces(ReadName(fs[0]).path, fs[0].hunks);
      ExpectedPlaces(fs[1..]);
    }
  }

  lemma {:induction false} PrintLines(fs: seq<PrintedFile>)
    requires AllPrintable(fs)
    ensures Lines(Print(fs)) == AllLines(CleanFiles(fs))
  {
    if fs != [] {
      FileLinesOneLine(fs[0]);
      LinesOfUnlines(FileLines(fs[0]), Print(fs[1..]));
      StripFile(fs[0]);
      PrintLines(fs[1..]);
      assert CleanFiles(fs)[1..] == CleanFiles(fs[1..]);
    }
  }

  /** Printed files that the parser reads back and the scanner can count. */
  predicate AllScannable(fs: seq<PrintedFile>) {
    && AllPrintable(fs) && AllTrapFree(fs)
    && forall i :: 0 <= i < |fs| ==> Scannable(CleanFile(fs[i]))
  }

  lemma {:induction false} HunksCountable(hs: seq<PrintedHunk>)
    requires forall i :: 0 <= i < |hs| ==> HunkInRange(hs[i])
    ensures Countable(hs)
  {
    if hs != [] {
      HunksCountable(hs[1..]);
    }
  }

  lemma {:induction false} ScannableCountable(fs: seq<PrintedFile>)
    requires forall i :: 0 <= i < |fs| ==> Scannable(fs[i])
    ensures AllCountable(fs)
  {
    if fs != [] {
      HunksCountable(fs[0].hunks);
      ScannableCountable(fs[1..]);
    }
  }

  /** The scanner sees the parser's added lines in order, each as its mark says. */
  lemma TrackersCompared(fs: seq<PrintedFile>)
    requires AllScannable(fs)
    ensures Sees(ScannerView(Print(fs)), ParserPlaces(Print(fs)), AllMarks("", CleanFiles(fs)))
  {
    ParsingUndoesPrinting(fs);
    PrintLines(fs);
    ExpectedPlaces(CleanFiles(fs));
    forall i | 0 <= i < |fs|
      ensures FileTrapFree(CleanFiles(fs)[i])
    {
      CleanFileTraps(fs[i]);
    }
    TokensOfFiles(CleanFiles(fs));
    ScannableCountable(CleanFiles(fs));
    FilesSeen(Initial, 0, CleanFiles(fs));
  }

  // ----- the marks spelled out -----

  /** The inserted lines before edit j, seen or hidden. */
  function InsertsBefore(edits: seq<Edit>, j: nat): nat
    requires j <= |edits|
  {
    if j == 0 then 0 else (if edits[0].Insert? then 1 else 0) + InsertsBefore(edits[1..], j - 1)
  }

  /** The inserted lines before edit j that the scanner sees. */
  function SeenBefore(edits: seq<Edit>, j: nat): nat
    requires j <= |edits|
  {
    if j == 0 then 0 else (if Seen(edits[0]) then 1 else 0) + SeenBefore(edits[1..], j - 1)
  }

  /** The parser counts edit i on the new side and the scanner does not: a marker, a hidden line, an empty line
      without its space, or a context line before the scanner's counter is positive. */
  predicate MissedAt(edits: seq<Edit>, i: nat, need: nat)
    requires i < |edits|
  {
    edits[i].Marker? || edits[i].Empty? || Hidden(edits[i]) || (edits[i].Keep? && SeenBefore(edits, i) < need)
  }

  /** How many lines before edit j the scanner missed. */
  function MissedBefore(edits: seq<Edit>, j: nat, need: nat): nat
    requires j <= |edits|
  {
    if j == 0 then 0 else MissedBefore(edits, j - 1, need) + if MissedAt(edits, j - 1, need) then 1 else 0
  }

  lemma MissedShift(edits: seq<Edit>, i: nat, need: nat)
    requires 0 < i < |edits|
    ensures MissedAt(edits, i, need) == MissedAt(edits[1..], i - 1, NextNeed(edits[0], need))
  {}

  lemma {:induction false} MissedFirst(edits: seq<Edit>, j: nat, need: nat)
    requires 0 < j <= |edits|
    ensures MissedBefore(edits, j, need)
         == (if Missed(edits[0], need) then 1 else 0) + MissedBefore(edits[1..], j - 1, NextNeed(edits[0], need))
    decreases j
  {
    if j > 1 {
      MissedFirst(edits, j - 1, need);
      MissedShift(edits, j - 1, need);
    } else {
      assert MissedAt(edits, 0, need) <==> Missed(edits[0], need);
      assert MissedBefore(edits, 0, need) == 0;
    }
  }

  /** The mark of an inserted line: hidden lines have none, and every other one lags by the lines before it in its
      hunk that the scanner missed. */
  lemma {:induction false} MarkIs(scanned: string, parsed: string, edits: seq<Edit>, need: nat, lag: nat, j: nat)
    requires j < |edits| && edits[j].Insert?
    ensures var k, ms := InsertsBefore(edits, j), Marks(scanned, parsed, edits, need, lag);
            && k < |ms|
            && ms[k] == if Hidden(edits[j]) then NotShown
                        else Shown(scanned, parsed, lag + MissedBefore(edits, j, need))
    decreases edits
  {
    if j > 0 {
      MissedFirst(edits, j, need);
      MarkIs(scanned, parsed, edits[1..], NextNeed(edits[0], need), NextLag(edits[0], need, lag), j - 1);
    } else {
      assert MissedBefore(edits, 0, need) == 0;
    }
  }

  // ----- when the trackers agree -----

  predicate Exact(m: Mark) {
    m.Shown? && m.scanned == m.parsed && m.lag == 0
  }

  predicate AllExact(marks: seq<Mark>) {
    forall i :: 0 <= i < |marks| ==> Exact(marks[i])
  }

  lemma AllExactConcat(a: seq<Mark>, b: seq<Mark>)
    ensures AllExact(a + b) <==> AllExact(a) && AllExact(b)
  {
    assert forall i :: 0 <= i < |a| ==> (a + b)[i] == a[i];
    assert forall i :: 0 <= i < |b| ==> (a + b)[|a| + i] == b[i];
  }

  lemma AllExactStep(marks: seq<Mark>)
    requires marks != []
    ensures AllExact(marks) <==> Exact(marks[0]) && AllExact(marks[1..])
  {
    assert forall i :: 1 <= i < |marks| ==> marks[i] == marks[1..][i - 1];
  }

  lemma {:induction false} SeesFewer(es: seq<Emission>, ps: seq<Place>, marks: seq<Mark>)
    requires Sees(es, ps, marks)
    ensures |es| <= |ps|
    decreases marks
  {
    if marks != [] {
      SeesFewer(if marks[0].NotShown? then es else es[1..], ps[1..], marks[1..]);
    }
  }

  lemma PlacesCons(es: seq<Emission>)
    requires es != []
    ensures Places(es) == [Place(es[0].file, es[0].line, es[0].text)] + Places(es[1..])
  {}

  lemma {:induction false} SeesExactly(es: seq<Emission>, ps: seq<Place>, marks: seq<Mark>)
    requires Sees(es, ps, marks)
    ensures Places(es) == ps <==> AllExact(marks)
    decreases marks
  {
    if marks != [] {
      AllExactStep(marks);
      if marks[0].NotShown? {
        SeesFewer(es, ps[1..], marks[1..]);
        assert |Places(es)| < |ps|;
      } else {
        SeesExactly(es[1..], ps[1..], marks[1..]);
        PlacesCons(es);
        ConsSame(Place(es[0].file, es[0].line, es[0].text), ps[0], Places(es[1..]), ps[1..]);
        assert ps == [ps[0]] + ps[1..];
      }
    }
  }

  ghost predicate Inserts(edits: seq<Edit>) {
    exists j :: 0 <= j < |edits| && edits[j].Insert?
  }

  /** Every inserted line is seen, and the scanner missed no line before it. */
  ghost predicate Followed(edits: seq<Edit>, need: nat) {
    forall j :: 0 <= j < |edits| && edits[j].Insert? ==> Seen(edits[j]) && NoneMissed(edits, j, need)
  }

  predicate NoneMissed(edits: seq<Edit>, j: nat, need: nat)
    requires j <= |edits|
  {
    forall i :: 0 <= i < j ==> !MissedAt(edits, i, need)
  }

  lemma InsertsStep(edits: seq<Edit>)
    requires edits != []
    ensures Inserts(edits) <==> edits[0].Insert? || Inserts(edits[1..])
  {
    assert forall j :: 1 <= j < |edits| ==> edits[j] == edits[1..][j - 1];
    assert forall j :: 0 <= j < |edits| - 1 ==> edits[1..][j] == edits[j + 1];
  }

  lemma NoneMissedStep(edits: seq<Edit>, j: nat, need: nat)
    requires 0 < j < |edits|
    ensures NoneMissed(edits, j, need)
       <==> !Missed(edits[0], need) && NoneMissed(edits[1..], j - 1, NextNeed(edits[0], need))
  {
    assert MissedAt(edits, 0, need) <==> Missed(edits[0], need);
    forall i | 0 < i < j
      ensures MissedAt(edits, i, need) <==> MissedAt(edits[1..], i - 1, NextNeed(edits[0], need))
    {
      MissedShift(edits, i, need);
    }
    assert forall i :: 0 <= i < j - 1 ==>
             MissedAt(edits[1..], i, NextNeed(edits[0], need)) == MissedAt(edits, i + 1, need);
  }

  lemma FollowedStep(edits: seq<Edit>, need: nat)
    requires edits != []
    ensures var e, rest := edits[0], edits[1..];
            Followed(edits, need) <==> && (e.Insert? ==> Seen(e))
                                       && (Inserts(rest) ==> !Missed(e, need) && Followed(rest, NextNeed(e, need)))
  {
    var rest, need1 := edits[1..], NextNeed(edits[0], need);
    forall j | 0 < j < |edits|
      ensures edits[j] == rest[j - 1]
      ensures NoneMissed(edits, j, need) <==> !Missed(edits[0], need) && NoneMissed(rest, j - 1, need1)
    {
      NoneMissedStep(edits, j, need);
    }
    assert NoneMissed(edits, 0, need);
    forall j | 0 <= j < |rest|
      ensures rest[j] == edits[j + 1]
      ensures NoneMissed(edits, j + 1, need) <==> !Missed(edits[0], need) && NoneMissed(rest, j, need1)
    {}
  }

  lemma {:induction false} MarksExactly(scanned: string, parsed: string, edits: seq<Edit>, need: nat, lag: nat)
    ensures AllExact(Marks(scanned, parsed, edits, need, lag))
       <==> (Inserts(edits) ==> scanned == parsed && lag == 0 && Followed(edits, need))
    decreases edits
  {
    if edits != [] {
      var e, rest := edits[0], edits[1..];
      MarksExactly(scanned, parsed, rest, NextNeed(e, need), NextLag(e, need, lag));
      AllExactConcat(MarkOf(e, scanned, parsed, lag),
                     Marks(scanned, parsed, rest, NextNeed(e, need), NextLag(e, need, lag)));
      InsertsStep(edits);
      FollowedStep(edits, need);
      if e.Insert? {
        assert MarkOf(e, scanned, parsed, lag)[0] == if Hidden(e) then NotShown else Shown(scanned, parsed, lag);
      }
    }
  }

  /** Scanner and parser agree on a hunk that inserts anything. */
  ghost predicate HunkAgrees(scanned: string, parsed: string, h: PrintedHunk) {
    Inserts(h.edits) ==> scanned == parsed && Followed(h.edits, Need(h.newStart))
  }

  lemma {:induction false} HunksExactly(scanned: string, parsed: string, hs: seq<PrintedHunk>)
    ensures AllExact(AllHunkMarks(scanned, parsed, hs))
       <==> forall i :: 0 <= i < |hs| ==> HunkAgrees(scanned, parsed, hs[i])
  {
    if hs != [] {
      MarksExactly(scanned, parsed, hs[0].edits, Need(hs[0].newStart), 0);
      HunksExactly(scanned, parsed, hs[1..]);
      AllExactConcat(HunkMarks(scanned, parsed, hs[0]), AllHunkMarks(scanned, parsed, hs[1..]));
      assert forall i :: 1 <= i < |hs| ==> hs[i] == hs[1..][i - 1];
      assert forall i :: 0 <= i < |hs| - 1 ==> hs[1..][i] == hs[i + 1];
    }
  }

  ghost predicate FileAgrees(name: string, f: PrintedFile) {
    forall i :: 0 <= i < |f.hunks| ==> HunkAgrees(NameAfter(name, f), ReadName(f).path, f.hunks[i])
  }

  /** Each file agrees, the scanner being in the last file it was told of. */
  ghost predicate FilesAgree(name: string, fs: seq<PrintedFile>)
    decreases fs
  {
    fs == [] || (FileAgrees(name, fs[0]) && FilesAgree(NameAfter(name, fs[0]), fs[1..]))
  }

  lemma {:induction false} FilesExactly(name: string, fs: seq<PrintedFile>)
    ensures AllExact(AllMarks(name, fs)) <==> FilesAgree(name, fs)
    decreases fs
  {
    if fs != [] {
      HunksExactly(NameAfter(name, fs[0]), ReadName(fs[0]).path, fs[0].hunks);
      FilesExactly(NameAfter(name, fs[0]), fs[1..]);
      AllExactConcat(FileMarks(name, fs[0]), AllMarks(NameAfter(name, fs[0]), fs[1..]));
    }
  }

  /** The scanner puts every added line where the parser puts it exactly when, in each hunk that inserts anything,
      both are in the same file, every inserted line is seen, and no line before one was missed. */
  lemma TrackersAgreeExactly(fs: seq<PrintedFile>)
    requires AllScannable(fs)
    ensures Places(ScannerView(Print(fs))) == ParserPlaces(Print(fs)) <==> FilesAgree("", CleanFiles(fs))
  {
    TrackersCompared(fs);
    SeesExactly(ScannerView(Print(fs)), ParserPlaces(Print(fs)), AllMarks("", CleanFiles(fs)));
    FilesExactly("", CleanFiles(fs));
  }

  /** Without markers, hidden lines and empty lines without their space the only disagreement is about context: none
      from start 2 on; at start 1 in front of the first inserted line, at start 0 in front of the second. */
  lemma PlainFollowed(h: PrintedHunk)
    requires forall j :: 0 <= j < |h.edits| ==> !h.edits[j].Marker? && !h.edits[j].Empty? && !Hidden(h.edits[j])
    ensures Followed(h.edits, Need(h.newStart))
       <==> forall i, j :: 0 <= i < j < |h.edits| && h.edits[j].Insert? && h.edits[i].Keep? ==>
                             h.newStart + InsertsBefore(h.edits, i) >= 2
  {
    forall i | 0 <= i < |h.edits|
      ensures SeenBefore(h.edits, i) == InsertsBefore(h.edits, i)
      ensures MissedAt(h.edits, i, Need(h.newStart))
         <==> h.edits[i].Keep? && h.newStart + InsertsBefore(h.edits, i) < 2
    {
      AllSeen(h.edits, i);
    }
  }

  lemma {:induction false} AllSeen(edits: seq<Edit>, j: nat)
    requires j <= |edits| && forall i :: 0 <= i < |edits| ==> !Hidden(edits[i])
    ensures SeenBefore(edits, j) == InsertsBefore(edits, j)
  {
    if j > 0 {
      AllSeen(edits[1..], j - 1);
    }
  }
}
