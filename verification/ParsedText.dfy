/** What the parser makes of any text, told by the lines of the text alone. */
module ParsedText {
  import opened Wrappers
  import opened Text
  import opened UnifiedDiff
  import opened DiffPrinting
  import opened CanonicalDiffs

  // ----- what a text says -----

  predicate GitLine(line: string) {
    "diff --git " <= line
  }

  predicate NameLine(line: string) {
    "+++ " <= line
  }

  predicate StartLine(line: string) {
    "@@ " <= line
  }

  predicate AnyStart(line: string) {
    GitLine(line) || NameLine(line) || StartLine(line) || "--- " <= line
  }

  /** A hunk as a text tells it: the file it is in, its header, and its body. */
  datatype Told = Told(path: string, header: string, body: seq<string>)

  /** The body at the start of some lines: all that are not a header, up to the next hunk or file. */
  function Body(lines: seq<string>): seq<string> {
    if lines == [] || GitLine(lines[0]) || StartLine(lines[0]) then []
    else (if AnyStart(lines[0]) then [] else [lines[0]]) + Body(lines[1..])
  }

  /** The path that holds after a line: a name line gives it, unless it is the null device, a file header resets it. */
  function PathAfter(path: string, line: string): string {
    if GitLine(line) then ""
    else if NameLine(line) && ReadPath(line) != "/dev/null" then ReadPath(line)
    else path
  }

  /** Every hunk header begins a hunk, in order. */
  function Hunks(path: string, lines: seq<string>): seq<Told>
    decreases lines
  {
    if lines == [] then []
    else
      (if StartLine(lines[0]) then [Told(path, lines[0], Body(lines[1..]))] else [])
      + Hunks(PathAfter(path, lines[0]), lines[1..])
  }

  /** A line says by its first character what it is; without one it is context, as any other is. */
  predicate SaidBy(l: Line, line: string) {
    if line != "" && line[0] == '+' then l.kind == Added && l.text == line[1..]
    else if line != "" && line[0] == '-' then l.kind == Deleted && l.text == line[1..]
    else l.kind == Context && l.text == line
  }

  predicate AllSaidBy(lines: seq<Line>, body: seq<string>) {
    |lines| == |body| && forall i :: 0 <= i < |lines| ==> SaidBy(lines[i], body[i])
  }

  /** The hunk is the one told: its file, the numbers of its header, and one line for each line of the body. */
  predicate IsTold(h: Hunk, t: Told) {
    h.file == t.path && ScanHeader(t.header) == Some((h.oldStart, h.newStart)) && AllSaidBy(h.lines, t.body)
  }

  predicate AllTold(hs: seq<Hunk>, ts: seq<Told>) {
    |hs| == |ts| && forall i :: 0 <= i < |hs| ==> IsTold(hs[i], ts[i])
  }

  function HunksOfFiles(files: seq<File>): seq<Hunk> {
    if files == [] then [] else HunksOfFiles(files[..|files| - 1]) + files[|files| - 1].hunks
  }

  // ----- what a hunk header is -----

  predicate IsCount(c: string) {
    c == "" || (c[0] == ',' && AllDigits(c[1..]))
  }

  /** @@ -a +b @@ with digits a and b, each perhaps with a comma and further digits behind it, and any rest. */
  predicate HeaderOf(line: string, a: string, c: string, b: string, d: string, rest: string) {
    && a != "" && AllDigits(a) && b != "" && AllDigits(b) && IsCount(c) && IsCount(d)
    && line == "@@ -" + (a + (c + (" +" + (b + (d + (" @@" + rest))))))
  }

  lemma SkipsCount(c: string, rest: string)
    requires IsCount(c) && rest != "" && rest[0] == ' '
    ensures SkipCount(c + rest) == rest
  {
    if c == "" {
      assert c + rest == rest;
    } else {
      assert (c + rest)[1..] == c[1..] + rest;
      DigitRunOf(c[1..], rest);
    }
  }

  /** Digits and a count, followed by a space. */
  lemma NumberScanned(a: string, c: string, rest: string)
    requires a != "" && AllDigits(a) && IsCount(c) && rest != "" && rest[0] == ' '
    ensures var s := a + (c + rest);
            DigitRun(s) == |a| && s[..|a|] == a && SkipCount(s[|a|..]) == rest
  {
    var s := a + (c + rest);
    assert (c + rest)[0] == if c == "" then ' ' else ',';
    DigitRunOf(a, c + rest);
    assert s[|a|..] == c + rest;
    SkipsCount(c, rest);
  }

  lemma HeaderScanned(line: string, a: string, c: string, b: string, d: string, rest: string)
    requires HeaderOf(line, a, c, b, d, rest)
    ensures ScanHeader(line) == Some((AtoiClamped(a), AtoiClamped(b)))
  {
    var afterNew := " @@" + rest;
    var t := b + (d + afterNew);
    var afterOld := " +" + t;
    assert line[4..] == a + (c + afterOld);
    NumberScanned(a, c, afterOld);
    assert afterOld[2..] == t;
    NumberScanned(b, d, afterNew);
  }

  lemma CountTaken(s: string) returns (c: string)
    ensures IsCount(c) && s == c + SkipCount(s)
  {
    if "," <= s {
      c := s[..1 + DigitRun(s[1..])];
      assert c[1..] == s[1..][..DigitRun(s[1..])];
    } else {
      c := "";
    }
  }

  lemma SplitAt(s: string, n: nat)
    requires n <= |s|
    ensures s == s[..n] + s[n..]
  {}

  lemma NumberTaken(s: string) returns (a: string, c: string, after: string)
    requires DigitRun(s) > 0
    ensures a == s[..DigitRun(s)] && a != "" && AllDigits(a) && IsCount(c) && after == SkipCount(s[DigitRun(s)..])
    ensures s == a + (c + after)
  {
    var n := DigitRun(s);
    a := s[..n];
    SplitAt(s, n);
    c := CountTaken(s[n..]);
    after := SkipCount(s[n..]);
  }

  lemma PrefixSplits(s: string, p: string)
    requires p <= s
    ensures s == p + s[|p|..]
  {}

  lemma HeaderParts(line: string)
    requires ScanHeader(line).Some?
    ensures "@@ -" <= line && DigitRun(line[4..]) > 0
    ensures var after := SkipCount(line[4..][DigitRun(line[4..])..]);
            && " +" <= after && DigitRun(after[2..]) > 0
            && " @@" <= SkipCount(after[2..][DigitRun(after[2..])..])
  {}

  lemma ScannedHeaderIs(line: string) returns (a: string, c: string, b: string, d: string, rest: string)
    requires ScanHeader(line).Some?
    ensures HeaderOf(line, a, c, b, d, rest)
  {
    HeaderParts(line);
    PrefixSplits(line, "@@ -");
    a, c, b, d, rest := BehindStart(line, line[4..]);
  }

  lemma BehindStart(line: string, s: string) returns (a: string, c: string, b: string, d: string, rest: string)
    requires line == "@@ -" + s && DigitRun(s) > 0
    requires var after := SkipCount(s[DigitRun(s)..]);
             && " +" <= after && DigitRun(after[2..]) > 0
             && " @@" <= SkipCount(after[2..][DigitRun(after[2..])..])
    ensures HeaderOf(line, a, c, b, d, rest)
  {
    var after, afterNew;
    a, c, after := NumberTaken(s);
    PrefixSplits(after, " +");
    b, d, afterNew := NumberTaken(after[2..]);
    PrefixSplits(afterNew, " @@");
    rest := afterNew[3..];
    Assembled(line, s, a, c, after, after[2..], b, d, afterNew, rest);
  }

  lemma Assembled(line: string, s: string, a: string, c: string, after: string, t: string, b: string, d: string,
                  afterNew: string, rest: string)
    requires a != "" && AllDigits(a) && b != "" && AllDigits(b) && IsCount(c) && IsCount(d)
    requires line == "@@ -" + s && s == a + (c + after) && after == " +" + t && t == b + (d + afterNew)
    requires afterNew == " @@" + rest
    ensures HeaderOf(line, a, c, b, d, rest)
  {}

  /** The number some digits stand for, or the largest int if it is larger. */
  predicate NumberOf(digits: string, n: int) {
    AllDigits(digits) && n == if DigitsValue(digits) > MAX_INT then MAX_INT else DigitsValue(digits)
  }

  /** A line is a hunk header exactly when it has this form, and its numbers are the two start numbers. */
  lemma HeaderExactly(line: string)
    ensures ScanHeader(line).Some? <==> exists a, c, b, d, rest :: HeaderOf(line, a, c, b, d, rest)
    ensures forall a, c, b, d, rest :: HeaderOf(line, a, c, b, d, rest) ==>
              && ScanHeader(line).Some?
              && NumberOf(a, ScanHeader(line).value.0) && NumberOf(b, ScanHeader(line).value.1)
  {
    if ScanHeader(line).Some? {
      var a, c, b, d, rest := ScannedHeaderIs(line);
    }
    forall a, c, b, d, rest | HeaderOf(line, a, c, b, d, rest)
      ensures ScanHeader(line) == Some((AtoiClamped(a), AtoiClamped(b)))
    {
      HeaderScanned(line, a, c, b, d, rest);
    }
  }

  // ----- the parser reads what the text says -----

  lemma KindOfLine(line: string)
    ensures GitLine(line) <==> Classify(line) == GitHeader
    ensures NameLine(line) <==> Classify(line) == NewHeader
    ensures StartLine(line) <==> Classify(line) == HunkHeader
    ensures AnyStart(line) <==> Classify(line) != Other
  {
    assert "diff --git "[0] == 'd' && "@@ "[0] == '@' && "--- "[0] == '-' && "+++ "[0] == '+';
  }

  lemma FirstSays(line: string)
    ensures "+" <= line <==> line != "" && line[0] == '+'
    ensures "-" <= line <==> line != "" && line[0] == '-'
  {}

  /** All hunks read so far, the open one last. */
  function ReadSoFar(s: State): seq<Hunk>
    requires s.Reading?
  {
    HunksOfFiles(s.files) + (if s.current.Some? then s.current.value.hunks else [])
    + if s.current.Some? && s.open.Some? then [s.open.value.hunk] else []
  }

  predicate Sane(s: State) {
    s.Reading? && (s.open.Some? ==> s.current.Some?)
  }

  function PathOf(s: State): string
    requires s.Reading?
  {
    if s.current.Some? then s.current.value.path else ""
  }

  lemma ClosedHunks(s: State)
    requires Sane(s)
    ensures HunksOfFiles(Closed(s.files, s.current, s.open)) == ReadSoFar(s)
  {
    if s.current.Some? {
      var all := Closed(s.files, s.current, s.open);
      assert all[..|all| - 1] == s.files;
    }
    ConcatNil(HunksOfFiles(s.files));
  }

  /** The last hunk told, if it is open, goes on. */
  function Grown(ts: seq<Told>, open: bool, more: seq<string>): seq<Told>
    requires open ==> ts != []
  {
    if open then ts[..|ts| - 1] + [ts[|ts| - 1].(body := ts[|ts| - 1].body + more)] else ts
  }

  lemma GrownByNothing(ts: seq<Told>, open: bool)
    requires open ==> ts != []
    ensures Grown(ts, open, []) == ts
  {
    if open {
      ConcatNil(ts[|ts| - 1].body);
      LastSplits(ts);
    }
  }

  lemma GrownTwice(ts: seq<Told>, a: seq<string>, b: seq<string>)
    requires ts != []
    ensures Grown(ts, true, a) != [] && Grown(Grown(ts, true, a), true, b) == Grown(ts, true, a + b)
  {
    ConcatAssoc(ts[|ts| - 1].body, a, b);
  }

  lemma GrownNew(ts: seq<Told>, t: Told, more: seq<string>)
    ensures Grown(ts + [t], true, more) == ts + [t.(body := t.body + more)]
  {
    assert (ts + [t])[..|ts|] == ts;
  }

  /** One more line of the open hunk. */
  lemma TakeSays(s: State, ts: seq<Told>, line: string)
    requires Sane(s) && s.open.Some? && AllTold(ReadSoFar(s), ts)
    ensures ts != []
    ensures AllTold(ReadSoFar(s.(open := Some(Take(s.open.value, line)))), Grown(ts, true, [line]))
  {
    var o := s.open.value;
    var o1 := Take(o, line);
    FirstSays(line);
    assert IsTold(ReadSoFar(s)[|ts| - 1], ts[|ts| - 1]);
    assert |o1.hunk.lines| == |o.hunk.lines| + 1 && o1.hunk.lines[..|o.hunk.lines|] == o.hunk.lines;
    assert SaidBy(o1.hunk.lines[|o.hunk.lines|], line);
    SaysOneMore(o.hunk.lines, ts[|ts| - 1].body, o1.hunk.lines[|o.hunk.lines|], line);
    LastSplits(o1.hunk.lines);
    ReplaceLast(ReadSoFar(s), ts, o1.hunk, ts[|ts| - 1].(body := ts[|ts| - 1].body + [line]));
  }

  lemma SaysOneMore(lines: seq<Line>, body: seq<string>, l: Line, line: string)
    requires AllSaidBy(lines, body) && SaidBy(l, line)
    ensures AllSaidBy(lines + [l], body + [line])
  {}

  lemma AddOne(hs: seq<Hunk>, ts: seq<Told>, h: Hunk, t: Told)
    requires AllTold(hs, ts) && IsTold(h, t)
    ensures AllTold(hs + [h], ts + [t])
  {}

  lemma InitTold(hs: seq<Hunk>, ts: seq<Told>)
    requires AllTold(hs, ts) && hs != []
    ensures AllTold(hs[..|hs| - 1], ts[..|ts| - 1])
  {}

  lemma ReplaceLast(hs: seq<Hunk>, ts: seq<Told>, h: Hunk, t: Told)
    requires AllTold(hs, ts) && hs != [] && IsTold(h, t)
    ensures AllTold(hs[..|hs| - 1] + [h], ts[..|ts| - 1] + [t])
  {
    InitTold(hs, ts);
    AddOne(hs[..|hs| - 1], ts[..|ts| - 1], h, t);
  }

  lemma OpenSays(s: State, ts: seq<Told>, line: string)
    requires Sane(s) && s.current.Some? && AllTold(ReadSoFar(s), ts) && ScanHeader(line).Some?
    ensures var t := OpenAt(s, line, ScanHeader(line));
            && Sane(t) && t.open.Some? && PathOf(t) == PathOf(s)
            && AllTold(ReadSoFar(t), ts + [Told(PathOf(s), line, [])])
  {
    var t := OpenAt(s, line, ScanHeader(line));
    ClosedRead(s);
    AddOne(ReadSoFar(s), ts, t.open.value.hunk, Told(PathOf(s), line, []));
  }

  lemma ClosedRead(s: State)
    requires Sane(s) && s.current.Some?
    ensures ReadSoFar(s) == HunksOfFiles(s.files) + WithHunk(s.current.value, s.open).hunks
  {
    ConcatNil(HunksOfFiles(s.files) + s.current.value.hunks);
  }

  /** What one line changes. */
  lemma StepSays(s: State, ts: seq<Told>, line: string)
    requires Sane(s) && AllTold(ReadSoFar(s), ts) && Step(s, line).Reading?
    ensures var t := Step(s, line);
            && Sane(t) && PathOf(t) == PathAfter(PathOf(s), line)
            && (s.open.Some? ==> ts != [])
            && (GitLine(line) ==> t.open.None? && AllTold(ReadSoFar(t), ts))
            && (StartLine(line) ==> t.open.Some? && AllTold(ReadSoFar(t), ts + [Told(PathOf(s), line, [])]))
            && (!GitLine(line) && !StartLine(line) ==>
                  && (t.open.Some? <==> s.open.Some?)
                  && AllTold(ReadSoFar(t), Grown(ts, s.open.Some?, Said(line))))
  {
    KindOfLine(line);
    if GitLine(line) {
      ClosedHunks(s);
      ConcatNil(ReadSoFar(s));
    } else if StartLine(line) {
      OpenSays(s, ts, line);
    } else if AnyStart(line) {
      GrownByNothing(ts, s.open.Some?);
    } else if s.open.Some? {
      TakeSays(s, ts, line);
    }
  }

  /** From a state in which ts has been read, the rest of the text is read as it says. */
  ghost predicate Continues(s: State, ts: seq<Told>, lines: seq<string>)
    requires s.Reading? && (s.open.Some? ==> ts != [])
  {
    var t := Run(s, lines);
    Sane(t) && AllTold(ReadSoFar(t), Grown(ts, s.open.Some?, Body(lines)) + Hunks(PathOf(s), lines))
  }

  lemma RunStep(s: State, lines: seq<string>)
    requires lines != [] && Run(s, lines).Reading?
    ensures Run(s, lines) == Run(Step(s, lines[0]), lines[1..]) && Step(s, lines[0]).Reading?
  {
    if Step(s, lines[0]).Halted? {
      RunHalted(Step(s, lines[0]).failure, lines[1..]);
    }
  }

  lemma {:induction false} RunSays(s: State, ts: seq<Told>, lines: seq<string>)
    requires Sane(s) && AllTold(ReadSoFar(s), ts) && (s.open.Some? ==> ts != []) && Run(s, lines).Reading?
    ensures Continues(s, ts, lines)
    decreases lines
  {
    if lines == [] {
      GrownByNothing(ts, s.open.Some?);
      ConcatNil(ts);
    } else {
      var line, s1 := lines[0], Step(s, lines[0]);
      RunStep(s, lines);
      StepSays(s, ts, line);
      if GitLine(line) {
        RunSays(s1, ts, lines[1..]);
        GitContinues(s, ts, lines);
      } else if StartLine(line) {
        RunSays(s1, ts + [Told(PathOf(s), line, [])], lines[1..]);
        StartContinues(s, ts, lines);
      } else {
        RunSays(s1, Grown(ts, s.open.Some?, Said(line)), lines[1..]);
        LineContinues(s, ts, lines);
      }
    }
  }

  /** What a line within a hunk adds to its body. */
  function Said(line: string): seq<string> {
    if AnyStart(line) then [] else [line]
  }

  lemma GitContinues(s: State, ts: seq<Told>, lines: seq<string>)
    requires s.Reading? && (s.open.Some? ==> ts != []) && lines != [] && GitLine(lines[0])
    requires var s1 := Step(s, lines[0]);
             && Run(s, lines) == Run(s1, lines[1..]) && s1.Reading? && s1.open.None?
             && PathOf(s1) == PathAfter(PathOf(s), lines[0]) && Continues(s1, ts, lines[1..])
    ensures Continues(s, ts, lines)
  {
    GrownByNothing(ts, s.open.Some?);
    KindOfLine(lines[0]);
    ConcatNil(Hunks(PathAfter(PathOf(s), lines[0]), lines[1..]));
  }

  lemma StartContinues(s: State, ts: seq<Told>, lines: seq<string>)
    requires s.Reading? && (s.open.Some? ==> ts != []) && lines != [] && StartLine(lines[0])
    requires var s1 := Step(s, lines[0]);
             && Run(s, lines) == Run(s1, lines[1..]) && s1.Reading? && s1.open.Some?
             && PathOf(s1) == PathAfter(PathOf(s), lines[0])
             && Continues(s1, ts + [Told(PathOf(s), lines[0], [])], lines[1..])
    ensures Continues(s, ts, lines)
  {
    var t := Told(PathOf(s), lines[0], []);
    GrownByNothing(ts, s.open.Some?);
    GrownNew(ts, t, Body(lines[1..]));
    ConcatNil(Body(lines[1..]));
    ConcatAssoc(ts, [t.(body := Body(lines[1..]))], Hunks(PathAfter(PathOf(s), lines[0]), lines[1..]));
  }

  lemma LineContinues(s: State, ts: seq<Told>, lines: seq<string>)
    requires s.Reading? && (s.open.Some? ==> ts != []) && lines != []
    requires !GitLine(lines[0]) && !StartLine(lines[0])
    requires var s1 := Step(s, lines[0]);
             && Run(s, lines) == Run(s1, lines[1..]) && s1.Reading? && (s1.open.Some? <==> s.open.Some?)
             && PathOf(s1) == PathAfter(PathOf(s), lines[0])
             && Continues(s1, Grown(ts, s.open.Some?, Said(lines[0])), lines[1..])
    ensures Continues(s, ts, lines)
  {
    ConcatNil(Hunks(PathAfter(PathOf(s), lines[0]), lines[1..]));
    if s.open.Some? {
      GrownTwice(ts, Said(lines[0]), Body(lines[1..]));
    }
  }

  /** For every text that is read at all: its hunks are, in order, those its hunk headers begin; each is in the file
      last named, has the numbers of its header, and one line for every line of its body, empty ones included, whose
      kind and text the first character says. */
  lemma TextIsRead(input: string)
    requires Parse(input).Parsed?
    ensures AllTold(HunksOfFiles(Parse(input).files), Hunks("", Lines(input)))
  {
    var s := Run(Start, Lines(input));
    RunSays(Start, [], Lines(input));
    ClosedHunks(s);
    ConcatNil(Hunks("", Lines(input)));
  }

  /** That, with the numbering, leaves nothing open: there is only one such hunk. */
  lemma ToldOnce(h: Hunk, g: Hunk, t: Told)
    requires IsTold(h, t) && IsTold(g, t) && WellNumbered(h) && WellNumbered(g)
    ensures h == g
  {
    SameLines(h.lines, g.lines, t.body, h.oldStart, h.newStart);
  }

  lemma {:induction false} SameLines(a: seq<Line>, b: seq<Line>, body: seq<string>, o: int, n: int)
    requires AllSaidBy(a, body) && AllSaidBy(b, body) && Consecutive(a, o, n) && Consecutive(b, o, n)
    ensures a == b
    decreases a
  {
    if a != [] {
      assert SaidBy(a[0], body[0]) && SaidBy(b[0], body[0]);
      SaidByTail(a, body);
      SaidByTail(b, body);
      SameLines(a[1..], b[1..], body[1..], OldAfter(a[0], o), NewAfter(a[0], n));
      assert a == [a[0]] + a[1..] && b == [b[0]] + b[1..];
    }
  }

  lemma SaidByTail(lines: seq<Line>, body: seq<string>)
    requires AllSaidBy(lines, body) && lines != []
    ensures AllSaidBy(lines[1..], body[1..])
  {}
}
