/** The unified diff parser: a line-driven state machine with a current file, a current hunk and two
    running line counters. */
module UnifiedDiff {
  import opened Wrappers
  import opened Text

  datatype Kind = Added | Deleted | Context

  datatype Line = Line(oldLine: int, newLine: int, kind: Kind, text: string)

  /** The hunk fields the parser fills. */
  datatype Hunk = Hunk(file: string, oldStart: int, newStart: int, lines: seq<Line>,
                       candidates: seq<int>, context: seq<string>)

  datatype File = File(path: string, language: string, isTest: bool, hunks: seq<Hunk>)

  const NoFile := File("", "", false, [])

  /** The error the parser returns, and Go's nil pointer panic. */
  datatype Failure = BadHunkHeader(line: string) | NilDereference

  datatype Outcome = Parsed(files: seq<File>) | Failed(failure: Failure)

  // ----- one line at a time -----

  /** An open hunk with the counters, which mean nothing while no hunk is open. */
  datatype OpenHunk = OpenHunk(hunk: Hunk, oldLine: int, newLine: int)

  datatype State = Reading(files: seq<File>, current: Option<File>, open: Option<OpenHunk>)
                 | Halted(failure: Failure)

  const Start := Reading([], None, None)

  function DigitRun(s: string): (n: nat)
    ensures n <= |s| && AllDigits(s[..n])
    ensures n < |s| ==> !IsDigit(s[n])
  {
    if s != "" && IsDigit(s[0]) then 1 + DigitRun(s[1..]) else 0
  }

  /** What follows an optional comma and the digits after it. */
  function SkipCount(s: string): string {
    if "," <= s then s[1 + DigitRun(s[1..])..] else s
  }

  /** The two start numbers of ^@@ -(\d+),?(\d*) \+(\d+),?(\d*) @@ */
  function ScanHeader(line: string): Option<(int, int)> {
    if !("@@ -" <= line) then None
    else
      var s := line[4..];
      var a := DigitRun(s);
      var afterOld := SkipCount(s[a..]);
      if a == 0 || !(" +" <= afterOld) then None
      else
        var t := afterOld[2..];
        var b := DigitRun(t);
        if b == 0 || !(" @@" <= SkipCount(t[b..])) then None
        else Some((AtoiClamped(s[..a]), AtoiClamped(t[..b])))
  }

  /** The path named by a "+++ " line. */
  function ReadPath(line: string): string {
    TrimSpace(TrimPrefix(TrimPrefix(TrimPrefix(line, "+++ "), "b/"), "a/"))
  }

  function WithPath(f: File, path: string): File {
    if path == "/dev/null" then f
    else f.(path := path, language := "go", isTest := HasSuffix(path, "_test.go"))
  }

  function Orphan(current: Option<File>): File {
    if current.Some? then current.value else NoFile
  }

  function WithHunk(f: File, open: Option<OpenHunk>): File {
    if open.Some? then f.(hunks := f.hunks + [open.value.hunk]) else f
  }

  /** The files read so far, the current one included. */
  function Closed(files: seq<File>, current: Option<File>, open: Option<OpenHunk>): seq<File> {
    if current.Some? then files + [WithHunk(current.value, open)] else files
  }

  function Take(o: OpenHunk, line: string): OpenHunk {
    var h := o.hunk;
    if "+" <= line then
      OpenHunk(h.(lines := h.lines + [Line(0, o.newLine, Added, line[1..])],
                  candidates := h.candidates + [o.newLine]),
               o.oldLine, Next(o.newLine))
    else if "-" <= line then
      OpenHunk(h.(lines := h.lines + [Line(o.oldLine, 0, Deleted, line[1..])]), Next(o.oldLine), o.newLine)
    else
      OpenHunk(h.(lines := h.lines + [Line(o.oldLine, o.newLine, Context, line)], context := h.context + [line]),
               Next(o.oldLine), Next(o.newLine))
  }

  /** Which case of the parser's switch a line selects. */
  datatype LineClass = GitHeader | OldHeader | NewHeader | HunkHeader | Other

  function Classify(line: string): LineClass {
    if "diff --git " <= line then GitHeader
    else if "--- " <= line then OldHeader
    else if "+++ " <= line then NewHeader
    else if "@@ " <= line then HunkHeader
    else Other
  }

  function OpenAt(s: State, line: string, header: Option<(int, int)>): State
    requires s.Reading?
  {
    if header.None? then Halted(BadHunkHeader(line))
    else if s.current.None? then Halted(NilDereference)
    else
      var (o, n) := header.value;
      Reading(s.files, Some(WithHunk(s.current.value, s.open)),
              Some(OpenHunk(Hunk(s.current.value.path, o, n, [], [], []), o, n)))
  }

  function Step(s: State, line: string): State {
    if s.Halted? then s
    else
      match Classify(line)
      case GitHeader => Reading(Closed(s.files, s.current, s.open), Some(NoFile), None)
      case OldHeader => s.(current := Some(Orphan(s.current)))
      case NewHeader => s.(current := Some(WithPath(Orphan(s.current), ReadPath(line))))
      case HunkHeader => OpenAt(s, line, ScanHeader(line))
      case Other => if s.open.Some? then s.(open := Some(Take(s.open.value, line))) else s
  }

  function Run(s: State, lines: seq<string>): State
    decreases lines
  {
    if lines == [] then s else Run(Step(s, lines[0]), lines[1..])
  }

  function Finish(s: State): Outcome {
    if s.Halted? then Failed(s.failure) else Parsed(Closed(s.files, s.current, s.open))
  }

  /** The meaning of the parser on a whole text. */
  function Parse(input: string): Outcome {
    Finish(Run(Start, Lines(input)))
  }

  // ----- the parser itself -----

  /** Before a file or hunk changes, the current hunk is stored in the current file. */
  method FlushHunk(current: Option<File>, hunk: Option<Hunk>) returns (file: Option<File>, open: Option<Hunk>)
    ensures current.None? ==> file == current && open == hunk
    ensures current.Some? ==> open.None?
    ensures current.Some? && hunk.None? ==> file == current
    ensures current.Some? && hunk.Some? ==>
              file == Some(current.value.(hunks := current.value.hunks + [hunk.value]))
  {
    file, open := current, hunk;
    if current.Some? {
      if hunk.Some? {
        file := Some(current.value.(hunks := current.value.hunks + [hunk.value]));
      }
      open := None;
    }
  }

  function View(files: seq<File>, current: Option<File>, hunk: Option<Hunk>, oldLine: int, newLine: int): State {
    Reading(files, current, if hunk.Some? then Some(OpenHunk(hunk.value, oldLine, newLine)) else None)
  }

  predicate Settled(f: File) {
    f.path != "" ==> f.language != ""
  }

  function WithLanguage(f: File): File {
    if f.path != "" && f.language == "" then f.(language := "go") else f
  }

  /** A body line enters the open hunk and moves the counters. */
  method AppendLine(hunk: Hunk, line: string, oldLine: int, newLine: int) returns (h: Hunk, o: int, n: int)
    ensures OpenHunk(h, o, n) == Take(OpenHunk(hunk, oldLine, newLine), line)
  {
    h, o, n := hunk, oldLine, newLine;
    if "+" <= line {
      h := h.(lines := h.lines + [Line(0, n, Added, line[1..])]);
      h := h.(candidates := h.candidates + [n]);
      n := Next(n);
    } else if "-" <= line {
      h := h.(lines := h.lines + [Line(o, 0, Deleted, line[1..])]);
      o := Next(o);
    } else {
      h := h.(lines := h.lines + [Line(o, n, Context, line)]);
      h := h.(context := h.context + [line]);
      o := Next(o);
      n := Next(n);
    }
  }

  method ParseUnifiedDiff(input: string) returns (r: Outcome)
    ensures r == Parse(input)
  {
    var files: seq<File> := [];
    var current: Option<File> := None;
    var hunk: Option<Hunk> := None;
    var oldLine, newLine := 0, 0;
    var rest := input;
    while rest != ""
      invariant hunk.Some? ==> current.Some?
      invariant Run(View(files, current, hunk, oldLine, newLine), Lines(rest)) == Run(Start, Lines(input))
      invariant forall f :: f in files ==> Settled(f)
      invariant current.Some? ==> Settled(current.value)
      decreases |rest|
    {
      var n := FirstLine(rest);
      var line := StripCR(rest[..n]);
      ghost var before := View(files, current, hunk, oldLine, newLine);
      LinesHead(rest);
      rest := if n < |rest| then rest[n + 1..] else "";
      var kind := Classify(line);
      if kind == GitHeader {
        current, hunk := FlushHunk(current, hunk);
        if current.Some? {
          files := files + [current.value];
        }
        current := Some(NoFile);
      } else if kind == OldHeader {
        if current.None? {
          current := Some(NoFile);
        }
      } else if kind == NewHeader {
        if current.None? {
          current := Some(NoFile);
        }
        var path := ReadPath(line);
        if path != "/dev/null" {
          current := Some(current.value.(path := path, language := "go", isTest := HasSuffix(path, "_test.go")));
        }
      } else if kind == HunkHeader {
        current, hunk := FlushHunk(current, hunk);
        var header := ScanHeader(line);
        if header.None? {
          RunHalted(BadHunkHeader(line), Lines(rest));
          return Failed(BadHunkHeader(line));
        }
        if current.None? {
          RunHalted(NilDereference, Lines(rest));
          return Failed(NilDereference);
        }
        oldLine, newLine := header.value.0, header.value.1;
        hunk := Some(Hunk(current.value.path, oldLine, newLine, [], [], []));
      } else if hunk.Some? {
        var h: Hunk;
        h, oldLine, newLine := AppendLine(hunk.value, line, oldLine, newLine);
        hunk := Some(h);
      }
      assert View(files, current, hunk, oldLine, newLine) == Step(before, line);
    }
    current, hunk := FlushHunk(current, hunk);
    if current.Some? {
      files := files + [current.value];
    }
    var out := files;
    for i := 0 to |out|
      invariant out == files
    {
      assert Settled(files[i]);
      out := out[i := WithLanguage(out[i])];
    }
    r := Parsed(out);
  }

  // ----- general laws -----

  lemma {:induction false} RunHalted(o: Failure, lines: seq<string>)
    ensures Run(Halted(o), lines) == Halted(o)
  {
    if lines != [] {
      RunHalted(o, lines[1..]);
    }
  }

  lemma {:induction false} RunConcat(s: State, a: seq<string>, b: seq<string>)
    ensures Run(s, a + b) == Run(Run(s, a), b)
    decreases a
  {
    if a == [] {
      assert a + b == b;
    } else {
      assert (a + b)[1..] == a[1..] + b;
      RunConcat(Step(s, a[0]), a[1..], b);
    }
  }

  /** Files already completed are only ever prepended to. */
  function After(files: seq<File>, s: State): State {
    if s.Reading? then s.(files := files + s.files) else s
  }

  lemma {:induction false} RunAfter(files: seq<File>, s: State, lines: seq<string>)
    ensures Run(After(files, s), lines) == After(files, Run(s, lines))
    decreases lines
  {
    if lines != [] {
      assert Step(After(files, s), lines[0]) == After(files, Step(s, lines[0])) by {
        if s.Reading? {
          assert files + Closed(s.files, s.current, s.open) == Closed(files + s.files, s.current, s.open);
        }
      }
      RunAfter(files, Step(s, lines[0]), lines[1..]);
    }
  }

  /** The first failure wins, otherwise the files are listed one after the other. */
  function Join(a: Outcome, b: Outcome): Outcome {
    if !a.Parsed? then a else if !b.Parsed? then b else Parsed(a.files + b.files)
  }

  lemma StripCRKeepsPrefix(raw: string, prefix: string)
    requires prefix <= raw && prefix != "" && prefix[|prefix| - 1] != '\r'
    ensures prefix <= StripCR(raw)
  {
    assert |raw| == |prefix| ==> raw == prefix;
  }

  /** A "diff --git" line closes what came before and starts from scratch. */
  lemma BoundaryStep(s: State, line: string)
    requires "diff --git " <= line
    ensures s.Reading? ==>
              Step(s, line) == After(Closed(s.files, s.current, s.open), Step(Start, line))
  {}

  lemma FinishAfter(files: seq<File>, s: State)
    ensures Finish(After(files, s)) == Join(Parsed(files), Finish(s))
  {
    if s.Reading? {
      assert Closed(files + s.files, s.current, s.open) == files + Closed(s.files, s.current, s.open);
    }
  }

  lemma RunFromBoundary(s: State, lines: seq<string>)
    requires lines != [] && "diff --git " <= lines[0]
    ensures Finish(Run(s, lines)) == Join(Finish(s), Finish(Run(Start, lines)))
  {
    if s.Halted? {
      RunHalted(s.failure, lines);
    } else {
      var files := Closed(s.files, s.current, s.open);
      var t := Step(Start, lines[0]);
      BoundaryStep(s, lines[0]);
      RunAfter(files, t, lines[1..]);
      FinishAfter(files, Run(t, lines[1..]));
    }
  }

  lemma BoundaryLine(y: string)
    requires "diff --git " <= y
    ensures Lines(y) != [] && "diff --git " <= Lines(y)[0]
  {
    HeaderInFirstLine(y, "diff --git ");
    StripCRKeepsPrefix(y[..FirstLine(y)], "diff --git ");
    LinesHead(y);
  }

  /** Parsing distributes over concatenation at a "diff --git" boundary. */
  lemma ParseConcat(x: string, y: string)
    requires x == "" || x[|x| - 1] == '\n'
    requires "diff --git " <= y
    ensures Parse(x + y) == Join(Parse(x), Parse(y))
  {
    LinesConcat(x, y);
    RunConcat(Start, Lines(x), Lines(y));
    BoundaryLine(y);
    RunFromBoundary(Run(Start, Lines(x)), Lines(y));
  }

  lemma {:induction false} HeaderInFirstLine(y: string, header: string)
    requires header <= y && OneLine(header)
    ensures header <= y[..FirstLine(y)]
  {
    if header != "" {
      assert header[0] == y[0];
      assert forall i :: 0 <= i < |header| - 1 ==> header[1..][i] == header[i + 1];
      HeaderInFirstLine(y[1..], header[1..]);
    }
  }

  // ----- when a call fails -----

  predicate HunkLine(line: string) {
    Classify(line) == HunkHeader
  }

  predicate BadLine(line: string) {
    HunkLine(line) && ScanHeader(line).None?
  }

  predicate AnyHeader(line: string) {
    Classify(line) != Other
  }

  /** A hunk header that matches and is the first header of any kind. */
  predicate OrphanHunk(lines: seq<string>, i: int) {
    && 0 <= i < |lines|
    && HunkLine(lines[i]) && !BadLine(lines[i])
    && forall j :: 0 <= j < i ==> !AnyHeader(lines[j])
  }

  predicate FirstBadLine(lines: seq<string>, i: int) {
    0 <= i < |lines| && BadLine(lines[i]) && forall j :: 0 <= j < i ==> !BadLine(lines[j])
  }

  /** A failure is a nil dereference when a matching hunk header comes first (and no file is open yet);
      otherwise it names the first hunk line that does not match. */
  ghost predicate FailsAsPredicted(o: Outcome, noFile: bool, lines: seq<string>) {
    && (o == Failed(NilDereference) <==> noFile && exists i :: OrphanHunk(lines, i))
    && (o != Failed(NilDereference) ==> (o.Failed? <==> exists i :: FirstBadLine(lines, i)))
    && forall i :: FirstBadLine(lines, i) && o != Failed(NilDereference) ==> o == Failed(BadHunkHeader(lines[i]))
  }

  /** The parser dereferences nil exactly when a matching hunk header is the first header of the text;
      otherwise it fails exactly when some hunk line does not match. */
  lemma FailuresExactly(input: string)
    ensures FailsAsPredicted(Parse(input), true, Lines(input))
  {
    RunFailures(Start, Lines(input));
  }

  lemma {:induction false} RunFailures(s: State, lines: seq<string>)
    requires s.Reading? && (s.open.Some? ==> s.current.Some?)
    ensures FailsAsPredicted(Finish(Run(s, lines)), s.current.None?, lines)
    decreases lines
  {
    if lines != [] {
      var t := Step(s, lines[0]);
      StepFailures(s, lines[0]);
      if t.Halted? {
        RunHalted(t.failure, lines[1..]);
        HaltFailures(s, lines);
      } else {
        RunFailures(t, lines[1..]);
        forall i | 1 <= i
          ensures OrphanHunk(lines, i) == (!AnyHeader(lines[0]) && OrphanHunk(lines[1..], i - 1))
          ensures FirstBadLine(lines, i) == (!BadLine(lines[0]) && FirstBadLine(lines[1..], i - 1))
        {
          ShiftOrphan(lines, i);
          ShiftBad(lines, i);
        }
        assert !BadLine(lines[0]);
        assert forall i :: FirstBadLine(lines, i) ==> 1 <= i;
        assert forall i :: FirstBadLine(lines[1..], i) ==> FirstBadLine(lines, i + 1);
        assert forall i :: OrphanHunk(lines[1..], i) && !AnyHeader(lines[0]) ==> OrphanHunk(lines, i + 1);
        assert s.current.None? ==> forall i :: OrphanHunk(lines, i) ==> 1 <= i;
      }
    }
  }

  /** What one line can do to the run. */
  lemma StepFailures(s: State, line: string)
    requires s.Reading? && (s.open.Some? ==> s.current.Some?)
    ensures var t := Step(s, line);
            && (t.Halted? <==> BadLine(line) || (HunkLine(line) && s.current.None?))
            && (t.Halted? ==> t.failure == if BadLine(line) then BadHunkHeader(line) else NilDereference)
            && (t.Reading? ==> t.open.Some? ==> t.current.Some?)
            && (t.Reading? ==> (t.current.None? <==> s.current.None? && !AnyHeader(line)))
  {}

  lemma HaltFailures(s: State, lines: seq<string>)
    requires lines != [] && s.Reading? && (s.open.Some? ==> s.current.Some?)
    requires Step(s, lines[0]).Halted? && Run(s, lines) == Step(s, lines[0])
    ensures FailsAsPredicted(Finish(Run(s, lines)), s.current.None?, lines)
  {
    StepFailures(s, lines[0]);
    if BadLine(lines[0]) {
      assert FirstBadLine(lines, 0);
      assert forall i :: FirstBadLine(lines, i) ==> i == 0;
      assert forall i :: !OrphanHunk(lines, i) by {
        forall i ensures !OrphanHunk(lines, i) { assert AnyHeader(lines[0]); }
      }
    } else {
      assert OrphanHunk(lines, 0);
    }
  }

  lemma ShiftOrphan(lines: seq<string>, i: int)
    requires lines != [] && 1 <= i
    ensures OrphanHunk(lines, i) == (!AnyHeader(lines[0]) && OrphanHunk(lines[1..], i - 1))
  {
    if i < |lines| {
      assert lines[i] == lines[1..][i - 1];
      assert forall j :: 1 <= j < i ==> lines[j] == lines[1..][j - 1];
      assert forall j :: 0 <= j < i - 1 ==> lines[1..][j] == lines[j + 1];
    }
  }

  lemma ShiftBad(lines: seq<string>, i: int)
    requires lines != [] && 1 <= i
    ensures FirstBadLine(lines, i) == (!BadLine(lines[0]) && FirstBadLine(lines[1..], i - 1))
  {
    if i < |lines| {
      assert lines[i] == lines[1..][i - 1];
      assert forall j :: 1 <= j < i ==> lines[j] == lines[1..][j - 1];
      assert forall j :: 0 <= j < i - 1 ==> lines[1..][j] == lines[j + 1];
    }
  }
}
