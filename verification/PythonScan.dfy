/** The line tracker of the Skill's Python checker, which runs first where it can, against that of the Go one. */
module PythonScan {
  import opened Wrappers
  import opened Text
  import opened UnifiedDiff
  import opened DiffPrinting
  import opened SkillScan
  import opened Readers
  import opened Trackers

  // ----- what a line is to the Python script -----

  /** The decimal digits of Unicode beyond those of ASCII, and their values. */
  type Digits = map<char, nat>

  predicate IsPythonDigit(wide: Digits, c: char) {
    IsDigit(c) || c in wide
  }

  function PythonRun(wide: Digits, s: string): (n: nat)
    ensures n <= |s|
  {
    if s != "" && IsPythonDigit(wide, s[0]) then 1 + PythonRun(wide, s[1..]) else 0
  }

  /** The first match of \+(\d+) in a line. */
  function PythonDigits(wide: Digits, s: string): Option<string> {
    if s == "" then None
    else if s[0] == '+' && PythonRun(wide, s[1..]) > 0 then Some(s[1..][..PythonRun(wide, s[1..])])
    else PythonDigits(wide, s[1..])
  }

  function DigitOf(wide: Digits, c: char): nat {
    if IsDigit(c) then c as int - '0' as int else if c in wide then wide[c] else 0
  }

  /** int(), of any size. */
  function PythonValue(wide: Digits, s: string): nat {
    if s == "" then 0 else PythonValue(wide, s[..|s| - 1]) * 10 + DigitOf(wide, s[|s| - 1])
  }

  function PythonCounter(wide: Digits, line: string): int {
    var d := PythonDigits(wide, line);
    if d.None? then 0 else PythonValue(wide, d.value) - 1
  }

  /** str.isspace(), which knows four separators more than Go's. */
  predicate IsPythonSpace(c: char) {
    IsSpace(c) || 0x1C <= c as int <= 0x1F
  }

  function StripLeft(s: string): string {
    if s != "" && IsPythonSpace(s[0]) then StripLeft(s[1..]) else s
  }

  function StripRight(s: string): string {
    if s != "" && IsPythonSpace(s[|s| - 1]) then StripRight(s[..|s| - 1]) else s
  }

  /** str.strip() */
  function Strip(s: string): string {
    StripRight(StripLeft(s))
  }

  function PythonToken(wide: Digits, line: string): Token {
    if "+++ b/" <= line then FileMark(line[6..])
    else if "@@" <= line then HunkMark(PythonCounter(wide, line))
    else if "+" <= line && !("+++" <= line) then AddLine(Strip(line[1..]))
    else if " " <= line then ContextLine(line[1..])
    else Ignored
  }

  function PythonTokens(wide: Digits, lines: seq<string>): (r: seq<Token>)
    ensures |r| == |lines|
  {
    if lines == [] then [] else [PythonToken(wide, lines[0])] + PythonTokens(wide, lines[1..])
  }

  // ----- the tracker -----

  /** Python's int does not wrap. */
  function PythonStep(s: ScanState, t: Token): ScanState {
    match t
    case FileMark(name) => s.(file := name)
    case HunkMark(counter) => s.(newLine := counter, hunk := [])
    case AddLine(text) => s.(newLine := s.newLine + 1, hunk := s.hunk + [text])
    case ContextLine(text) => if s.newLine > 0 then s.(newLine := s.newLine + 1, hunk := s.hunk + [text]) else s
    case Ignored => s
  }

  function PythonEmit(s: ScanState, index: nat, t: Token): seq<Emission> {
    if t.AddLine? then [Emission(index, s.file, s.newLine + 1, t.text, s.hunk)] else []
  }

  function PythonEmissions(s: ScanState, index: nat, ts: seq<Token>): seq<Emission>
    decreases ts
  {
    if ts == [] then []
    else PythonEmit(s, index, ts[0]) + PythonEmissions(PythonStep(s, ts[0]), index + 1, ts[1..])
  }

  /** What the checks are shown of a whole text. */
  function PythonView(wide: Digits, text: string): seq<Emission> {
    PythonEmissions(Initial, 0, PythonTokens(wide, PythonLines(text)))
  }

  method ScanPython(wide: Digits, data: string) returns (emitted: seq<Emission>)
    ensures emitted == PythonView(wide, data)
  {
    var lines := PythonLines(data);
    emitted := [];
    var currentFile := "";
    var currentHunk: seq<string> := [];
    var newLine := 0;
    for index := 0 to |lines|
      invariant emitted
              + PythonEmissions(ScanState(currentFile, newLine, currentHunk), index, PythonTokens(wide, lines[index..]))
             == PythonEmissions(Initial, 0, PythonTokens(wide, lines))
    {
      ghost var s := ScanState(currentFile, newLine, currentHunk);
      ghost var done := emitted;
      assert lines[index..][1..] == lines[index + 1..];
      var token := PythonToken(wide, lines[index]);
      match token {
        case FileMark(name) =>
          currentFile := name;
        case HunkMark(counter) =>
          newLine := counter;
          currentHunk := [];
        case AddLine(text) =>
          newLine := newLine + 1;
          emitted := emitted + [Emission(index, currentFile, newLine, text, currentHunk)];
          currentHunk := currentHunk + [text];
        case ContextLine(text) =>
          if newLine > 0 {
            newLine := newLine + 1;
            currentHunk := currentHunk + [text];
          }
        case Ignored =>
      }
      assert ScanState(currentFile, newLine, currentHunk) == PythonStep(s, token);
      ConcatNil(done);
      ConcatAssoc(done, PythonEmit(s, index, token),
                  PythonEmissions(PythonStep(s, token), index + 1, PythonTokens(wide, lines[index + 1..])));
    }
    ConcatNil(emitted);
  }

  // ----- the two scripts compared -----

  /** A character that both scripts take alike. */
  predicate Common(wide: Digits, c: char) {
    c !in wide && !(0x1C <= c as int <= 0x1F)
  }

  predicate AllCommon(wide: Digits, s: string) {
    forall i :: 0 <= i < |s| ==> Common(wide, s[i])
  }

  /** A line that both scripts take alike: its characters are common, and its hunk number fits a Go int. */
  predicate Ordinary(wide: Digits, line: string) {
    && AllCommon(wide, line)
    && ("@@" <= line && PlusDigits(line).Some? ==> DigitsValue(PlusDigits(line).value) <= MAX_INT)
  }

  lemma {:induction false} SameRun(wide: Digits, s: string)
    requires AllCommon(wide, s)
    ensures PythonRun(wide, s) == DigitRun(s)
  {
    if s != "" {
      SameRun(wide, s[1..]);
    }
  }

  lemma {:induction false} SameDigits(wide: Digits, s: string)
    requires AllCommon(wide, s)
    ensures PythonDigits(wide, s) == PlusDigits(s)
  {
    if s != "" {
      SameRun(wide, s[1..]);
      SameDigits(wide, s[1..]);
    }
  }

  lemma {:induction false} SameValue(wide: Digits, s: string)
    requires AllDigits(s)
    ensures PythonValue(wide, s) == DigitsValue(s)
  {
    if s != "" {
      SameValue(wide, s[..|s| - 1]);
    }
  }

  lemma SameCounter(wide: Digits, line: string)
    requires Ordinary(wide, line) && "@@" <= line
    ensures PythonCounter(wide, line) == StartCounter(line)
  {
    SameDigits(wide, line);
    if PlusDigits(line).Some? {
      SameValue(wide, PlusDigits(line).value);
    }
  }

  lemma {:induction false} SameLeft(wide: Digits, s: string)
    requires AllCommon(wide, s)
    ensures StripLeft(s) == TrimLeft(s) && AllCommon(wide, TrimLeft(s))
  {
    if s != "" {
      SameLeft(wide, s[1..]);
    }
  }

  lemma {:induction false} SameRight(wide: Digits, s: string)
    requires AllCommon(wide, s)
    ensures StripRight(s) == TrimRight(s)
  {
    if s != "" {
      SameRight(wide, s[..|s| - 1]);
    }
  }

  lemma SameStrip(wide: Digits, s: string)
    requires AllCommon(wide, s)
    ensures Strip(s) == TrimSpace(s)
  {
    SameLeft(wide, s);
    SameRight(wide, TrimLeft(s));
  }

  lemma SameToken(wide: Digits, line: string)
    requires Ordinary(wide, line)
    ensures PythonToken(wide, line) == TokenOf(line)
  {
    if "@@" <= line {
      SameCounter(wide, line);
    } else if "+" <= line {
      SameStrip(wide, line[1..]);
    }
  }

  lemma {:induction false} SameTokens(wide: Digits, lines: seq<string>)
    requires forall i :: 0 <= i < |lines| ==> Ordinary(wide, lines[i])
    ensures PythonTokens(wide, lines) == Tokens(lines)
  {
    if lines != [] {
      SameToken(wide, lines[0]);
      SameTokens(wide, lines[1..]);
    }
  }

  /** No counter can pass the largest int before the text ends. */
  predicate MarksFit(ts: seq<Token>) {
    ts == [] || ((ts[0].HunkMark? ==> ts[0].counter + |ts| <= MAX_INT) && MarksFit(ts[1..]))
  }

  lemma {:induction false} SameEmissions(s: ScanState, index: nat, ts: seq<Token>)
    requires MarksFit(ts) && s.newLine + |ts| <= MAX_INT
    ensures PythonEmissions(s, index, ts) == Scan(s, index, ts)
    decreases ts
  {
    if ts != [] {
      SameEmissions(ScanStep(s, ts[0]), index + 1, ts[1..]);
    }
  }

  /** A text that both scripts take alike, line by line and character by character. */
  predicate OrdinaryText(wide: Digits, data: string) {
    && PlainEnds(data) && (forall i :: 0 <= i < |Lines(data)| ==> Ordinary(wide, Lines(data)[i]))
    && MarksFit(Tokens(Lines(data))) && |Lines(data)| <= MAX_INT
  }

  /** On such a text the two scripts track the same: file, number, text and hunk so far at every added line. */
  lemma ScriptsTrackAlike(wide: Digits, data: string)
    requires OrdinaryText(wide, data)
    ensures PythonView(wide, data) == ScannerView(data)
  {
    PythonReadsExactly(data);
    SameTokens(wide, Lines(data));
    SameEmissions(Initial, 0, Tokens(Lines(data)));
  }

  /** So the Python script agrees with the parser under the same condition. */
  lemma PythonAgreesExactly(wide: Digits, fs: seq<PrintedFile>)
    requires AllScannable(fs) && OrdinaryText(wide, Print(fs))
    ensures Places(PythonView(wide, Print(fs))) == ParserPlaces(Print(fs)) <==> FilesAgree("", CleanFiles(fs))
  {
    ScriptsTrackAlike(wide, Print(fs));
    TrackersAgreeExactly(fs);
  }

  lemma SplitInTwo(a: string, c: char, b: string)
    requires Whole(a) && Whole(b) && b != "" && EndsLine(c)
    ensures SplitLines(a + ([c] + b)) == [a, b]
  {
    var s := a + ([c] + b);
    FirstWholeIs(a, [c] + b);
    assert s[..|a|] == a && s[|a| + 1..] == b;
    FirstWholeIs(b, "");
    ConcatNil(b);
  }

  lemma OneGoLine(s: string)
    requires s != "" && OneLine(s) && s[|s| - 1] != '\r'
    ensures Lines(s) == [s]
  {
    FirstLineUnique(s, |s|);
    assert s[..|s|] == s;
  }

  /** Lines on which they differ: where any other separator, such as a form feed, stands in front of a space, one
      context line is two to Python, which puts every later line of its hunk one too far. */
  lemma SeparatorSplits(x: string, c: char, y: string)
    requires Whole(x) && Whole(y) && EndsLine(c) && c != '\n' && c != '\r'
    ensures var s := " " + x + ([c] + (" " + y));
            PythonLines(s) == [" " + x, " " + y] && Lines(s) == [s]
  {
    var a, b := " " + x, " " + y;
    var s := a + ([c] + b);
    assert Whole(a) && Whole(b);
    assert forall i :: 0 <= i < |s| ==> s[i] == (if i < |a| then a[i] else if i == |a| then c else b[i - |a| - 1]);
    assert forall i :: 0 <= i < |s| ==> s[i] != '\n' && s[i] != '\r';
    UniversalPlain(s);
    OneGoLine(s);
    SplitInTwo(a, c, b);
  }

  lemma {:induction false} UniversalPlain(s: string)
    requires forall i :: 0 <= i < |s| ==> s[i] != '\r'
    ensures Universal(s) == s
  {
    if s != "" {
      assert "\r\n"[0] == '\r';
      UniversalPlain(s[1..]);
    }
  }
}
