/** The line tracker of the Skill's fallback checker, which numbers added lines independently of the parser. */
module SkillScan {
  import opened Wrappers
  import opened Text
  import opened UnifiedDiff

  // ----- what a line is to the scanner -----

  datatype Token = FileMark(name: string) | HunkMark(counter: int) | AddLine(text: string)
                 | ContextLine(text: string) | Ignored

  /** The digits of the first \+(\d+) in a line. */
  function PlusDigits(s: string): (d: Option<string>)
    ensures d.Some? ==> AllDigits(d.value)
  {
    if s == "" then None
    else if s[0] == '+' && DigitRun(s[1..]) > 0 then Some(s[1..][..DigitRun(s[1..])])
    else PlusDigits(s[1..])
  }

  /** The counter after a hunk header; fmt.Sscanf leaves 0 when the number does not fit an int. */
  function StartCounter(line: string): (c: int)
    ensures -1 <= c < MAX_INT
  {
    var d := PlusDigits(line);
    if d.None? then 0 else if DigitsValue(d.value) <= MAX_INT then DigitsValue(d.value) - 1 else -1
  }

  function TokenOf(line: string): Token {
    if "+++ b/" <= line then FileMark(TrimPrefix(line, "+++ b/"))
    else if "@@" <= line then HunkMark(StartCounter(line))
    else if "+" <= line && !("+++" <= line) then AddLine(TrimSpace(TrimPrefix(line, "+")))
    else if " " <= line then ContextLine(TrimPrefix(line, " "))
    else Ignored
  }

  lemma TokenCounter(line: string)
    requires TokenOf(line).HunkMark?
    ensures -1 <= TokenOf(line).counter < MAX_INT
  {}

  function Tokens(lines: seq<string>): (r: seq<Token>)
    ensures |r| == |lines|
  {
    if lines == [] then [] else [TokenOf(lines[0])] + Tokens(lines[1..])
  }

  lemma {:induction false} TokensConcat(a: seq<string>, b: seq<string>)
    ensures Tokens(a + b) == Tokens(a) + Tokens(b)
  {
    if a == [] {
      ConcatNil(b);
    } else {
      assert (a + b)[1..] == a[1..] + b;
      TokensConcat(a[1..], b);
    }
  }

  // ----- the tracker -----

  datatype ScanState = ScanState(file: string, newLine: int, hunk: seq<string>)

  /** What the checks see at one added line. */
  datatype Emission = Emission(index: nat, file: string, line: int, text: string, before: seq<string>)

  const Initial := ScanState("", 0, [])

  function ScanStep(s: ScanState, t: Token): ScanState {
    match t
    case FileMark(name) => s.(file := name)
    case HunkMark(counter) => s.(newLine := counter, hunk := [])
    case AddLine(text) => s.(newLine := Next(s.newLine), hunk := s.hunk + [text])
    case ContextLine(text) =>
      if s.newLine > 0 then s.(newLine := Next(s.newLine), hunk := s.hunk + [text]) else s
    case Ignored => s
  }

  function Emit(s: ScanState, index: nat, t: Token): seq<Emission> {
    if t.AddLine? then [Emission(index, s.file, Next(s.newLine), t.text, s.hunk)] else []
  }

  function ScanTo(s: ScanState, ts: seq<Token>): ScanState
    decreases ts
  {
    if ts == [] then s else ScanTo(ScanStep(s, ts[0]), ts[1..])
  }

  function Scan(s: ScanState, index: nat, ts: seq<Token>): seq<Emission>
    decreases ts
  {
    if ts == [] then [] else Emit(s, index, ts[0]) + Scan(ScanStep(s, ts[0]), index + 1, ts[1..])
  }

  method ScanSkill(data: string) returns (emitted: seq<Emission>)
    ensures emitted == ScannerView(data)
  {
    var lines := Lines(data);
    emitted := [];
    var currentFile := "";
    var currentHunk: seq<string> := [];
    var newLine := 0;
    for index := 0 to |lines|
      invariant emitted + Scan(ScanState(currentFile, newLine, currentHunk), index, Tokens(lines[index..]))
             == Scan(Initial, 0, Tokens(lines))
    {
      ghost var s := ScanState(currentFile, newLine, currentHunk);
      ghost var done := emitted;
      assert lines[index..][1..] == lines[index + 1..];
      var token := TokenOf(lines[index]);
      match token {
        case FileMark(name) =>
          currentFile := name;
        case HunkMark(counter) =>
          newLine := counter;
          currentHunk := [];
        case AddLine(text) =>
          newLine := Next(newLine);
          emitted := emitted + [Emission(index, currentFile, newLine, text, currentHunk)];
          currentHunk := currentHunk + [text];
        case ContextLine(text) =>
          if newLine > 0 {
            newLine := Next(newLine);
            currentHunk := currentHunk + [text];
          }
        case Ignored =>
      }
      assert ScanState(currentFile, newLine, currentHunk) == ScanStep(s, token);
      ConcatNil(done);
      ConcatAssoc(done, Emit(s, index, token), Scan(ScanStep(s, token), index + 1, Tokens(lines[index + 1..])));
    }
    ConcatNil(emitted);
  }

  lemma {:induction false} ScanConcat(s: ScanState, index: nat, a: seq<Token>, b: seq<Token>)
    ensures ScanTo(s, a + b) == ScanTo(ScanTo(s, a), b)
    ensures Scan(s, index, a + b) == Scan(s, index, a) + Scan(ScanTo(s, a), index + |a|, b)
    decreases a
  {
    if a == [] {
      ConcatNil(b);
      ConcatNil(Scan(s, index, b));
    } else {
      assert (a + b)[1..] == a[1..] + b;
      ScanConcat(ScanStep(s, a[0]), index + 1, a[1..], b);
      ConcatAssoc(Emit(s, index, a[0]), Scan(ScanStep(s, a[0]), index + 1, a[1..]),
                  Scan(ScanTo(s, a), index + |a|, b));
    }
  }

  /** What the checks are shown of a whole text. */
  function ScannerView(text: string): seq<Emission> {
    Scan(Initial, 0, Tokens(Lines(text)))
  }
}
