/** The deterministic rules: what they look at, what they report, and how context lines bear on it. */
module Rules {
  import opened Wrappers
  import opened Text
  import opened UnifiedDiff

  /** The rules in the order in which a line is checked. */
  datatype Rule = TodoMarker | PanicDirect | HttpBodyClose | SqlConcat | CommandInjection | ContextMisuse
                | MutexUnlock | DeferInLoop | BareReturn | ConcatLoop | MissingTest | GoroutineLeak | ContextLeak
                | ResourceLeak | DbLifecycle | SecretLeak

  const AllRules := [TodoMarker, PanicDirect, HttpBodyClose, SqlConcat, CommandInjection, ContextMisuse, MutexUnlock,
                     DeferInLoop, BareReturn, ConcatLoop, MissingTest, GoroutineLeak, ContextLeak, ResourceLeak,
                     DbLifecycle, SecretLeak]

  /** The parts of the rules that are regular expressions or look at one line only: the tests of a line for SQL
      concatenation, command injection and secrets, the variable an assignment defines, the cancel function of
      a derived context, and the left side of +=. */
  datatype Matchers = Matchers(sqlConcat: string -> bool, commandInjection: string -> bool, secret: string -> bool,
                               variable: string -> string, cancel: string -> Option<string>,
                               concatTarget: string -> string)

  datatype Report = Report(rule: Rule, file: string, line: int, evidence: string)

  datatype Analysis = Analysis(findings: seq<Report>, warnings: seq<Report>)

  const Nothing := Analysis([], [])

  function Plus(a: Analysis, b: Analysis): Analysis {
    Analysis(a.findings + b.findings, a.warnings + b.warnings)
  }

  lemma PlusAssoc(a: Analysis, b: Analysis, c: Analysis)
    ensures Plus(Plus(a, b), c) == Plus(a, Plus(b, c)) && Plus(a, Nothing) == a && Plus(Nothing, a) == a
  {
    ConcatAssoc(a.findings, b.findings, c.findings);
    ConcatAssoc(a.warnings, b.warnings, c.warnings);
    ConcatNil(a.findings);
    ConcatNil(a.warnings);
  }

  // ----- the rules -----

  predicate ContainsAny(s: string, needles: seq<string>) {
    needles != [] && (Contains(s, needles[0]) || ContainsAny(s, needles[1..]))
  }

  function TrimSuffix(s: string, suffix: string): string {
    if HasSuffix(s, suffix) then s[..|s| - |suffix|] else s
  }

  const Guards := ["WaitGroup", ".Done()", "errgroup", "done", "sync."]
  const Requests := ["http.Get(", "http.Post(", "http.Head(", "http.DefaultClient.Do(", ".Do("]

  predicate BodyLeak(m: Matchers, text: string, joined: string) {
    ContainsAny(text, Requests)
    && var name := m.variable(text);
       !Contains(joined, if name != "" then name + ".Body.Close()" else "Body.Close()")
  }

  predicate UnlockMissing(text: string, joined: string) {
    Contains(text, ".Lock()") && !Contains(text, ".RLock()")
    && var receiver := TrimSpace(TrimSuffix(text, ".Lock()"));
       receiver == "" || !Contains(joined, receiver + ".Unlock()")
  }

  predicate Goroutine(text: string, joined: string) {
    (Contains(text, "go func") || "go " <= text) && !ContainsAny(joined, Guards)
  }

  predicate CancelMissing(m: Matchers, text: string, joined: string) {
    ContainsAny(text, ["context.WithCancel", "context.WithTimeout", "context.WithDeadline"])
    && (m.cancel(text).None? || !Contains(joined, m.cancel(text).value + "()"))
  }

  predicate CloseMissing(m: Matchers, text: string, joined: string) {
    ContainsAny(text, ["os.Open", "os.OpenFile", "os.Create"])
    && (m.variable(text) == "" || !Contains(joined, m.variable(text) + ".Close()"))
  }

  predicate CleanupMissing(m: Matchers, text: string, joined: string) {
    ContainsAny(text, ["sql.Open", ".BeginTx", ".Begin("])
    && (m.variable(text) == ""
        || !Contains(joined, m.variable(text) + if Contains(text, "sql.Open") then ".Close()" else ".Rollback()"))
  }

  predicate ConcatInLoop(m: Matchers, text: string, before: string, joined: string) {
    && Contains(text, "+=") && (ContainsAny(before, ["for ", "range "]) || ContainsAny(text, ["for ", "range "]))
    && var target := m.concatTarget(text);
       && target != ""
       && (Contains(text, "\"") || Contains(text, "`")
           || ContainsAny(joined, [target + " := \"\"", "var " + target + " string"]))
  }

  /** The rule reports the added line `text`, given the hunk's text before it and as a whole. */
  predicate Fires(m: Matchers, rule: Rule, text: string, before: string, joined: string) {
    match rule
    case TodoMarker => Contains(text, "TODO(") || Contains(text, "FIXME")
    case PanicDirect => Contains(text, "panic(")
    case HttpBodyClose => BodyLeak(m, text, joined)
    case SqlConcat => m.sqlConcat(text)
    case CommandInjection => m.commandInjection(text)
    case ContextMisuse => Contains(text, "context.Background()") && Contains(joined, "context.Context")
    case MutexUnlock => UnlockMissing(text, joined)
    case DeferInLoop => "defer " <= TrimSpace(text) && ContainsAny(before, ["for ", "range "])
    case BareReturn => TrimSpace(text) == "return err"
    case ConcatLoop => ConcatInLoop(m, text, before, joined)
    case MissingTest => "func " <= text && !Contains(text, "error")
    case GoroutineLeak => Goroutine(text, joined)
    case ContextLeak => CancelMissing(m, text, joined)
    case ResourceLeak => CloseMissing(m, text, joined)
    case DbLifecycle => CleanupMissing(m, text, joined)
    case SecretLeak => m.secret(text)
  }

  predicate IsWarning(rule: Rule) {
    rule.ConcatLoop? || rule.MissingTest?
  }

  /** Rules that test files are spared. */
  predicate SparesTests(rule: Rule) {
    rule.MissingTest? || rule.GoroutineLeak? || rule.ContextLeak? || rule.ResourceLeak? || rule.DbLifecycle?
    || rule.SecretLeak?
  }

  // ----- running them -----

  function Joined(lines: seq<Line>): string {
    if lines == [] then "" else Joined(lines[..|lines| - 1]) + (lines[|lines| - 1].text + "\n")
  }

  method JoinText(lines: seq<Line>, count: nat) returns (text: string)
    requires count <= |lines|
    ensures text == Joined(lines[..count])
  {
    text := "";
    for i := 0 to count
      invariant text == Joined(lines[..i])
    {
      assert lines[..i + 1][..i] == lines[..i];
      ConcatAssoc(text, lines[i].text, "\n");
      text := text + lines[i].text;
      text := text + "\n";
    }
  }

  /** What does not change while the lines of a hunk are checked. */
  datatype Scope = Scope(m: Matchers, redact: string -> string, path: string, isTest: bool)

  predicate Emits(s: Scope, rule: Rule, text: string, before: string, joined: string) {
    !(s.isTest && SparesTests(rule)) && Fires(s.m, rule, text, before, joined)
  }

  function Filed(rule: Rule, r: Report): Analysis {
    if IsWarning(rule) then Analysis([], [r]) else Analysis([r], [])
  }

  function LineReports(s: Scope, line: int, text: string, before: string, joined: string, rules: seq<Rule>): Analysis {
    if rules == [] then Nothing
    else
      var rule := rules[|rules| - 1];
      Plus(LineReports(s, line, text, before, joined, rules[..|rules| - 1]),
           if Emits(s, rule, text, before, joined) then Filed(rule, Report(rule, s.path, line, s.redact(text)))
           else Nothing)
  }

  /** The reports for the first k lines of a hunk. */
  function HunkReports(s: Scope, lines: seq<Line>, k: nat): Analysis
    requires k <= |lines|
  {
    if k == 0 then Nothing
    else
      var line := lines[k - 1];
      Plus(HunkReports(s, lines, k - 1),
           if line.kind == Added && s.path != ""
           then LineReports(s, line.newLine, TrimSpace(line.text), Joined(lines[..k - 1]), Joined(lines), AllRules)
           else Nothing)
  }

  function HunksReports(s: Scope, hunks: seq<Hunk>): Analysis {
    if hunks == [] then Nothing
    else
      var lines := hunks[|hunks| - 1].lines;
      Plus(HunksReports(s, hunks[..|hunks| - 1]), HunkReports(s, lines, |lines|))
  }

  function ScopeOf(m: Matchers, redact: string -> string, f: File): Scope {
    Scope(m, redact, f.path, f.isTest)
  }

  function FilesReports(m: Matchers, redact: string -> string, files: seq<File>): Analysis {
    if files == [] then Nothing
    else
      var f := files[|files| - 1];
      Plus(FilesReports(m, redact, files[..|files| - 1]), HunksReports(ScopeOf(m, redact, f), f.hunks))
  }

  lemma OneMoreRule(s: Scope, line: int, text: string, before: string, joined: string, rules: seq<Rule>, i: nat)
    requires i < |rules|
    ensures LineReports(s, line, text, before, joined, rules[..i + 1])
         == Plus(LineReports(s, line, text, before, joined, rules[..i]),
                 if Emits(s, rules[i], text, before, joined)
                 then Filed(rules[i], Report(rules[i], s.path, line, s.redact(text))) else Nothing)
  {
    assert rules[..i + 1][..i] == rules[..i];
  }

  method CheckLine(s: Scope, line: int, text: string, before: string, joined: string) returns (out: Analysis)
    ensures out == LineReports(s, line, text, before, joined, AllRules)
  {
    out := Nothing;
    for i := 0 to |AllRules|
      invariant out == LineReports(s, line, text, before, joined, AllRules[..i])
    {
      OneMoreRule(s, line, text, before, joined, AllRules, i);
      PlusAssoc(out, Nothing, Nothing);
      var rule := AllRules[i];
      if s.isTest && SparesTests(rule) {
        continue;
      }
      if Fires(s.m, rule, text, before, joined) {
        out := Plus(out, Filed(rule, Report(rule, s.path, line, s.redact(text))));
      }
    }
    assert AllRules[..|AllRules|] == AllRules;
  }

  method CheckHunk(s: Scope, lines: seq<Line>) returns (out: Analysis)
    ensures out == HunkReports(s, lines, |lines|)
  {
    var joined := JoinText(lines, |lines|);
    assert lines[..|lines|] == lines;
    out := Nothing;
    for i := 0 to |lines|
      invariant out == HunkReports(s, lines, i)
    {
      PlusAssoc(out, Nothing, Nothing);
      if lines[i].kind != Added {
        continue;
      }
      var before := JoinText(lines, i);
      if s.path == "" {
        continue;
      }
      var reports := CheckLine(s, lines[i].newLine, TrimSpace(lines[i].text), before, joined);
      out := Plus(out, reports);
    }
  }

  method Run(m: Matchers, redact: string -> string, files: seq<File>) returns (out: Analysis)
    ensures out == FilesReports(m, redact, files)
  {
    out := Nothing;
    for i := 0 to |files|
      invariant out == FilesReports(m, redact, files[..i])
    {
      assert files[..i + 1][..i] == files[..i];
      var s := ScopeOf(m, redact, files[i]);
      var hunks := files[i].hunks;
      ghost var start := out;
      PlusAssoc(start, Nothing, Nothing);
      for k := 0 to |hunks|
        invariant out == Plus(start, HunksReports(s, hunks[..k]))
      {
        assert hunks[..k + 1][..k] == hunks[..k];
        var reports := CheckHunk(s, hunks[k].lines);
        PlusAssoc(start, HunksReports(s, hunks[..k]), reports);
        out := Plus(out, reports);
      }
      assert hunks[..|hunks|] == hunks;
    }
    assert files[..|files|] == files;
  }

  // ----- files are independent -----

  /** The run over concatenated diffs is the concatenation of the runs. */
  lemma {:induction false} RunDistributes(m: Matchers, redact: string -> string, a: seq<File>, b: seq<File>)
    ensures FilesReports(m, redact, a + b) == Plus(FilesReports(m, redact, a), FilesReports(m, redact, b))
  {
    if b == [] {
      ConcatNil(a);
      PlusAssoc(FilesReports(m, redact, a), Nothing, Nothing);
    } else {
      var init, last := b[..|b| - 1], b[|b| - 1];
      assert (a + b)[..|a + b| - 1] == a + init;
      RunDistributes(m, redact, a, init);
      PlusAssoc(FilesReports(m, redact, a), FilesReports(m, redact, init),
                HunksReports(ScopeOf(m, redact, last), last.hunks));
    }
  }

  // ----- what is reported -----

  predicate Reported(a: Analysis, r: Report) {
    r in a.findings || r in a.warnings
  }

  lemma ReportedPlus(a: Analysis, b: Analysis, r: Report)
    ensures Reported(Plus(a, b), r) <==> Reported(a, r) || Reported(b, r)
  {}

  lemma {:induction false} LineReportsAre(s: Scope, line: int, text: string, before: string, joined: string,
                                          rules: seq<Rule>, r: Report)
    ensures Reported(LineReports(s, line, text, before, joined, rules), r)
       <==> r.rule in rules && Emits(s, r.rule, text, before, joined)
            && r == Report(r.rule, s.path, line, s.redact(text))
  {
    if rules != [] {
      var init, rule := rules[..|rules| - 1], rules[|rules| - 1];
      LineReportsAre(s, line, text, before, joined, init, r);
      LastSplits(rules);
      ReportedPlus(LineReports(s, line, text, before, joined, init),
                   if Emits(s, rule, text, before, joined) then Filed(rule, Report(rule, s.path, line, s.redact(text)))
                   else Nothing, r);
    }
  }

  lemma EveryRule(rule: Rule)
    ensures rule in AllRules
  {
    match rule {
      case TodoMarker => assert AllRules[0] == rule;
      case PanicDirect => assert AllRules[1] == rule;
      case HttpBodyClose => assert AllRules[2] == rule;
      case SqlConcat => assert AllRules[3] == rule;
      case CommandInjection => assert AllRules[4] == rule;
      case ContextMisuse => assert AllRules[5] == rule;
      case MutexUnlock => assert AllRules[6] == rule;
      case DeferInLoop => assert AllRules[7] == rule;
      case BareReturn => assert AllRules[8] == rule;
      case ConcatLoop => assert AllRules[9] == rule;
      case MissingTest => assert AllRules[10] == rule;
      case GoroutineLeak => assert AllRules[11] == rule;
      case ContextLeak => assert AllRules[12] == rule;
      case ResourceLeak => assert AllRules[13] == rule;
      case DbLifecycle => assert AllRules[14] == rule;
      case SecretLeak => assert AllRules[15] == rule;
    }
  }

  /** The report that line i of a hunk causes. */
  predicate Causes(s: Scope, lines: seq<Line>, i: nat, r: Report)
    requires i < |lines|
  {
    var text := TrimSpace(lines[i].text);
    && lines[i].kind == Added && s.path != ""
    && Emits(s, r.rule, text, Joined(lines[..i]), Joined(lines))
    && r == Report(r.rule, s.path, lines[i].newLine, s.redact(text))
  }

  /** The reports of one line. */
  function LineOf(s: Scope, lines: seq<Line>, i: nat): Analysis
    requires i < |lines|
  {
    if lines[i].kind == Added && s.path != ""
    then LineReports(s, lines[i].newLine, TrimSpace(lines[i].text), Joined(lines[..i]), Joined(lines), AllRules)
    else Nothing
  }

  lemma LineOfIs(s: Scope, lines: seq<Line>, i: nat, r: Report)
    requires i < |lines|
    ensures Reported(LineOf(s, lines, i), r) <==> Causes(s, lines, i, r)
  {
    EveryRule(r.rule);
    LineReportsAre(s, lines[i].newLine, TrimSpace(lines[i].text), Joined(lines[..i]), Joined(lines), AllRules, r);
  }

  lemma HunkReportsStep(s: Scope, lines: seq<Line>, k: nat, r: Report)
    requires 0 < k <= |lines|
    ensures Reported(HunkReports(s, lines, k), r)
       <==> Reported(HunkReports(s, lines, k - 1), r) || Causes(s, lines, k - 1, r)
  {
    LineOfIs(s, lines, k - 1, r);
    ReportedPlus(HunkReports(s, lines, k - 1), LineOf(s, lines, k - 1), r);
  }

  /** A hunk's reports are exactly those its added lines cause, each naming its line. */
  lemma {:induction false} HunkReportsAre(s: Scope, lines: seq<Line>, k: nat, r: Report)
    requires k <= |lines|
    ensures Reported(HunkReports(s, lines, k), r) <==> exists i :: 0 <= i < k && Causes(s, lines, i, r)
  {
    if k > 0 {
      HunkReportsAre(s, lines, k - 1, r);
      HunkReportsStep(s, lines, k, r);
    }
  }

  // ----- searching a hunk's text -----

  predicate LinesAreLines(lines: seq<Line>) {
    forall i :: 0 <= i < |lines| ==> OneLine(lines[i].text)
  }

  predicate Needle(n: string) {
    n != "" && OneLine(n)
  }

  lemma OccurrenceIs(s: string, needle: string, k: int)
    requires OccursAt(s, needle, k)
    ensures forall i :: k <= i < k + |needle| ==> s[i] == needle[i - k]
  {
    forall i | k <= i < k + |needle|
      ensures s[i] == needle[i - k]
    {
      assert s[k..k + |needle|][i - k] == s[i];
    }
  }

  /** An occurrence does not cross a newline. */
  lemma WithinOneLine(s: string, needle: string, k: int, newline: nat)
    requires OccursAt(s, needle, k) && OneLine(needle) && newline < |s| && s[newline] == '\n'
    ensures newline < k || newline >= k + |needle|
  {
    OccurrenceIs(s, needle, k);
  }

  lemma OccursInPart(a: string, b: string, c: string, needle: string, k: int)
    requires OccursAt(a + b + c, needle, k) && |a| <= k && k + |needle| <= |a + b|
    ensures Contains(b, needle)
  {
    assert (a + b + c)[k..k + |needle|] == b[k - |a|..k - |a| + |needle|];
    assert OccursAt(b, needle, k - |a|);
  }

  lemma SearchSplits(a: string, text: string, needle: string, s: string)
    requires Needle(needle) && (a == "" || a[|a| - 1] == '\n') && s == a + text + "\n" && Contains(s, needle)
    ensures Contains(a, needle) || Contains(text, needle)
  {
    var k := Index(s, needle);
    assert s[|s| - 1] == '\n';
    WithinOneLine(s, needle, k, |s| - 1);
    if a == "" || k >= |a| {
      OccursInPart(a, text, "\n", needle, k);
    } else {
      assert s[|a| - 1] == a[|a| - 1];
      WithinOneLine(s, needle, k, |a| - 1);
      assert s == "" + a + (text + "\n");
      OccursInPart("", a, text + "\n", needle, k);
    }
  }

  lemma SearchJoin(a: string, text: string, needle: string)
    requires Needle(needle) && (a == "" || a[|a| - 1] == '\n')
    ensures Contains(a + (text + "\n"), needle) <==> Contains(a, needle) || Contains(text, needle)
  {
    var s := a + text + "\n";
    ConcatAssoc(a, text, "\n");
    if Contains(s, needle) {
      SearchSplits(a, text, needle, s);
    }
    if Contains(a, needle) {
      ContainsInPart("", a, text + "\n", needle);
      assert "" + a + (text + "\n") == s;
    }
    if Contains(text, needle) {
      ContainsInPart(a, text, "\n", needle);
    }
  }

  lemma JoinedEnds(lines: seq<Line>)
    ensures Joined(lines) == "" || Joined(lines)[|Joined(lines)| - 1] == '\n'
  {}

  /** Searching the joined text of a hunk for a newline-free needle is searching its lines. */
  lemma {:induction false} SearchJoined(lines: seq<Line>, needle: string)
    requires Needle(needle)
    ensures Contains(Joined(lines), needle) <==> exists l :: l in lines && Contains(l.text, needle)
  {
    if lines != [] {
      var init, last := lines[..|lines| - 1], lines[|lines| - 1];
      SearchJoined(init, needle);
      JoinedEnds(init);
      SearchJoin(Joined(init), last.text, needle);
      LastSplits(lines);
    }
  }

  // ----- more context -----

  /** The same line, wherever it is: inserted context renumbers what follows it. */
  predicate Alike(a: Line, b: Line) {
    a.kind == b.kind && a.text == b.text
  }

  /** The second hunk has the lines of the first, in their order, and more context lines. */
  predicate MoreContext(lines: seq<Line>, more: seq<Line>) {
    if more == [] then lines == []
    else
      || (more[|more| - 1].kind == Context && MoreContext(lines, more[..|more| - 1]))
      || (lines != [] && Alike(lines[|lines| - 1], more[|more| - 1])
          && MoreContext(lines[..|lines| - 1], more[..|more| - 1]))
  }

  function AddedCount(lines: seq<Line>): nat {
    if lines == [] then 0 else AddedCount(lines[..|lines| - 1]) + if lines[|lines| - 1].kind == Added then 1 else 0
  }

  /** Line j of the one hunk and line i of the other are the same added line: the added line of that rank. */
  predicate SameAdded(lines: seq<Line>, j: nat, more: seq<Line>, i: nat) {
    && j < |lines| && i < |more| && more[i].kind == Added && Alike(lines[j], more[i])
    && AddedCount(lines[..j]) == AddedCount(more[..i])
  }

  lemma {:induction false} MoreContextCounts(lines: seq<Line>, more: seq<Line>)
    requires MoreContext(lines, more)
    ensures AddedCount(lines) == AddedCount(more)
  {
    if more != [] {
      if more[|more| - 1].kind == Context && MoreContext(lines, more[..|more| - 1]) {
        MoreContextCounts(lines, more[..|more| - 1]);
      } else {
        MoreContextCounts(lines[..|lines| - 1], more[..|more| - 1]);
      }
    }
  }

  lemma {:induction false} AddedLineStays(lines: seq<Line>, more: seq<Line>, i: nat) returns (j: nat)
    requires MoreContext(lines, more) && i < |more| && more[i].kind == Added
    ensures SameAdded(lines, j, more, i)
  {
    var init := more[..|more| - 1];
    if more[|more| - 1].kind == Context && MoreContext(lines, init) {
      j := AddedLineStays(lines, init, i);
      assert init[..i] == more[..i];
    } else if i == |more| - 1 {
      j := |lines| - 1;
      MoreContextCounts(lines[..j], init);
    } else {
      j := AddedLineStays(lines[..|lines| - 1], init, i);
      assert init[..i] == more[..i] && lines[..|lines| - 1][..j] == lines[..j];
    }
  }

  lemma {:induction false} TextsStay(lines: seq<Line>, more: seq<Line>, l: Line) returns (k: Line)
    requires MoreContext(lines, more) && l in lines
    ensures k in more && Alike(k, l)
  {
    var last := more[|more| - 1];
    LastSplits(more);
    if last.kind == Context && MoreContext(lines, more[..|more| - 1]) {
      k := TextsStay(lines, more[..|more| - 1], l);
    } else {
      LastSplits(lines);
      if l == lines[|lines| - 1] {
        k := last;
      } else {
        k := TextsStay(lines[..|lines| - 1], more[..|more| - 1], l);
      }
    }
  }

  /** Every needle of the one text is in the other. */
  ghost predicate Covers(joined: string, more: string) {
    forall n :: Needle(n) && Contains(joined, n) ==> Contains(more, n)
  }

  lemma MoreContextCovers(lines: seq<Line>, more: seq<Line>)
    requires MoreContext(lines, more)
    ensures Covers(Joined(lines), Joined(more))
  {
    forall n | Needle(n) && Contains(Joined(lines), n)
      ensures Contains(Joined(more), n)
    {
      SearchJoined(lines, n);
      SearchJoined(more, n);
      var l :| l in lines && Contains(l.text, n);
      var k := TextsStay(lines, more, l);
    }
  }

  /** The rules that a cleanup anywhere in the hunk silences. */
  predicate Leak(rule: Rule) {
    rule.HttpBodyClose? || rule.MutexUnlock? || rule.GoroutineLeak? || rule.ContextLeak? || rule.ResourceLeak?
    || rule.DbLifecycle?
  }

  /** Names found in one line are in one line. */
  ghost predicate NamesAreWords(m: Matchers) {
    && (forall t :: OneLine(t) ==> OneLine(m.variable(t)))
    && (forall t :: OneLine(t) && m.cancel(t).Some? ==> OneLine(m.cancel(t).value))
  }

  lemma ConcatNeedle(a: string, b: string)
    requires OneLine(a) && Needle(b)
    ensures Needle(a + b)
  {
    forall i | 0 <= i < |a + b|
      ensures (a + b)[i] != '\n'
    {
      if i < |a| { assert (a + b)[i] == a[i]; } else { assert (a + b)[i] == b[i - |a|]; }
    }
  }

  lemma CleanupNeedles()
    ensures Needle(".Body.Close()") && Needle("Body.Close()") && Needle(".Unlock()") && Needle("()")
    ensures Needle(".Close()") && Needle(".Rollback()")
  {}

  lemma GuardNeedles(joined: string, more: string)
    requires Covers(joined, more) && ContainsAny(joined, Guards)
    ensures ContainsAny(more, Guards)
  {
    GuardWords();
    AnyCovered(joined, more, Guards);
  }

  lemma GuardWords()
    ensures forall i :: 0 <= i < |Guards| ==> Needle(Guards[i])
  {
    assert Needle("WaitGroup") && Needle(".Done()") && Needle("errgroup") && Needle("done") && Needle("sync.");
  }

  lemma {:induction false} AnyCovered(joined: string, more: string, needles: seq<string>)
    requires Covers(joined, more) && ContainsAny(joined, needles)
    requires forall i :: 0 <= i < |needles| ==> Needle(needles[i])
    ensures ContainsAny(more, needles)
  {
    if !Contains(joined, needles[0]) {
      AnyCovered(joined, more, needles[1..]);
    }
  }

  lemma TrimmedOneLine(s: string)
    requires OneLine(s)
    ensures OneLine(TrimSpace(s))
  {
    TrimSpaceIs(s);
    var k :| 0 <= k <= |s| && TrimSpace(s) <= s[k..];
    forall i | 0 <= i < |TrimSpace(s)|
      ensures TrimSpace(s)[i] != '\n'
    {
      assert TrimSpace(s)[i] == s[k..][i] == s[k + i];
    }
  }

  lemma ReceiverOneLine(text: string)
    requires OneLine(text)
    ensures OneLine(TrimSpace(TrimSuffix(text, ".Lock()")))
  {
    TrimmedOneLine(TrimSuffix(text, ".Lock()"));
  }

  /** A leak found in the larger text is found in the smaller one. */
  lemma LeakStays(m: Matchers, rule: Rule, text: string, before: string, before2: string,
                  joined: string, more: string)
    requires Leak(rule) && NamesAreWords(m) && OneLine(text) && Covers(joined, more)
    requires Fires(m, rule, text, before2, more)
    ensures Fires(m, rule, text, before, joined)
  {
    CleanupNeedles();
    ConcatNeedle(m.variable(text), ".Body.Close()");
    ConcatNeedle(m.variable(text), ".Close()");
    ConcatNeedle(m.variable(text), ".Rollback()");
    if rule.MutexUnlock? {
      ReceiverOneLine(text);
      ConcatNeedle(TrimSpace(TrimSuffix(text, ".Lock()")), ".Unlock()");
    } else if rule.GoroutineLeak? {
      if ContainsAny(joined, Guards) {
        GuardNeedles(joined, more);
      }
    } else if rule.ContextLeak? && m.cancel(text).Some? {
      ConcatNeedle(m.cancel(text).value, "()");
    }
  }

  /** Inserting context lines into a hunk never creates a leak report: whatever is reported at an added line was
      reported at that line before, under the number it had. */
  lemma {:induction false} ContextCreatesNoLeak(s: Scope, lines: seq<Line>, more: seq<Line>, r: Report)
    requires MoreContext(lines, more) && LinesAreLines(more) && NamesAreWords(s.m)
    requires Leak(r.rule) && Reported(HunkReports(s, more, |more|), r)
    ensures exists i: nat, j: nat :: SameAdded(lines, j, more, i) && more[i].newLine == r.line
                           && Reported(HunkReports(s, lines, |lines|), r.(line := lines[j].newLine))
  {
    HunkReportsAre(s, more, |more|, r);
    var i :| 0 <= i < |more| && Causes(s, more, i, r);
    var j := AddedLineStays(lines, more, i);
    CauseStays(s, lines, more, i, j, r);
    HunkReportsAre(s, lines, |lines|, r.(line := lines[j].newLine));
  }

  lemma CauseStays(s: Scope, lines: seq<Line>, more: seq<Line>, i: nat, j: nat, r: Report)
    requires MoreContext(lines, more) && LinesAreLines(more) && NamesAreWords(s.m) && SameAdded(lines, j, more, i)
    requires Leak(r.rule) && Causes(s, more, i, r)
    ensures Causes(s, lines, j, r.(line := lines[j].newLine))
  {
    MoreContextCovers(lines, more);
    var text := TrimSpace(more[i].text);
    TrimmedOneLine(more[i].text);
    LeakStays(s.m, r.rule, text, Joined(lines[..j]), Joined(more[..i]), Joined(lines), Joined(more));
  }
}
