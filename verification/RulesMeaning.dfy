/** What makes each rule report an added line, told by the lines of its hunk. */
module RulesMeaning {
  import opened Wrappers
  import opened Text
  import opened UnifiedDiff
  import opened Rules

  /** Some line holds the text. */
  predicate LineHas(lines: seq<Line>, needle: string) {
    exists l :: l in lines && Contains(l.text, needle)
  }

  predicate HasOne(s: string, needles: seq<string>) {
    exists n :: n in needles && Contains(s, n)
  }

  predicate LineHasOne(lines: seq<Line>, needles: seq<string>) {
    exists n :: n in needles && LineHas(lines, n)
  }

  predicate SparedInTests(rule: Rule) {
    match rule
    case MissingTest => true
    case GoroutineLeak => true
    case ContextLeak => true
    case ResourceLeak => true
    case DbLifecycle => true
    case SecretLeak => true
    case _ => false
  }

  function BodyClosed(name: string): string {
    if name == "" then "Body.Close()" else name + ".Body.Close()"
  }

  /** A response without a line that closes its body. */
  predicate OpenBody(m: Matchers, lines: seq<Line>, t: string) {
    HasOne(t, ["http.Get(", "http.Post(", "http.Head(", "http.DefaultClient.Do(", ".Do("])
    && !LineHas(lines, BodyClosed(m.variable(t)))
  }

  /** A lock, not for reading, without a line that unlocks it. */
  predicate StaysLocked(lines: seq<Line>, t: string) {
    && Contains(t, ".Lock()") && !Contains(t, ".RLock()")
    && var receiver := TrimSpace(TrimSuffix(t, ".Lock()"));
       receiver == "" || !LineHas(lines, receiver + ".Unlock()")
  }

  /** A goroutine in a hunk without any of the usual guards. */
  predicate Unguarded(lines: seq<Line>, t: string) {
    (Contains(t, "go func") || "go " <= t)
    && !LineHasOne(lines, ["WaitGroup", ".Done()", "errgroup", "done", "sync."])
  }

  /** A derived context without a line that cancels it. */
  predicate NeverCancelled(m: Matchers, lines: seq<Line>, t: string) {
    && HasOne(t, ["context.WithCancel", "context.WithTimeout", "context.WithDeadline"])
    && (m.cancel(t).None? || !LineHas(lines, m.cancel(t).value + "()"))
  }

  /** A file without a line that closes it. */
  predicate NeverClosed(m: Matchers, lines: seq<Line>, t: string) {
    && HasOne(t, ["os.Open", "os.OpenFile", "os.Create"])
    && (m.variable(t) == "" || !LineHas(lines, m.variable(t) + ".Close()"))
  }

  /** A database handle without a line that closes it, or a transaction without one that rolls it back. */
  predicate NeverReleased(m: Matchers, lines: seq<Line>, t: string) {
    && HasOne(t, ["sql.Open", ".BeginTx", ".Begin("])
    && (m.variable(t) == ""
        || !LineHas(lines, m.variable(t) + if Contains(t, "sql.Open") then ".Close()" else ".Rollback()"))
  }

  /** The variable is a text, or is declared as one in the hunk. */
  predicate IsText(lines: seq<Line>, t: string, target: string) {
    || Contains(t, "\"") || Contains(t, "`")
    || LineHas(lines, target + " := \"\"") || LineHas(lines, "var " + target + " string")
  }

  /** += on a text in a loop. */
  predicate GrowsInLoop(m: Matchers, before: seq<Line>, lines: seq<Line>, t: string) {
    && Contains(t, "+=") && (LineHasOne(before, ["for ", "range "]) || HasOne(t, ["for ", "range "]))
    && m.concatTarget(t) != "" && IsText(lines, t, m.concatTarget(t))
  }

  /** What line i, trimmed to t, and the other lines of the hunk must be for the rule to report it. */
  predicate Triggers(m: Matchers, rule: Rule, lines: seq<Line>, i: nat, t: string)
    requires i <= |lines|
  {
    match rule
    case TodoMarker => Contains(t, "TODO(") || Contains(t, "FIXME")
    case PanicDirect => Contains(t, "panic(")
    case HttpBodyClose => OpenBody(m, lines, t)
    case SqlConcat => m.sqlConcat(t)
    case CommandInjection => m.commandInjection(t)
    case ContextMisuse => Contains(t, "context.Background()") && LineHas(lines, "context.Context")
    case MutexUnlock => StaysLocked(lines, t)
    case DeferInLoop => "defer " <= t && LineHasOne(lines[..i], ["for ", "range "])
    case BareReturn => t == "return err"
    case ConcatLoop => GrowsInLoop(m, lines[..i], lines, t)
    case MissingTest => "func " <= t && !Contains(t, "error")
    case GoroutineLeak => Unguarded(lines, t)
    case ContextLeak => NeverCancelled(m, lines, t)
    case ResourceLeak => NeverClosed(m, lines, t)
    case DbLifecycle => NeverReleased(m, lines, t)
    case SecretLeak => m.secret(t)
  }

  lemma {:induction false} AnyIs(s: string, needles: seq<string>)
    ensures ContainsAny(s, needles) <==> HasOne(s, needles)
  {
    if needles != [] {
      AnyIs(s, needles[1..]);
      assert forall n :: n in needles <==> n == needles[0] || n in needles[1..];
    }
  }

  lemma JoinedHas(lines: seq<Line>, needle: string)
    requires Needle(needle)
    ensures Contains(Joined(lines), needle) <==> LineHas(lines, needle)
  {
    SearchJoined(lines, needle);
  }

  lemma JoinedHasOne(lines: seq<Line>, needles: seq<string>)
    requires forall n :: n in needles ==> Needle(n)
    ensures ContainsAny(Joined(lines), needles) <==> LineHasOne(lines, needles)
  {
    AnyIs(Joined(lines), needles);
    forall n | n in needles
      ensures Contains(Joined(lines), n) <==> LineHas(lines, n)
    {
      JoinedHas(lines, n);
    }
  }

  /** Names found in one line are in one line, the left side of += included. */
  ghost predicate NamesInLine(m: Matchers) {
    NamesAreWords(m) && forall t :: OneLine(t) ==> OneLine(m.concatTarget(t))
  }

  const Loops := ["for ", "range "]

  lemma LoopsAre(s: string, lines: seq<Line>)
    ensures ContainsAny(s, Loops) <==> HasOne(s, Loops)
    ensures ContainsAny(Joined(lines), Loops) <==> LineHasOne(lines, Loops)
  {
    AnyIs(s, Loops);
    assert Needle("for ") && Needle("range ");
    JoinedHasOne(lines, Loops);
  }

  lemma BodyLeakIs(m: Matchers, lines: seq<Line>, t: string)
    requires NamesInLine(m) && OneLine(t)
    ensures BodyLeak(m, t, Joined(lines)) <==> OpenBody(m, lines, t)
  {
    AnyIs(t, Requests);
    CleanupNeedles();
    ConcatNeedle(m.variable(t), ".Body.Close()");
    JoinedHas(lines, BodyClosed(m.variable(t)));
  }

  lemma UnlockMissingIs(lines: seq<Line>, t: string)
    requires OneLine(t)
    ensures UnlockMissing(t, Joined(lines)) <==> StaysLocked(lines, t)
  {
    CleanupNeedles();
    ReceiverOneLine(t);
    var receiver := TrimSpace(TrimSuffix(t, ".Lock()"));
    ConcatNeedle(receiver, ".Unlock()");
    JoinedHas(lines, receiver + ".Unlock()");
  }

  lemma GoroutineIs(lines: seq<Line>, t: string)
    ensures Goroutine(t, Joined(lines)) <==> Unguarded(lines, t)
  {
    GuardWords();
    forall n | n in Guards
      ensures Needle(n)
    {
      var i :| 0 <= i < |Guards| && Guards[i] == n;
    }
    JoinedHasOne(lines, Guards);
  }

  lemma CancelMissingIs(m: Matchers, lines: seq<Line>, t: string)
    requires NamesInLine(m) && OneLine(t)
    ensures CancelMissing(m, t, Joined(lines)) <==> NeverCancelled(m, lines, t)
  {
    AnyIs(t, ["context.WithCancel", "context.WithTimeout", "context.WithDeadline"]);
    CleanupNeedles();
    if m.cancel(t).Some? {
      ConcatNeedle(m.cancel(t).value, "()");
      JoinedHas(lines, m.cancel(t).value + "()");
    }
  }

  lemma CloseMissingIs(m: Matchers, lines: seq<Line>, t: string)
    requires NamesInLine(m) && OneLine(t)
    ensures CloseMissing(m, t, Joined(lines)) <==> NeverClosed(m, lines, t)
  {
    AnyIs(t, ["os.Open", "os.OpenFile", "os.Create"]);
    CleanupNeedles();
    ConcatNeedle(m.variable(t), ".Close()");
    JoinedHas(lines, m.variable(t) + ".Close()");
  }

  lemma CleanupMissingIs(m: Matchers, lines: seq<Line>, t: string)
    requires NamesInLine(m) && OneLine(t)
    ensures CleanupMissing(m, t, Joined(lines)) <==> NeverReleased(m, lines, t)
  {
    var cleanup := if Contains(t, "sql.Open") then ".Close()" else ".Rollback()";
    AnyIs(t, ["sql.Open", ".BeginTx", ".Begin("]);
    CleanupNeedles();
    ConcatNeedle(m.variable(t), cleanup);
    JoinedHas(lines, m.variable(t) + cleanup);
  }

  lemma OneLineConcat(a: string, b: string)
    requires OneLine(a) && OneLine(b)
    ensures OneLine(a + b)
  {}

  lemma TwoIs(s: string, a: string, b: string)
    ensures ContainsAny(s, [a, b]) <==> Contains(s, a) || Contains(s, b)
  {
    assert [a, b][1..] == [b] && [b][1..] == [];
    assert ContainsAny(s, [b]) <==> Contains(s, b);
  }

  lemma DeclaredIs(lines: seq<Line>, target: string)
    requires OneLine(target)
    ensures ContainsAny(Joined(lines), [target + " := \"\"", "var " + target + " string"])
       <==> LineHas(lines, target + " := \"\"") || LineHas(lines, "var " + target + " string")
  {
    ConcatNeedle(target, " := \"\"");
    OneLineConcat("var ", target);
    ConcatNeedle("var " + target, " string");
    TwoIs(Joined(lines), target + " := \"\"", "var " + target + " string");
    JoinedHas(lines, target + " := \"\"");
    JoinedHas(lines, "var " + target + " string");
  }

  lemma ConcatInLoopIs(m: Matchers, before: seq<Line>, lines: seq<Line>, t: string)
    requires NamesInLine(m) && OneLine(t)
    ensures ConcatInLoop(m, t, Joined(before), Joined(lines)) <==> GrowsInLoop(m, before, lines, t)
  {
    LoopsAre(t, before);
    DeclaredIs(lines, m.concatTarget(t));
  }

  lemma DeferIs(before: seq<Line>, t: string)
    requires Trimmed(t)
    ensures ("defer " <= TrimSpace(t) && ContainsAny(Joined(before), ["for ", "range "]))
       <==> ("defer " <= t && LineHasOne(before, ["for ", "range "]))
  {
    TrimSpaceOfTrimmed(t);
    LoopsAre(t, before);
  }

  lemma ContextNeedle(lines: seq<Line>)
    ensures Contains(Joined(lines), "context.Context") <==> LineHas(lines, "context.Context")
  {
    assert Needle("context.Context");
    JoinedHas(lines, "context.Context");
  }

  predicate LooksAtHunk(rule: Rule) {
    rule.HttpBodyClose? || rule.ContextMisuse? || rule.MutexUnlock? || rule.GoroutineLeak? || rule.ContextLeak?
    || rule.ResourceLeak? || rule.DbLifecycle?
  }

  lemma HunkRuleIs(m: Matchers, rule: Rule, lines: seq<Line>, i: nat, t: string, before: string)
    requires NamesInLine(m) && OneLine(t) && i <= |lines| && LooksAtHunk(rule)
    ensures Fires(m, rule, t, before, Joined(lines)) <==> Triggers(m, rule, lines, i, t)
  {
    match rule {
      case HttpBodyClose => BodyLeakIs(m, lines, t);
      case ContextMisuse => ContextNeedle(lines);
      case MutexUnlock => UnlockMissingIs(lines, t);
      case GoroutineLeak => GoroutineIs(lines, t);
      case ContextLeak => CancelMissingIs(m, lines, t);
      case ResourceLeak => CloseMissingIs(m, lines, t);
      case DbLifecycle => CleanupMissingIs(m, lines, t);
    }
  }

  lemma LineRuleIs(m: Matchers, rule: Rule, lines: seq<Line>, i: nat, t: string, before: string, joined: string)
    requires Trimmed(t) && i <= |lines| && !LooksAtHunk(rule) && !rule.DeferInLoop? && !rule.ConcatLoop?
    ensures Fires(m, rule, t, before, joined) <==> Triggers(m, rule, lines, i, t)
  {
    TrimSpaceOfTrimmed(t);
  }

  lemma FiresIs(m: Matchers, rule: Rule, lines: seq<Line>, i: nat, t: string)
    requires NamesInLine(m) && OneLine(t) && Trimmed(t) && i <= |lines|
    ensures Fires(m, rule, t, Joined(lines[..i]), Joined(lines)) <==> Triggers(m, rule, lines, i, t)
  {
    if LooksAtHunk(rule) {
      HunkRuleIs(m, rule, lines, i, t, Joined(lines[..i]));
    } else if rule.DeferInLoop? {
      DeferIs(lines[..i], t);
    } else if rule.ConcatLoop? {
      ConcatInLoopIs(m, lines[..i], lines, t);
    } else {
      LineRuleIs(m, rule, lines, i, t, Joined(lines[..i]), Joined(lines));
    }
  }

  lemma SparedIs(rule: Rule)
    ensures SparesTests(rule) <==> SparedInTests(rule)
  {}

  lemma CausesIs(s: Scope, lines: seq<Line>, i: nat, r: Report, fires: bool)
    requires i < |lines|
    requires fires == Fires(s.m, r.rule, TrimSpace(lines[i].text), Joined(lines[..i]), Joined(lines))
    ensures Causes(s, lines, i, r)
       <==> && lines[i].kind == Added && s.path != "" && !(s.isTest && SparesTests(r.rule)) && fires
            && r.file == s.path && r.line == lines[i].newLine && r.evidence == s.redact(TrimSpace(lines[i].text))
  {}

  /** A rule reports a line of a hunk exactly when the line is added, its file has a name and is not a test that the
      rule spares, and line and hunk hold what triggers the rule; the report names file and line and shows the text,
      redacted. */
  lemma RuleReportsExactly(s: Scope, lines: seq<Line>, i: nat, r: Report)
    requires i < |lines| && LinesAreLines(lines) && NamesInLine(s.m)
    ensures Causes(s, lines, i, r)
       <==> && lines[i].kind == Added && s.path != "" && !(s.isTest && SparedInTests(r.rule))
            && Triggers(s.m, r.rule, lines, i, TrimSpace(lines[i].text))
            && r.file == s.path && r.line == lines[i].newLine && r.evidence == s.redact(TrimSpace(lines[i].text))
  {
    var t := TrimSpace(lines[i].text);
    TrimmedOneLine(lines[i].text);
    TrimSpaceIs(lines[i].text);
    FiresIs(s.m, r.rule, lines, i, t);
    SparedIs(r.rule);
    CausesIs(s, lines, i, r, Triggers(s.m, r.rule, lines, i, t));
  }
}
