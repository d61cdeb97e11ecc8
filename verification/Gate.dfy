/** The permission gate, and its agreement with the commands the sandbox generates. */
module Gate {
  import opened Wrappers
  import opened Text
  import opened Records
  import opened Commands
  import opened Governance
  import opened ReviewChecks

  // ----- the policy -----

  /** The arguments of a tool call as the gate decodes them; absent fields are empty. */
  datatype Arguments = Malformed | Arguments(command: string, codeBlocks: seq<string>)

  /** skill_run, workspace_exec, execute_code, and every other tool. */
  datatype Tool = SkillRun | WorkspaceExec | ExecuteCode | OtherTool

  datatype ToolCall = ToolCall(tool: Tool, arguments: Arguments)

  /** strings.Cut */
  function Cut(s: string, sep: string): (string, string, bool) {
    var i := Index(s, sep);
    if i < 0 then (s, "", false) else (s[..i], s[i + |sep|..], true)
  }

  const CD := "cd "
  const EXPORT := "export GOCACHE="

  /** Code stands for a command: as it is, or after changing the directory and perhaps setting the cache. */
  predicate StandsFor(code: string, command: string) {
    || code == command
    || var (prefix, suffix, ok) := Cut(code, AND_THEN);
       && ok && CD <= TrimSpace(prefix)
       && AfterCache(TrimSpace(suffix)) == Some(command)
  }

  function AfterCache(suffix: string): Option<string> {
    if EXPORT <= suffix then
      var (_, rest, ok) := Cut(suffix, AND_THEN);
      if ok then Some(TrimSpace(rest)) else None
    else Some(suffix)
  }

  predicate SomeStandsFor(code: string, commands: seq<string>) {
    exists i :: 0 <= i < |commands| && StandsFor(code, commands[i])
  }

  predicate FallbackAllowed(args: Arguments, commands: seq<string>) {
    args.Arguments? && |args.codeBlocks| == 1 && SomeStandsFor(TrimSpace(args.codeBlocks[0]), commands)
  }

  method AllowsCodeExecFallback(args: Arguments, commands: seq<string>) returns (allowed: bool)
    ensures allowed <==> FallbackAllowed(args, commands)
  {
    if args.Malformed? || |args.codeBlocks| != 1 {
      return false;
    }
    var code := TrimSpace(args.codeBlocks[0]);
    for k := 0 to |commands|
      invariant forall i :: 0 <= i < k ==> !StandsFor(code, commands[i])
    {
      if code == commands[k] {
        return true;
      }
      var (prefix, suffix, ok) := Cut(code, AND_THEN);
      if !ok || !(CD <= TrimSpace(prefix)) {
        continue;
      }
      suffix := TrimSpace(suffix);
      if EXPORT <= suffix {
        var (_, rest, found) := Cut(suffix, AND_THEN);
        if !found {
          continue;
        }
        suffix := TrimSpace(rest);
      }
      if suffix == commands[k] {
        return true;
      }
    }
    allowed := false;
  }

  predicate CommandAllowed(candidate: string, commands: seq<string>) {
    exists i :: 0 <= i < |commands| && TrimSpace(commands[i]) == candidate
  }

  const AskHuman := Permit("ask", "unrecognized tool command requires human review")

  function Policy(call: Option<ToolCall>, skillCommand: string, commands: seq<string>): Answer {
    match call
    case None => Permit("deny", "missing permission request")
    case Some(ToolCall(tool, args)) =>
      if tool.SkillRun? && args.Arguments? && TrimSpace(args.command) == skillCommand then Permit(ALLOW, "")
      else if tool.WorkspaceExec? && args.Arguments? && CommandAllowed(TrimSpace(args.command), commands)
      then Permit(ALLOW, "")
      else if tool.ExecuteCode? && FallbackAllowed(args, commands) then Permit(ALLOW, "")
      else AskHuman
  }

  /** The command, in the container and outside, bounded and not. */
  function Variants(commands: seq<string>, limit: int): seq<string> {
    if commands == [] then []
    else
      var command := commands[|commands| - 1];
      Variants(commands[..|commands| - 1], limit)
      + [SandboxExecCommand(CONTAINER, command), BoundedSandboxCommand(command, limit),
         BoundedSandboxCommand(SandboxExecCommand(CONTAINER, command), limit)]
  }

  function DefaultCommands(limit: int): seq<string> {
    AllowedReviewCommands(true) + Variants(AllowedReviewCommands(true), limit)
  }

  method DefaultPermissionCommands(outputLimit: int) returns (commands: seq<string>)
    ensures commands == DefaultCommands(outputLimit)
  {
    var reviewed := AllowedReviewCommands(true);
    commands := reviewed;
    ConcatNil(reviewed);
    for i := 0 to |reviewed|
      invariant commands == reviewed + Variants(reviewed[..i], outputLimit)
    {
      assert reviewed[..i + 1][..i] == reviewed[..i];
      var inContainer := SandboxExecCommand(CONTAINER, reviewed[i]);
      var more := [inContainer, BoundedSandboxCommand(reviewed[i], outputLimit),
                   BoundedSandboxCommand(inContainer, outputLimit)];
      ConcatAssoc(reviewed, Variants(reviewed[..i], outputLimit), more);
      commands := commands + more;
    }
    assert reviewed[..|reviewed|] == reviewed;
  }

  /** The tool call that a request of the review stands for. */
  function CallOf(r: Request): ToolCall {
    match r
    case SkillRequest(_) => ToolCall(SkillRun, Arguments(CommandText(r), []))
    case WorkspaceRequest(_, _, _) => ToolCall(WorkspaceExec, Arguments(CommandText(r), []))
    case CodeRequest(_, _, _, _) => ToolCall(ExecuteCode, Arguments("", [CommandText(r)]))
  }

  function DefaultPolicy(r: Request, limit: int): Answer {
    Policy(Some(CallOf(r)), SKILL_COMMAND, DefaultCommands(limit))
  }

  // ----- what generated commands look like -----

  predicate NoAmp(s: string) {
    forall i :: 0 <= i < |s| ==> s[i] != '&'
  }

  /** No two ampersands in a row. */
  predicate NoDouble(s: string) {
    forall i :: 0 <= i < |s| - 1 ==> !(s[i] == '&' && s[i + 1] == '&')
  }

  lemma NoDoubleJoins(a: string, b: string)
    requires NoDouble(a) && NoDouble(b) && (a == "" || a[|a| - 1] != '&')
    ensures NoDouble(a + b)
  {
    forall i | 0 <= i < |a + b| - 1
      ensures !((a + b)[i] == '&' && (a + b)[i + 1] == '&')
    {
      if i + 1 < |a| {
        assert (a + b)[i] == a[i] && (a + b)[i + 1] == a[i + 1];
      } else if i >= |a| {
        assert (a + b)[i] == b[i - |a|] && (a + b)[i + 1] == b[i - |a| + 1];
      } else {
        assert (a + b)[i] == a[|a| - 1];
      }
    }
  }

  lemma SeparatorAt(s: string, k: int)
    requires OccursAt(s, AND_THEN, k)
    ensures s[k] == ' ' && s[k + 1] == '&' && s[k + 2] == '&' && s[k + 3] == ' '
  {
    var here := s[k..k + 4];
    assert here[0] == s[k] && here[1] == s[k + 1] && here[2] == s[k + 2] && here[3] == s[k + 3];
  }

  lemma NoDoubleSeparates(s: string)
    requires NoDouble(s)
    ensures !Contains(s, AND_THEN)
  {
    if Contains(s, AND_THEN) {
      SeparatorAt(s, Index(s, AND_THEN));
    }
  }

  lemma TailNoDouble(s: string)
    requires NoDouble(s) && s != ""
    ensures NoDouble(s[1..])
  {
    forall i | 0 <= i < |s[1..]| - 1
      ensures !(s[1..][i] == '&' && s[1..][i + 1] == '&')
    {
      assert s[1..][i] == s[i + 1] && s[1..][i + 1] == s[i + 1 + 1];
    }
  }

  lemma {:induction false} EscapedNoDouble(s: string)
    requires NoDouble(s)
    ensures NoDouble(EscapeQuotes(s))
    ensures s != "" ==> EscapeQuotes(s) != "" && (EscapeQuotes(s)[0] == '&' <==> s[0] == '&')
  {
    if s != "" {
      var head := if s[0] == '\'' then "'\"'\"'" else [s[0]];
      var tail := EscapeQuotes(s[1..]);
      TailNoDouble(s);
      EscapedNoDouble(s[1..]);
      if s[0] == '&' {
        if tail != "" {
          assert s[1..] != "" && s[1..][0] == s[1];
        }
        CharThenNoDouble(tail);
      } else {
        assert NoDouble(head) && head[|head| - 1] != '&';
        NoDoubleJoins(head, tail);
      }
    }
  }

  lemma CharThenNoDouble(tail: string)
    requires NoDouble(tail) && (tail != "" ==> tail[0] != '&')
    ensures NoDouble("&" + tail)
  {
    forall i | 0 <= i < |"&" + tail| - 1
      ensures !(("&" + tail)[i] == '&' && ("&" + tail)[i + 1] == '&')
    {
      if i > 0 {
        assert ("&" + tail)[i] == tail[i - 1] && ("&" + tail)[i + 1] == tail[i];
      }
    }
  }

  lemma ItoaNoAmp(n: int)
    ensures NoAmp(Itoa(n)) && Itoa(n) != ""
  {
    if n < 0 {
      assert forall i :: 1 <= i < |Itoa(n)| ==> Itoa(n)[i] == Decimal(-n)[i - 1];
    }
  }

  lemma PipeLiterals()
    ensures NoAmp(PIPE_OPEN) && NoAmp(PIPE_CLOSE) && NoAmp(BASH) && NoAmp("'")
    ensures PIPE_MIDDLE == "; } 2>" + ("&" + "1 | { head -c ") && NoAmp("; } 2>") && NoAmp("1 | { head -c ")
  {}

  lemma PipelineNoDouble(command: string, limit: int)
    requires NoAmp(command)
    ensures NoDouble(Pipeline(command, limit))
  {
    PipeLiterals();
    ItoaNoAmp(limit);
    CharThenNoDouble("1 | { head -c ");
    NoDoubleJoins("; } 2>", "&" + "1 | { head -c ");
    NoDoubleJoins(PIPE_OPEN, command);
    assert PIPE_OPEN + command == "" || (PIPE_OPEN + command)[|PIPE_OPEN + command| - 1] != '&';
    NoDoubleJoins(PIPE_OPEN + command, PIPE_MIDDLE);
    assert PIPE_MIDDLE[|PIPE_MIDDLE| - 1] == ' ';
    NoDoubleJoins(PIPE_OPEN + command + PIPE_MIDDLE, Itoa(limit));
    NoDoubleJoins(PIPE_OPEN + command + PIPE_MIDDLE + Itoa(limit), PIPE_CLOSE);
  }

  lemma BoundedNoDouble(command: string, limit: int)
    requires NoAmp(command)
    ensures NoDouble(BoundedSandboxCommand(command, limit))
  {
    if limit > 0 {
      var p := Pipeline(command, limit);
      PipeLiterals();
      PipelineNoDouble(command, limit);
      EscapedNoDouble(p);
      NoDoubleJoins("'", EscapeQuotes(p));
      QuoteJoins("'" + EscapeQuotes(p));
      NoDoubleJoins(BASH, ShellQuote(p));
    }
  }

  lemma QuoteJoins(s: string)
    requires NoDouble(s)
    ensures NoDouble(s + "'")
  {
    forall i | 0 <= i < |s + "'"| - 1
      ensures !((s + "'")[i] == '&' && (s + "'")[i + 1] == '&')
    {
      if i + 1 < |s| {
        assert (s + "'")[i] == s[i] && (s + "'")[i + 1] == s[i + 1];
      } else {
        assert (s + "'")[i + 1] == '\'';
      }
    }
  }

  /** What the proofs need of a command: no ampersand, and no space at either end. */
  predicate Tame(s: string) {
    NoAmp(s) && s != "" && Trimmed(s)
  }

  lemma BaseTame(review: string)
    requires review in AllowedReviewCommands(true)
    ensures Tame(review)
  {
    assert review == GO_TEST || review == GO_VET || review == STATICCHECK;
  }

  lemma ContainerTame(review: string)
    requires review in AllowedReviewCommands(true)
    ensures Tame(SandboxExecCommand(CONTAINER, review))
  {
    BaseTame(review);
    if "go " <= review {
      assert "go" <= review;
      var tail := TrimPrefix(review, "go");
      assert tail == review[2..];
      assert forall i :: 0 <= i < |tail| ==> tail[i] == review[i + 2];
      assert NoAmp(GO_BINARY) && GO_BINARY[0] == '/';
      assert |tail| >= 1 && tail[|tail| - 1] == review[|review| - 1];
      assert (GO_BINARY + tail)[|GO_BINARY + tail| - 1] == tail[|tail| - 1];
      assert (GO_BINARY + tail)[0] == '/';
    }
  }

  lemma ExecTame(runtime: string, review: string)
    requires review in AllowedReviewCommands(true)
    ensures Tame(SandboxExecCommand(runtime, review))
  {
    BaseTame(review);
    ContainerTame(review);
  }

  lemma BoundedTrimmed(command: string, limit: int)
    requires Tame(command)
    ensures BoundedSandboxCommand(command, limit) != "" && Trimmed(BoundedSandboxCommand(command, limit))
  {
    if limit > 0 {
      var s := BoundedSandboxCommand(command, limit);
      assert s[0] == BASH[0] == 'b';
      assert s[|s| - 1] == '\'';
    }
  }

  predicate NoSeparator(commands: seq<string>) {
    forall i :: 0 <= i < |commands| ==> !Contains(commands[i], AND_THEN)
  }

  lemma OneNoSeparator(c: string, limit: int)
    requires c in AllowedReviewCommands(true)
    ensures !Contains(SandboxExecCommand(CONTAINER, c), AND_THEN)
    ensures !Contains(BoundedSandboxCommand(c, limit), AND_THEN)
    ensures !Contains(BoundedSandboxCommand(SandboxExecCommand(CONTAINER, c), limit), AND_THEN)
  {
    BaseTame(c);
    ContainerTame(c);
    BoundedNoDouble(c, limit);
    BoundedNoDouble(SandboxExecCommand(CONTAINER, c), limit);
    NoDoubleSeparates(SandboxExecCommand(CONTAINER, c));
    NoDoubleSeparates(BoundedSandboxCommand(c, limit));
    NoDoubleSeparates(BoundedSandboxCommand(SandboxExecCommand(CONTAINER, c), limit));
  }

  lemma ThreeMore(commands: seq<string>, a: string, b: string, c: string)
    requires NoSeparator(commands) && NoSeparator([a]) && NoSeparator([b]) && NoSeparator([c])
    ensures NoSeparator(commands + [a, b, c])
  {
    assert [a][0] == a && [b][0] == b && [c][0] == c;
  }

  lemma {:induction false} VariantsNoSeparator(commands: seq<string>, limit: int)
    requires forall c :: c in commands ==> c in AllowedReviewCommands(true)
    ensures NoSeparator(Variants(commands, limit))
  {
    if commands != [] {
      var c := commands[|commands| - 1];
      VariantsNoSeparator(commands[..|commands| - 1], limit);
      OneNoSeparator(c, limit);
      ThreeMore(Variants(commands[..|commands| - 1], limit), SandboxExecCommand(CONTAINER, c),
                BoundedSandboxCommand(c, limit), BoundedSandboxCommand(SandboxExecCommand(CONTAINER, c), limit));
    }
  }

  /** No command of the allowlist contains the separator. */
  lemma ListNoSeparator(limit: int)
    ensures NoSeparator(DefaultCommands(limit))
  {
    var reviewed := AllowedReviewCommands(true);
    VariantsNoSeparator(reviewed, limit);
    forall i | 0 <= i < |reviewed|
      ensures !Contains(reviewed[i], AND_THEN)
    {
      BaseTame(reviewed[i]);
      NoDoubleSeparates(reviewed[i]);
    }
  }

  // ----- cutting -----

  lemma OccursInFront(a: string, b: string, sep: string, k: int)
    requires k + |sep| <= |a|
    ensures OccursAt(a + b, sep, k) == OccursAt(a, sep, k)
  {
    if k >= 0 {
      assert (a + b)[k..k + |sep|] == a[k..k + |sep|];
    }
  }

  /** The separator does not overlap the end of a text that ends in another character. */
  lemma NoOverlap(a: string, b: string, k: int)
    requires a != "" && a[|a| - 1] != ' ' && a[|a| - 1] != '&' && OccursAt(a + b, AND_THEN, k)
    ensures k + 4 <= |a| || k >= |a|
  {
    SeparatorAt(a + b, k);
  }

  /** Where the first separator is: in the first part if it has one, else between the parts. */
  lemma FirstSeparator(a: string, b: string)
    requires a != "" && a[|a| - 1] != ' ' && a[|a| - 1] != '&'
    ensures !Contains(a, AND_THEN) ==> Index(a + (AND_THEN + b), AND_THEN) == |a|
    ensures Contains(a, AND_THEN) ==> 0 <= Index(a + (AND_THEN + b), AND_THEN) < |a| - 4
  {
    var s := a + (AND_THEN + b);
    assert s[|a|..|a| + 4] == AND_THEN;
    assert OccursAt(s, AND_THEN, |a|);
    var i := Index(s, AND_THEN);
    NoOverlap(a, AND_THEN + b, i);
    if i < |a| {
      OccursInFront(a, AND_THEN + b, AND_THEN, i);
      assert a[i..i + 4][3] == a[i + 3] && AND_THEN[3] == ' ';
    }
    if Contains(a, AND_THEN) {
      OccursInFront(a, AND_THEN + b, AND_THEN, Index(a, AND_THEN));
    }
  }

  lemma CutBetween(a: string, b: string)
    requires a != "" && a[|a| - 1] != ' ' && a[|a| - 1] != '&' && !Contains(a, AND_THEN)
    ensures Cut(a + (AND_THEN + b), AND_THEN) == (a, b, true)
  {
    FirstSeparator(a, b);
    assert (a + (AND_THEN + b))[..|a|] == a;
    assert (a + (AND_THEN + b))[|a| + 4..] == b;
  }

  /** A text that keeps its last separator through cutting and trimming. */
  ghost predicate Separated(s: string, b: string) {
    exists a :: HeadOf(a) && s == a + (AND_THEN + b)
  }

  /** Not empty, and ending in a character that is neither a space nor an ampersand. */
  predicate HeadOf(a: string) {
    a != "" && !IsSpace(a[|a| - 1]) && a[|a| - 1] != '&'
  }

  lemma {:induction false} TrimLeftHead(a: string, b: string)
    requires HeadOf(a)
    ensures HeadOf(TrimLeft(a)) && TrimLeft(a + b) == TrimLeft(a) + b
  {
    if IsSpace(a[0]) {
      assert (a + b)[1..] == a[1..] + b;
      TrimLeftHead(a[1..], b);
    }
  }

  lemma TrimKeeps(s: string, b: string)
    requires Separated(s, b) && b != "" && Trimmed(b)
    ensures Separated(TrimSpace(s), b)
  {
    var a :| HeadOf(a) && s == a + (AND_THEN + b);
    TrimLeftHead(a, AND_THEN + b);
    var t := TrimLeft(a) + (AND_THEN + b);
    assert t[|t| - 1] == b[|b| - 1];
    assert TrimRight(t) == t;
  }

  lemma SeparatedContains(s: string, b: string)
    requires Separated(s, b)
    ensures Contains(s, AND_THEN)
  {
    var a :| HeadOf(a) && s == a + (AND_THEN + b);
    assert s[|a|..|a| + 4] == AND_THEN;
    assert OccursAt(s, AND_THEN, |a|);
  }

  /** Cutting where the head still holds a separator leaves a shorter head. */
  lemma CutInHead(a: string, b: string)
    requires HeadOf(a) && Contains(a, AND_THEN)
    ensures var (_, rest, ok) := Cut(a + (AND_THEN + b), AND_THEN); ok && Separated(rest, b)
  {
    FirstSeparator(a, b);
    var i := Index(a + (AND_THEN + b), AND_THEN);
    var a2 := a[i + 4..];
    assert (a + (AND_THEN + b))[i + 4..] == a2 + (AND_THEN + b);
    assert HeadOf(a2);
  }

  // ----- the gate and the generator agree -----

  lemma EscapeSeparates(path: string)
    ensures Contains(EscapeQuotes(path), AND_THEN) <==> Contains(path, AND_THEN)
  {
    if Contains(EscapeQuotes(path), AND_THEN) {
      EscapedAt(path, Index(EscapeQuotes(path), AND_THEN));
    }
    if Contains(path, AND_THEN) {
      EscapeKeeps(path, Index(path, AND_THEN));
    }
  }

  lemma FourChars(s: string, k: int)
    requires 0 <= k && k + 4 <= |s| && s[k] == ' ' && s[k + 1] == '&' && s[k + 2] == '&' && s[k + 3] == ' '
    ensures OccursAt(s, AND_THEN, k) && Contains(s, AND_THEN)
  {
    assert s[k..k + 4] == AND_THEN;
    assert OccursAt(s, AND_THEN, k);
  }

  /** A text without quotes at its front is escaped to itself there. */
  lemma {:induction false} EscapeFront(path: string, n: nat)
    requires n <= |path| && forall i :: 0 <= i < n ==> path[i] != '\''
    ensures n <= |EscapeQuotes(path)| && EscapeQuotes(path)[..n] == path[..n]
  {
    if n > 0 {
      EscapeFront(path[1..], n - 1);
      assert EscapeQuotes(path) == [path[0]] + EscapeQuotes(path[1..]);
      assert path[..n] == [path[0]] + path[1..][..n - 1];
    }
  }

  lemma {:induction false} EscapeKeeps(path: string, k: int)
    requires OccursAt(path, AND_THEN, k)
    ensures Contains(EscapeQuotes(path), AND_THEN)
  {
    SeparatorAt(path, k);
    var e := EscapeQuotes(path);
    if k == 0 {
      EscapeFront(path, 4);
      assert e[..4][0] == e[0] && e[..4][1] == e[1] && e[..4][2] == e[2] && e[..4][3] == e[3];
      assert path[..4][0] == path[0] && path[..4][1] == path[1] && path[..4][2] == path[2] && path[..4][3] == path[3];
      FourChars(e, 0);
    } else {
      var head := if path[0] == '\'' then "'\"'\"'" else [path[0]];
      OccursInTail(path, AND_THEN, k);
      EscapeKeeps(path[1..], k - 1);
      ContainsInPart(head, EscapeQuotes(path[1..]), "", AND_THEN);
      ConcatNil(e);
    }
  }

  lemma {:induction false} EscapedAt(path: string, k: int)
    requires OccursAt(EscapeQuotes(path), AND_THEN, k)
    ensures Contains(path, AND_THEN)
    decreases |path|
  {
    SeparatorAt(EscapeQuotes(path), k);
    var e := EscapeQuotes(path);
    var tail := EscapeQuotes(path[1..]);
    if path[0] == '\'' {
      assert e == "'\"'\"'" + tail;
      assert k >= 5;
      OccursBehind("'\"'\"'", tail, k);
      EscapedAt(path[1..], k - 5);
      ContainsInPart([path[0]], path[1..], "", AND_THEN);
      assert [path[0]] + path[1..] + "" == path;
    } else if k == 0 {
      EscapedFront(path, 4);
      FourChars(path, 0);
    } else {
      assert e == [path[0]] + tail;
      OccursBehind([path[0]], tail, k);
      EscapedAt(path[1..], k - 1);
      ContainsInPart([path[0]], path[1..], "", AND_THEN);
      assert [path[0]] + path[1..] + "" == path;
    }
  }

  lemma OccursBehind(a: string, b: string, k: int)
    requires OccursAt(a + b, AND_THEN, k) && k >= |a|
    ensures OccursAt(b, AND_THEN, k - |a|)
  {
    assert (a + b)[k..k + 4] == b[k - |a|..k - |a| + 4];
  }

  /** Where the escaped text begins without quotes, so does the text. */
  lemma {:induction false} EscapedFront(path: string, n: nat)
    requires n <= |EscapeQuotes(path)| && forall i :: 0 <= i < n ==> EscapeQuotes(path)[i] != '\''
    ensures n <= |path| && forall i :: 0 <= i < n ==> path[i] == EscapeQuotes(path)[i]
  {
    if n > 0 {
      assert EscapeQuotes(path)[0] == path[0];
      assert EscapeQuotes(path) == [path[0]] + EscapeQuotes(path[1..]);
      assert forall i :: 0 <= i < n - 1 ==> EscapeQuotes(path[1..])[i] == EscapeQuotes(path)[i + 1];
      EscapedFront(path[1..], n - 1);
      assert forall i :: 1 <= i < n ==> path[i] == path[1..][i - 1];
    }
  }

  /** "cd " and the quoted path: separated exactly when the path is. */
  function ChangeDir(path: string): string {
    CD + ShellQuote(path)
  }

  lemma ChangeDirHead(path: string)
    ensures HeadOf(ChangeDir(path)) && TrimSpace(ChangeDir(path)) == ChangeDir(path) && CD <= ChangeDir(path)
  {
    var q := ShellQuote(path);
    assert q[|q| - 1] == '\'';
    assert CD[0] == 'c' && (CD + q)[0] == CD[0] && (CD + q)[|CD + q| - 1] == q[|q| - 1];
    TrimSpaceOfTrimmed(CD + q);
  }

  lemma ChangeDirSeparates(path: string)
    ensures Contains(ChangeDir(path), AND_THEN) <==> Contains(path, AND_THEN)
    ensures HeadOf(ChangeDir(path)) && TrimSpace(ChangeDir(path)) == ChangeDir(path) && CD <= ChangeDir(path)
  {
    ChangeDirHead(path);
    EscapeSeparates(path);
    assert ChangeDir(path) == (CD + "'") + EscapeQuotes(path) + "'";
    assert CD + "'" == ['c', 'd', ' ', '\''];
    BetweenQuotes(CD + "'", EscapeQuotes(path));
  }

  lemma BetweenQuotes(a: string, e: string)
    requires a == ['c', 'd', ' ', '\'']
    ensures Contains(a + e + "'", AND_THEN) <==> Contains(e, AND_THEN)
  {
    var s := a + e + "'";
    if Contains(e, AND_THEN) {
      ContainsInPart(a, e, "'", AND_THEN);
    }
    if Contains(s, AND_THEN) {
      var k := Index(s, AND_THEN);
      SeparatorAt(s, k);
      assert s[0] == 'c' && s[1] == 'd' && s[2] == ' ' && s[3] == '\'' && s[|s| - 1] == '\'';
      assert 4 <= k && k + 4 <= 4 + |e|;
      assert s[4..4 + |e|] == e;
      FourChars(e, k - 4);
    }
  }

  lemma QuotedHead(front: string, value: string)
    requires NoAmp(front) && front != "" && !IsSpace(front[0]) && NoAmp(value)
    ensures HeadOf(front + ShellQuote(value)) && !Contains(front + ShellQuote(value), AND_THEN)
    ensures Trimmed(front + ShellQuote(value)) && (front + ShellQuote(value))[0] == front[0]
  {
    var s := front + ShellQuote(value);
    EscapedNoDouble(value);
    NoDoubleJoins("'", EscapeQuotes(value));
    QuoteJoins("'" + EscapeQuotes(value));
    NoDoubleJoins(front, ShellQuote(value));
    NoDoubleSeparates(s);
    assert s[|s| - 1] == '\'';
  }

  lemma CacheNoAmp()
    ensures NoAmp(EXPORT) && NoAmp(GO_CACHE) && !IsSpace(EXPORT[0])
  {}

  lemma ExportHead(cache: string)
    requires NoAmp(cache)
    ensures HeadOf(EXPORT + ShellQuote(cache)) && !Contains(EXPORT + ShellQuote(cache), AND_THEN)
    ensures Trimmed(EXPORT + ShellQuote(cache)) && !IsSpace((EXPORT + ShellQuote(cache))[0])
  {
    CacheNoAmp();
    QuotedHead(EXPORT, cache);
  }

  /** What follows the change of directory. */
  function CacheThen(cache: string, command: string): string {
    EXPORT + ShellQuote(cache) + (AND_THEN + command)
  }

  lemma CodeIs(runtime: string, hostRepoPath: string, command: string)
    ensures SandboxCode(runtime, hostRepoPath, command)
         == ChangeDir(SandboxRepoPath(runtime, hostRepoPath)) + (AND_THEN + CacheThen(GO_CACHE, command))
  {
    JoinText(CD + ShellQuote(SandboxRepoPath(runtime, hostRepoPath)), AND_THEN, EXPORT, ShellQuote(GO_CACHE), command);
  }

  lemma JoinText(a: string, and: string, export_: string, c: string, command: string)
    ensures a + and + export_ + c + and + command == a + (and + (export_ + c + (and + command)))
  {}

  /** The code for a path without a separator stands for its command. */
  lemma CodeAccepted(path: string, cache: string, command: string)
    requires NoAmp(cache) && !Contains(path, AND_THEN) && command != "" && Trimmed(command)
    ensures StandsFor(ChangeDir(path) + (AND_THEN + CacheThen(cache, command)), command)
  {
    ChangeDirSeparates(path);
    ExportHead(cache);
    CutBetween(ChangeDir(path), CacheThen(cache, command));
    var suffix := CacheThen(cache, command);
    var e := EXPORT + ShellQuote(cache);
    assert suffix[0] == e[0] && suffix[|suffix| - 1] == command[|command| - 1];
    TrimSpaceOfTrimmed(suffix);
    CutBetween(e, command);
    TrimSpaceOfTrimmed(command);
    assert EXPORT <= suffix;
  }

  /** The code for a path with a separator stands for no command without one. */
  lemma CodeRejected(path: string, cache: string, command: string, listed: string)
    requires NoAmp(cache) && Contains(path, AND_THEN) && command != "" && Trimmed(command)
    requires !Contains(listed, AND_THEN)
    ensures !StandsFor(ChangeDir(path) + (AND_THEN + CacheThen(cache, command)), listed)
  {
    ExportHead(cache);
    ChangeDirSeparates(path);
    ThenTrimmed(EXPORT + ShellQuote(cache), command);
    NeverStands(ChangeDir(path), CacheThen(cache, command), listed);
  }

  lemma ThenTrimmed(e: string, command: string)
    requires HeadOf(e) && !IsSpace(e[0]) && command != "" && Trimmed(command)
    ensures Trimmed(e + (AND_THEN + command)) && Contains(e + (AND_THEN + command), AND_THEN)
  {
    var s := e + (AND_THEN + command);
    assert s[0] == e[0] && s[|s| - 1] == command[|command| - 1];
    assert Separated(s, command);
    SeparatedContains(s, command);
  }

  lemma NeverStands(a: string, b: string, listed: string)
    requires HeadOf(a) && Contains(a, AND_THEN) && b != "" && Trimmed(b) && Contains(b, AND_THEN)
    requires !Contains(listed, AND_THEN)
    ensures !StandsFor(a + (AND_THEN + b), listed)
  {
    var code := a + (AND_THEN + b);
    assert Separated(code, b);
    SeparatedContains(code, b);
    CutInHead(a, b);
    TrimKeeps(Cut(code, AND_THEN).1, b);
    AfterCacheContains(TrimSpace(Cut(code, AND_THEN).1), b);
  }

  /** Even after a second cut a separator is left. */
  lemma AfterCacheContains(s: string, b: string)
    requires Separated(s, b) && b != "" && Trimmed(b) && Contains(b, AND_THEN)
    ensures AfterCache(s).Some? ==> Contains(AfterCache(s).value, AND_THEN)
  {
    SeparatedContains(s, b);
    var a :| HeadOf(a) && s == a + (AND_THEN + b);
    if Contains(a, AND_THEN) {
      CutInHead(a, b);
      var rest := Cut(s, AND_THEN).1;
      TrimKeeps(rest, b);
      SeparatedContains(TrimSpace(rest), b);
    } else {
      CutBetween(a, b);
      TrimSpaceOfTrimmed(b);
    }
  }

  // ----- the default policy -----

  lemma {:induction false} VariantsHold(commands: seq<string>, limit: int, review: string)
    requires review in commands
    ensures SandboxExecCommand(CONTAINER, review) in Variants(commands, limit)
    ensures BoundedSandboxCommand(review, limit) in Variants(commands, limit)
    ensures BoundedSandboxCommand(SandboxExecCommand(CONTAINER, review), limit) in Variants(commands, limit)
  {
    LastSplits(commands);
    if review != commands[|commands| - 1] {
      VariantsHold(commands[..|commands| - 1], limit, review);
    }
  }

  /** The bounded command of every runtime, review command and limit is on the allowlist for that limit. */
  lemma ListHolds(runtime: string, review: string, limit: int)
    requires review in AllowedReviewCommands(true)
    ensures BoundedSandboxCommand(SandboxExecCommand(runtime, review), limit) in DefaultCommands(limit)
  {
    VariantsHold(AllowedReviewCommands(true), limit, review);
  }

  /** The bounded workspace command is always allowed. */
  lemma WorkspaceAlwaysAllowed(runtime: string, review: string, limit: int)
    requires review in AllowedReviewCommands(true)
    ensures DefaultPolicy(WorkspaceRequest(runtime, review, limit), limit) == Permit(ALLOW, "")
  {
    ListHolds(runtime, review, limit);
    var c := BoundedSandboxCommand(SandboxExecCommand(runtime, review), limit);
    var i :| 0 <= i < |DefaultCommands(limit)| && DefaultCommands(limit)[i] == c;
    assert TrimSpace(DefaultCommands(limit)[i]) == TrimSpace(c);
  }

  lemma CodeTrimmed(a: string, b: string)
    requires a != "" && b != "" && !IsSpace(a[0]) && !IsSpace(b[|b| - 1])
    ensures TrimSpace(a + (AND_THEN + b)) == a + (AND_THEN + b)
  {
    var code := a + (AND_THEN + b);
    assert code[0] == a[0] && code[|code| - 1] == b[|b| - 1];
    TrimSpaceOfTrimmed(code);
  }

  lemma MemberStands(code: string, command: string, commands: seq<string>)
    requires command in commands && StandsFor(code, command)
    ensures SomeStandsFor(code, commands)
  {
    var i :| 0 <= i < |commands| && commands[i] == command;
  }

  lemma NoneStands(path: string, cache: string, command: string, commands: seq<string>)
    requires NoAmp(cache) && NoSeparator(commands) && command != "" && Trimmed(command) && Contains(path, AND_THEN)
    ensures !SomeStandsFor(ChangeDir(path) + (AND_THEN + CacheThen(cache, command)), commands)
  {
    forall i | 0 <= i < |commands|
      ensures !StandsFor(ChangeDir(path) + (AND_THEN + CacheThen(cache, command)), commands[i])
    {
      CodeRejected(path, cache, command, commands[i]);
    }
  }

  lemma FirstLast(a: string, b: string)
    requires a != "" && b != ""
    ensures a + b != "" && (a + b)[0] == a[0] && (a + b)[|a + b| - 1] == b[|b| - 1]
  {}

  lemma CodeParts(path: string, cache: string, command: string)
    requires command != "" && Trimmed(command)
    ensures ChangeDir(path) != "" && !IsSpace(ChangeDir(path)[0])
    ensures CacheThen(cache, command) != "" && !IsSpace(CacheThen(cache, command)[|CacheThen(cache, command)| - 1])
  {
    FirstLast(CD, ShellQuote(path));
    FirstLast(AND_THEN, command);
    FirstLast(EXPORT + ShellQuote(cache), AND_THEN + command);
  }

  lemma FallbackStands(path: string, cache: string, command: string, commands: seq<string>,
                       code: string)
    requires NoAmp(cache) && command in commands && NoSeparator(commands) && command != "" && Trimmed(command)
    requires code == ChangeDir(path) + (AND_THEN + CacheThen(cache, command))
    ensures TrimSpace(code) == code && (SomeStandsFor(code, commands) <==> !Contains(path, AND_THEN))
  {
    CodeParts(path, cache, command);
    CodeTrimmed(ChangeDir(path), CacheThen(cache, command));
    if Contains(path, AND_THEN) {
      NoneStands(path, cache, command, commands);
    } else {
      CodeAccepted(path, cache, command);
      MemberStands(code, command, commands);
    }
  }

  lemma CodeAnswer(code: string, skill: string, commands: seq<string>)
    ensures Policy(Some(ToolCall(ExecuteCode, Arguments("", [code]))), skill, commands)
         == if SomeStandsFor(TrimSpace(code), commands) then Permit(ALLOW, "") else AskHuman
  {}

  lemma CodePolicy(r: Request, code: string, commands: seq<string>, limit: int)
    requires r.CodeRequest? && code == CommandText(r) && commands == DefaultCommands(limit)
    ensures DefaultPolicy(r, limit) == if SomeStandsFor(TrimSpace(code), commands) then Permit(ALLOW, "") else AskHuman
  {
    CodeAnswer(code, SKILL_COMMAND, commands);
  }

  lemma FallbackDecided(r: Request, limit: int, path: string, command: string,
                        commands: seq<string>, code: string)
    requires r.CodeRequest? && code == CommandText(r) && commands == DefaultCommands(limit)
    requires command in commands && NoSeparator(commands) && command != "" && Trimmed(command)
    requires code == ChangeDir(path) + (AND_THEN + CacheThen(GO_CACHE, command))
    ensures DefaultPolicy(r, limit) == if Contains(path, AND_THEN) then AskHuman else Permit(ALLOW, "")
  {
    CacheNoAmp();
    FallbackStands(path, GO_CACHE, command, commands, code);
    CodePolicy(r, code, commands, limit);
  }

  lemma CodeTextIs(r: Request, command: string)
    requires r.CodeRequest? && command == BoundedSandboxCommand(SandboxExecCommand(r.runtime, r.review), r.limit)
    ensures CommandText(r)
         == ChangeDir(SandboxRepoPath(r.runtime, r.repoPath)) + (AND_THEN + CacheThen(GO_CACHE, command))
  {
    CodeIs(r.runtime, r.repoPath, command);
  }

  lemma FallbackAllowedFor(r: Request, command: string)
    requires r.CodeRequest? && command == BoundedSandboxCommand(SandboxExecCommand(r.runtime, r.review), r.limit)
    requires command in DefaultCommands(r.limit) && NoSeparator(DefaultCommands(r.limit))
    requires command != "" && Trimmed(command)
    ensures DefaultPolicy(r, r.limit)
         == if Contains(SandboxRepoPath(r.runtime, r.repoPath), AND_THEN) then AskHuman else Permit(ALLOW, "")
  {
    CodeTextIs(r, command);
    FallbackDecided(r, r.limit, SandboxRepoPath(r.runtime, r.repoPath), command, DefaultCommands(r.limit),
                    CommandText(r));
  }

  /** For every runtime, review command, limit and repository, the gate allows the generated fallback code exactly
      when the path the sandbox sees has no separator in it. */
  lemma FallbackAllowedExactly(runtime: string, hostRepoPath: string, review: string, limit: int)
    requires review in AllowedReviewCommands(true)
    ensures DefaultPolicy(CodeRequest(runtime, hostRepoPath, review, limit), limit)
         == if Contains(SandboxRepoPath(runtime, hostRepoPath), AND_THEN) then AskHuman else Permit(ALLOW, "")
  {
    ListHolds(runtime, review, limit);
    ListNoSeparator(limit);
    ExecTame(runtime, review);
    BoundedTrimmed(SandboxExecCommand(runtime, review), limit);
    FallbackAllowedFor(CodeRequest(runtime, hostRepoPath, review, limit),
                       BoundedSandboxCommand(SandboxExecCommand(runtime, review), limit));
  }

  lemma SkillAllowed(stdin: string, limit: int)
    ensures DefaultPolicy(SkillRequest(stdin), limit) == Permit(ALLOW, "")
  {
    assert SKILL_COMMAND[0] == 's' && SKILL_COMMAND[|SKILL_COMMAND| - 1] == 'h';
    TrimSpaceOfTrimmed(SKILL_COMMAND);
  }

  /** Every check of a log was answered by the default policy. */
  predicate AnsweredByDefault(trace: seq<Event>, limit: int) {
    forall i :: 0 <= i < |trace| && trace[i].Checked? ==> trace[i].answer == DefaultPolicy(trace[i].request, limit)
  }

  /** Under the default policy a loaded Skill is always called. */
  lemma DefaultPolicyRunsSkill(diff: string, limit: int, trace: seq<Event>)
    requires SkillTrace(diff, None, trace) && AnsweredByDefault(trace, limit)
    ensures |trace| == 3 && IsCall(trace[2], SkillRequest(diff))
  {
    SkillAllowed(diff, limit);
    assert trace[1].answer == DefaultPolicy(trace[1].request, limit);
  }

  lemma LastStep(cfg: Config, repoPath: string, commands: seq<string>, trace: seq<Event>)
    returns (k: nat)
    requires GoTraces(cfg, repoPath, commands, trace) && commands != []
    ensures k < |trace|
    ensures GoTrace(WorkspaceOf(cfg, commands[|commands| - 1]), CodeOf(cfg, repoPath, commands[|commands| - 1]),
                    trace[k..])
  {
    var last := commands[|commands| - 1];
    k :| 0 <= k <= |trace| && GoTraces(cfg, repoPath, commands[..|commands| - 1], trace[..k])
         && GoTrace(WorkspaceOf(cfg, last), CodeOf(cfg, repoPath, last), trace[k..]);
  }

  lemma AllowedStep(w: Request, c: Request, trace: seq<Event>, k: nat)
    requires k < |trace| && GoTrace(w, c, trace[k..]) && w.WorkspaceRequest? && Allows(trace[k].answer)
    ensures GoAllowed(trace)
  {
    assert trace[k..][0] == trace[k];
    AllowedAt(trace, k);
  }

  lemma AllowedAt(trace: seq<Event>, k: nat)
    requires k < |trace| && trace[k].Checked? && trace[k].request.WorkspaceRequest? && Allows(trace[k].answer)
    ensures GoAllowed(trace)
  {
    GoFactsStart("", trace[k]);
    GoAllowedConcat([trace[k]], trace[k + 1..]);
    GoAllowedConcat(trace[..k], [trace[k]] + trace[k + 1..]);
    Surrounded(trace, k);
  }

  lemma Surrounded(trace: seq<Event>, k: nat)
    requires k < |trace|
    ensures trace == trace[..k] + ([trace[k]] + trace[k + 1..])
  {}

  lemma AnsweredAt(w: Request, c: Request, trace: seq<Event>, k: nat, limit: int)
    requires k < |trace| && GoTrace(w, c, trace[k..]) && AnsweredByDefault(trace, limit)
    ensures trace[k].Checked? && trace[k].answer == DefaultPolicy(w, limit)
  {
    assert trace[k..][0] == trace[k];
  }

  /** Under the default policy Go checks that are attempted do execute. */
  lemma DefaultPolicyExecutes(cfg: Config, repoPath: string, commands: seq<string>,
                              trace: seq<Event>)
    requires GoTraces(cfg, repoPath, commands, trace) && AnsweredByDefault(trace, cfg.outputLimit)
    requires commands != [] && commands[|commands| - 1] in AllowedReviewCommands(true)
    ensures GoAllowed(trace)
  {
    var last := commands[|commands| - 1];
    var k := LastStep(cfg, repoPath, commands, trace);
    AnsweredAt(WorkspaceOf(cfg, last), CodeOf(cfg, repoPath, last), trace, k, cfg.outputLimit);
    WorkspaceAlwaysAllowed(cfg.runtime, last, cfg.outputLimit);
    AllowedStep(WorkspaceOf(cfg, last), CodeOf(cfg, repoPath, last), trace, k);
  }
}
