/** The gate's answer to every request, told by the texts of request and allowlist. */
module GateMeaning {
  import opened Wrappers
  import opened Text
  import opened Commands
  import opened Governance
  import opened Gate

  /** A command is on the list when one of it is the same but for outer white space. */
  ghost predicate OnList(command: string, commands: seq<string>) {
    exists x, i :: 0 <= i < |commands| && IsTrimOf(x, command) && IsTrimOf(x, commands[i])
  }

  lemma OnListIs(command: string, commands: seq<string>)
    ensures OnList(command, commands) <==> CommandAllowed(TrimSpace(command), commands)
  {
    TrimExactly(command, TrimSpace(command));
    forall x, i | 0 <= i < |commands|
      ensures IsTrimOf(x, command) <==> x == TrimSpace(command)
      ensures IsTrimOf(x, commands[i]) <==> x == TrimSpace(commands[i])
    {
      TrimExactly(command, x);
      TrimExactly(commands[i], x);
    }
  }

  /** The text is a, the first separator, and b. */
  predicate CutsAt(s: string, sep: string, a: string, b: string) {
    s == a + sep + b && forall k :: 0 <= k < |a| ==> !OccursAt(s, sep, k)
  }

  lemma CutIs(s: string, sep: string, a: string, b: string)
    ensures CutsAt(s, sep, a, b) <==> Cut(s, sep) == (a, b, true)
  {
    var i := Index(s, sep);
    if CutsAt(s, sep, a, b) {
      assert s[|a|..|a| + |sep|] == sep;
      assert OccursAt(s, sep, |a|);
      assert s[..|a|] == a && s[|a| + |sep|..] == b;
    }
    if Cut(s, sep) == (a, b, true) {
      assert s[i..i + |sep|] == sep;
      assert s == s[..i] + s[i..i + |sep|] + s[i + |sep|..];
    }
  }

  /** What may follow the change of directory: the command, perhaps after the cache is set. */
  ghost predicate Follows(suffix: string, command: string) {
    if "export GOCACHE=" <= suffix
    then exists cache, rest :: CutsAt(suffix, " && ", cache, rest) && IsTrimOf(command, rest)
    else suffix == command
  }

  /** Code for a command: the command itself, or a change of directory and then the command, perhaps after the cache
      is set. */
  ghost predicate CodeFor(code: string, command: string) {
    || code == command
    || exists prefix, suffix, x :: BehindChange(code, command, prefix, suffix, x)
  }

  ghost predicate BehindChange(code: string, command: string, prefix: string, suffix: string, x: string) {
    CutsAt(code, " && ", prefix, suffix) && "cd " <= TrimSpace(prefix) && IsTrimOf(x, suffix) && Follows(x, command)
  }

  lemma FollowsIs(suffix: string, command: string)
    ensures Follows(suffix, command) <==> AfterCache(suffix) == Some(command)
  {
    forall cache, rest
      ensures CutsAt(suffix, " && ", cache, rest) <==> Cut(suffix, " && ") == (cache, rest, true)
      ensures IsTrimOf(command, rest) <==> command == TrimSpace(rest)
    {
      CutIs(suffix, " && ", cache, rest);
      TrimExactly(rest, command);
    }
  }

  lemma BehindChangeIs(code: string, command: string, prefix: string, suffix: string, x: string)
    ensures BehindChange(code, command, prefix, suffix, x)
       <==> Cut(code, " && ") == (prefix, suffix, true) && "cd " <= TrimSpace(prefix)
            && x == TrimSpace(suffix) && AfterCache(x) == Some(command)
  {
    CutIs(code, " && ", prefix, suffix);
    TrimExactly(suffix, x);
    FollowsIs(x, command);
  }

  lemma CodeForIs(code: string, command: string)
    ensures CodeFor(code, command) <==> StandsFor(code, command)
  {
    var (prefix, suffix, ok) := Cut(code, " && ");
    BehindChangeIs(code, command, prefix, suffix, TrimSpace(suffix));
    forall p, q, x
      ensures BehindChange(code, command, p, q, x) ==> StandsFor(code, command)
    {
      BehindChangeIs(code, command, p, q, x);
    }
  }

  ghost predicate CodeListed(code: string, commands: seq<string>) {
    exists i :: 0 <= i < |commands| && CodeFor(code, commands[i])
  }

  lemma CodeListedIs(code: string, commands: seq<string>)
    ensures CodeListed(code, commands) <==> SomeStandsFor(code, commands)
  {
    forall i | 0 <= i < |commands|
      ensures CodeFor(code, commands[i]) <==> StandsFor(code, commands[i])
    {
      CodeForIs(code, commands[i]);
    }
  }

  /** The Skill may run its own command, the workspace a command on the list, and code its one block if that stands for
      a listed command; nothing else may run. */
  ghost predicate MayRun(call: ToolCall, skillCommand: string, commands: seq<string>) {
    && call.arguments.Arguments?
    && match call.tool
       case SkillRun => IsTrimOf(skillCommand, call.arguments.command)
       case WorkspaceExec => OnList(call.arguments.command, commands)
       case ExecuteCode =>
         |call.arguments.codeBlocks| == 1 && CodeListed(TrimSpace(call.arguments.codeBlocks[0]), commands)
       case OtherTool => false
  }

  /** The policy's answer to every request: a missing one is denied, one that may run is allowed, and a human is asked
      about all the rest. */
  lemma PolicyExactly(call: Option<ToolCall>, skillCommand: string, commands: seq<string>)
    ensures Policy(call, skillCommand, commands)
         == if call.None? then Permit("deny", "missing permission request")
            else if MayRun(call.value, skillCommand, commands) then Permit("allow", "")
            else Permit("ask", "unrecognized tool command requires human review")
  {
    if call.Some? && call.value.arguments.Arguments? {
      TrimExactly(call.value.arguments.command, skillCommand);
      OnListIs(call.value.arguments.command, commands);
      if |call.value.arguments.codeBlocks| == 1 {
        CodeListedIs(TrimSpace(call.value.arguments.codeBlocks[0]), commands);
      }
    }
  }
}
