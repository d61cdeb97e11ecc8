/** The checks of a run: the Skill, then the Go commands in the sandbox; or a dry run; or an unsupported
    runtime. Each method returns, beside its records, the part of the log it wrote. */
module ReviewChecks {
  import opened Wrappers
  import opened Text
  import opened Findings
  import opened ModelReview
  import opened ToolLists
  import opened Records
  import opened ReviewResult
  import opened Commands
  import opened Governance

  lemma LogSnoc(taskId: string, log: seq<Event>, e: Event)
    ensures DutyOf(log + [e]) == After(DutyOf(log), e)
    ensures GoAllowed(log + [e])
       <==> GoAllowed(log) || (e.Checked? && e.request.WorkspaceRequest? && Allows(e.answer))
    ensures DecisionsOf(taskId, log + [e])
         == DecisionsOf(taskId, log)
            + if !e.Checked? || (e.answer.Broken? && e.request.SkillRequest?) then []
              else [RecordOf(taskId, e.request, e.answer, e.at)]
  {
    assert (log + [e])[..|log|] == log;
  }

  // ----- one Go check -----

  function WorkspaceOf(cfg: Config, command: string): Request {
    WorkspaceRequest(cfg.runtime, command, cfg.outputLimit)
  }

  function CodeOf(cfg: Config, repoPath: string, command: string): Request {
    CodeRequest(cfg.runtime, repoPath, command, cfg.outputLimit)
  }

  const CODE_ERROR := "Error executing code block"

  function ReportedExit(o: CommandOutput): int {
    if o.exitCode.Some? then o.exitCode.value else 0
  }

  /** The executor's own status is taken over when it is unusual and there is no exit code. */
  predicate OwnStatus(o: CommandOutput) {
    o.status != "" && o.status != "exited" && o.exitCode.None?
  }

  predicate CommandFails(o: CommandOutput) {
    ReportedExit(o) != 0 || Contains(o.text, CODE_ERROR)
  }

  /** What the last event of a Go check makes of its run record. */
  function Ended(cfg: Config, run: SandboxRun, last: Event): SandboxRun {
    match last
    case Loaded => run
    case Checked(_, answer, _) => run.(status := Permission(answer).action)
    case Called(_, outcome) => Finished(cfg, run, outcome)
  }

  function Beginning(cfg: Config, taskId: string, command: string, started: bool, at: int, durationMs: int): SandboxRun
  {
    NoRun.(taskId := taskId, command := command, runtime := cfg.runtime, timeoutMs := cfg.timeoutMs,
           outputLimit := cfg.outputLimit, envWhitelist := ENV_WHITELIST, at := at, durationMs := durationMs,
           executionStarted := started)
  }

  predicate IsCheck(e: Event, request: Request, allowed: bool) {
    e.Checked? && e.request == request && Allows(e.answer) == allowed
  }

  predicate IsCall(e: Event, request: Request) {
    e.Called? && e.request == request
  }

  /** A Go check: the workspace request w; if its call fails, the code request c in its place. */
  predicate GoTrace(w: Request, c: Request, trace: seq<Event>) {
    || (|trace| == 1 && IsCheck(trace[0], w, false))
    || (|trace| == 2 && IsCheck(trace[0], w, true) && IsCall(trace[1], w) && trace[1].outcome.Raw?)
    || (|trace| == 3 && IsCheck(trace[0], w, true) && IsCall(trace[1], w) && trace[1].outcome.Failed?
        && IsCheck(trace[2], c, false))
    || (|trace| == 4 && IsCheck(trace[0], w, true) && IsCall(trace[1], w) && trace[1].outcome.Failed?
        && IsCheck(trace[2], c, true) && IsCall(trace[3], c))
  }

  /** What the steps of a Go check come to. */
  predicate GoFacts(taskId: string, trace: seq<Event>, decisions: seq<Decision>) {
    && Governed(trace) && decisions == DecisionsOf(taskId, trace)
    && trace != [] && trace[0].Checked? && (GoAllowed(trace) <==> Allows(trace[0].answer))
    && decisions != [] && decisions[0] == RecordOf(taskId, trace[0].request, trace[0].answer, trace[0].at)
    && forall d :: d in decisions ==> d.command == CommandOf(trace[0].request)
  }

  lemma GoFactsStart(taskId: string, w: Event)
    requires w.Checked? && w.request.WorkspaceRequest?
    ensures DutyOf([w]) == (if Allows(w.answer) then Owes(w.request) else Clear)
    ensures DecisionsOf(taskId, [w]) == [RecordOf(taskId, w.request, w.answer, w.at)]
    ensures GoAllowed([w]) <==> Allows(w.answer)
  {
    LogSnoc(taskId, [], w);
    assert [] + [w] == [w];
  }

  lemma GoFactsCalled(taskId: string, w: Event, call: Event)
    requires w.Checked? && w.request.WorkspaceRequest? && Allows(w.answer) && IsCall(call, w.request)
    ensures GoFacts(taskId, [w, call], [RecordOf(taskId, w.request, w.answer, w.at)])
  {
    GoFactsStart(taskId, w);
    LogSnoc(taskId, [w], call);
    assert [w] + [call] == [w, call];
    ConcatNil(DecisionsOf(taskId, [w]));
  }

  lemma GoFactsSecond(taskId: string, w: Event, call: Event, c: Event)
    requires w.Checked? && w.request.WorkspaceRequest? && Allows(w.answer) && IsCall(call, w.request)
    requires c.Checked? && c.request.CodeRequest? && CommandOf(c.request) == CommandOf(w.request)
    ensures DutyOf([w, call, c]) == (if Allows(c.answer) then Owes(c.request) else Clear)
    ensures GoAllowed([w, call, c])
    ensures DecisionsOf(taskId, [w, call, c])
         == [RecordOf(taskId, w.request, w.answer, w.at), RecordOf(taskId, c.request, c.answer, c.at)]
  {
    GoFactsCalled(taskId, w, call);
    LogSnoc(taskId, [w, call], c);
    assert [w, call] + [c] == [w, call, c];
  }

  lemma GoFactsLast(taskId: string, w: Event, call: Event, c: Event, last: Event)
    requires w.Checked? && w.request.WorkspaceRequest? && Allows(w.answer) && IsCall(call, w.request)
    requires c.Checked? && c.request.CodeRequest? && CommandOf(c.request) == CommandOf(w.request)
    requires Allows(c.answer) && IsCall(last, c.request)
    ensures GoFacts(taskId, [w, call, c, last],
                    [RecordOf(taskId, w.request, w.answer, w.at), RecordOf(taskId, c.request, c.answer, c.at)])
  {
    GoFactsSecond(taskId, w, call, c);
    LogSnoc(taskId, [w, call, c], last);
    assert [w, call, c] + [last] == [w, call, c, last];
    ConcatNil(DecisionsOf(taskId, [w, call, c]));
  }

  method RunGoSandboxCommand(env: Environment, cfg: Config, taskId: string, repoPath: string, command: string)
    returns (decisions: seq<Decision>, run: SandboxRun, ghost trace: seq<Event>)
    modifies env
    ensures env.log == old(env.log) + trace
    ensures GoTrace(WorkspaceOf(cfg, command), CodeOf(cfg, repoPath, command), trace)
    ensures GoFacts(taskId, trace, decisions)
    ensures env.ticks >= old(env.ticks) + 2
    ensures run == Ended(cfg, Beginning(cfg, taskId, command, decisions[0].action == ALLOW,
                                        env.clock(old(env.ticks) + 1),
                                        if decisions[0].action == ALLOW
                                        then env.clock(env.ticks - 1) - env.clock(old(env.ticks) + 2) else 0),
                         trace[|trace| - 1])
  {
    var request := WorkspaceOf(cfg, command);
    var answer, at := env.Check(request);
    ghost var first := Checked(request, answer, at);
    GoFactsStart(taskId, first);
    trace := [first];
    var perm := Permission(answer);
    var decision := Decision(taskId, command, perm.action, perm.reason, at);
    decisions := [decision];
    var now := env.Now();
    AllowIsNotDeny();
    if perm.action != ALLOW {
      run := Beginning(cfg, taskId, command, false, now, 0).(status := perm.action);
      return;
    }
    ghost var tail;
    decisions, run, tail := RunAllowed(env, cfg, taskId, repoPath, command, decision, now, first);
    ConcatAssoc(old(env.log), [first], tail);
    trace := [first] + tail;
  }

  /** The rest of a Go check whose workspace request was allowed. */
  method RunAllowed(env: Environment, cfg: Config, taskId: string, repoPath: string, command: string,
                    decision: Decision, at: int, ghost first: Event)
    returns (decisions: seq<Decision>, run: SandboxRun, ghost tail: seq<Event>)
    requires IsCheck(first, WorkspaceOf(cfg, command), true)
    requires decision == RecordOf(taskId, first.request, first.answer, first.at)
    modifies env
    ensures env.log == old(env.log) + tail && tail != [] && env.ticks >= old(env.ticks) + 2
    ensures GoTrace(WorkspaceOf(cfg, command), CodeOf(cfg, repoPath, command), [first] + tail)
    ensures GoFacts(taskId, [first] + tail, decisions)
    ensures run == Ended(cfg, Beginning(cfg, taskId, command, true, at,
                                        env.clock(env.ticks - 1) - env.clock(old(env.ticks))),
                         tail[|tail| - 1])
  {
    var request := WorkspaceOf(cfg, command);
    var start := env.Now();
    var outcome := env.Call(request);
    ghost var called := Called(request, outcome);
    GoFactsCalled(taskId, first, called);
    if outcome.Failed? {
      ghost var more;
      decisions, run, more := RunFallback(env, cfg, taskId, repoPath, command, decision, at, start, first, called);
      JoinTrail(old(env.log), first, called, more);
      tail := [called] + more;
      return;
    }
    decisions, tail := [decision], [called];
    assert [first] + tail == [first, called];
    var end := env.Now();
    run := ReadOutcome(cfg, Beginning(cfg, taskId, command, true, at, end - start), outcome);
  }

  lemma JoinTrail(log: seq<Event>, first: Event, called: Event, more: seq<Event>)
    requires more != []
    ensures var tail := [called] + more;
            && log + [called] + more == log + tail && [first, called] + more == [first] + tail
            && tail[|tail| - 1] == more[|more| - 1]
  {}

  /** The rest of a Go check whose workspace call failed. */
  method RunFallback(env: Environment, cfg: Config, taskId: string, repoPath: string, command: string,
                     decision: Decision, at: int, start: int, ghost first: Event, ghost called: Event)
    returns (decisions: seq<Decision>, run: SandboxRun, ghost tail: seq<Event>)
    requires IsCheck(first, WorkspaceOf(cfg, command), true) && IsCall(called, first.request) && called.outcome.Failed?
    requires decision == RecordOf(taskId, first.request, first.answer, first.at)
    modifies env
    ensures env.log == old(env.log) + tail && tail != [] && env.ticks >= old(env.ticks) + 1
    ensures GoTrace(WorkspaceOf(cfg, command), CodeOf(cfg, repoPath, command), [first, called] + tail)
    ensures GoFacts(taskId, [first, called] + tail, decisions)
    ensures run == Ended(cfg, Beginning(cfg, taskId, command, true, at, env.clock(env.ticks - 1) - start),
                         tail[|tail| - 1])
  {
    var second, again;
    second, again, tail := AskFallback(env, cfg, taskId, repoPath, command, first, called);
    decisions := [decision, second];
    var end := env.Now();
    var started := Beginning(cfg, taskId, command, true, at, end - start);
    if again.None? {
      run := started.(status := second.action);
    } else {
      run := ReadOutcome(cfg, started, again.value);
    }
  }

  /** The code request in the place of a failed workspace call: its decision, and its outcome if it was allowed. */
  method AskFallback(env: Environment, cfg: Config, taskId: string, repoPath: string, command: string,
                     ghost first: Event, ghost called: Event)
    returns (second: Decision, again: Option<Outcome>, ghost tail: seq<Event>)
    requires IsCheck(first, WorkspaceOf(cfg, command), true) && IsCall(called, first.request) && called.outcome.Failed?
    modifies env
    ensures env.log == old(env.log) + tail && env.ticks > old(env.ticks)
    ensures GoTrace(WorkspaceOf(cfg, command), CodeOf(cfg, repoPath, command), [first, called] + tail)
    ensures GoFacts(taskId, [first, called] + tail,
                    [RecordOf(taskId, first.request, first.answer, first.at), second])
    ensures tail != [] && (again.Some? <==> second.action == ALLOW)
    ensures again.None? ==> tail[|tail| - 1].Checked? && Permission(tail[|tail| - 1].answer).action == second.action
    ensures again.Some? ==> tail[|tail| - 1] == Called(CodeOf(cfg, repoPath, command), again.value)
  {
    AllowIsNotDeny();
    var request := CodeOf(cfg, repoPath, command);
    var answer, at := env.Check(request);
    ghost var event := Checked(request, answer, at);
    tail := [event];
    assert [first, called] + tail == [first, called, event];
    GoFactsSecond(taskId, first, called, event);
    var perm := Permission(answer);
    second := Decision(taskId, command, perm.action, perm.reason, at);
    if perm.action != ALLOW {
      again := None;
      return;
    }
    var outcome := env.Call(request);
    again := Some(outcome);
    ghost var last := Called(request, outcome);
    GoFactsLast(taskId, first, called, event, last);
    ConcatAssoc(old(env.log), [event], [last]);
    tail := [event, last];
    assert [first, called] + tail == [first, called, event, last];
  }

  /** The record after the last call. */
  function Finished(cfg: Config, run: SandboxRun, outcome: Outcome): SandboxRun {
    match outcome
    case Failed(message, late) =>
      run.(status := if late then "timed_out" else "error", stderrDigest := cfg.digest(message))
    case Raw(value) =>
      var o := cfg.decodeCommand(value);
      run.(stdoutDigest := cfg.digest(o.text), output := cfg.clip(o.text, cfg.outputLimit),
           status := if OwnStatus(o) then o.status else if CommandFails(o) then "failed" else "ok",
           exitCode := if !OwnStatus(o) && CommandFails(o) && ReportedExit(o) == 0 then 1 else ReportedExit(o))
  }

  method ReadOutcome(cfg: Config, started: SandboxRun, outcome: Outcome) returns (run: SandboxRun)
    requires started.exitCode == 0
    ensures run == Finished(cfg, started, outcome)
  {
    run := started;
    if outcome.Failed? {
      if outcome.late {
        run := run.(status := "timed_out");
      } else {
        run := run.(status := "error");
      }
      run := run.(stderrDigest := cfg.digest(outcome.message));
      return;
    }
    var output := cfg.decodeCommand(outcome.value);
    run := started.(stdoutDigest := cfg.digest(output.text), output := cfg.clip(output.text, cfg.outputLimit));
    if output.exitCode.Some? {
      run := run.(exitCode := output.exitCode.value);
    }
    if output.status != "" && output.status != "exited" && output.exitCode.None? {
      run := run.(status := output.status);
      return;
    }
    if run.exitCode != 0 || Contains(output.text, CODE_ERROR) {
      run := run.(status := "failed");
      if run.exitCode == 0 {
        run := run.(exitCode := 1);
      }
      return;
    }
    run := run.(status := "ok");
  }

  /** An answer without a status of the executor's own, an exit code other than 0 or an error text. */
  predicate Clean(o: CommandOutput) {
    !OwnStatus(o) && (o.exitCode == None || o.exitCode == Some(0)) && !Contains(o.text, CODE_ERROR)
  }

  /** What a record tells of the call. A status of the executor's own is taken over, without an exit code. Otherwise
      the check is ok exactly when the answer is clean, and it is failed exactly when it has an exit code other than 0.
      So it counts among the failed runs exactly when the call failed, the answer was not clean, or its own status is
      a failing one. */
  lemma OutcomeMeans(cfg: Config, run: SandboxRun, outcome: Outcome)
    requires run.exitCode == 0
    ensures var r := Finished(cfg, run, outcome);
            match outcome
            case Failed(_, late) =>
              && Failing(r) && r.exitCode == 0 && (r.status == "timed_out" <==> late)
            case Raw(value) =>
              var o := cfg.decodeCommand(value);
              if OwnStatus(o) then r.status == o.status && r.exitCode == 0
              else && (r.status == "ok" <==> Clean(o)) && (r.status == "failed" <==> !Clean(o))
                   && (Failing(r) <==> !Clean(o)) && (r.exitCode != 0 <==> !Clean(o))
                   && (o.exitCode.Some? && o.exitCode.value != 0 ==> r.exitCode == o.exitCode.value)
  {
    assert |"ok"| == 2 && |"failed"| == 6 && |"error"| == 5 && |"timed_out"| == 9;
  }

  // ----- all Go checks -----

  ghost predicate GoTraces(cfg: Config, repoPath: string, commands: seq<string>, trace: seq<Event>)
    decreases |commands|
  {
    if commands == [] then trace == []
    else exists k :: 0 <= k <= |trace| && GoTraces(cfg, repoPath, commands[..|commands| - 1], trace[..k])
                     && GoTrace(WorkspaceOf(cfg, commands[|commands| - 1]),
                                CodeOf(cfg, repoPath, commands[|commands| - 1]), trace[k..])
  }

  lemma GoTracesSnoc(cfg: Config, repoPath: string, commands: seq<string>, command: string, a: seq<Event>,
                     b: seq<Event>)
    requires GoTraces(cfg, repoPath, commands, a)
    requires GoTrace(WorkspaceOf(cfg, command), CodeOf(cfg, repoPath, command), b)
    ensures GoTraces(cfg, repoPath, commands + [command], a + b)
  {
    assert (commands + [command])[..|commands|] == commands;
    assert (a + b)[..|a|] == a && (a + b)[|a|..] == b;
  }

  lemma StartedSnoc(runs: seq<SandboxRun>, run: SandboxRun)
    ensures Started(runs + [run]) <==> Started(runs) || (run.executionStarted && run.command != SKILL_COMMAND)
  {
    var all := runs + [run];
    if Started(all) {
      var i :| 0 <= i < |all| && all[i].executionStarted && all[i].command != SKILL_COMMAND;
      assert i < |runs| ==> all[i] == runs[i];
    }
    if Started(runs) {
      var i :| 0 <= i < |runs| && runs[i].executionStarted && runs[i].command != SKILL_COMMAND;
      assert all[i] == runs[i];
    }
    assert all[|runs|] == run;
  }

  lemma GoCommands(enableStaticcheck: bool, i: nat)
    requires i < |AllowedReviewCommands(enableStaticcheck)|
    ensures AllowedReviewCommands(enableStaticcheck)[i] != SKILL_COMMAND
    ensures AllowedReviewCommands(enableStaticcheck)[i] != ""
  {
    assert SKILL_COMMAND[1] == 'c' && GO_TEST[1] == 'o' && GO_VET[1] == 'o' && STATICCHECK[1] == 't';
  }

  predicate DecisionsCarry(taskId: string, ds: seq<Decision>) {
    forall d :: d in ds ==> ZeroDecision(d) || d.taskId == taskId
  }

  predicate RunsCarry(taskId: string, runs: seq<SandboxRun>) {
    forall r :: r in runs ==> ZeroRun(r) || r.taskId == taskId
  }

  lemma {:induction false} RecordsCarry(taskId: string, log: seq<Event>)
    ensures DecisionsCarry(taskId, DecisionsOf(taskId, log))
  {
    if log != [] {
      RecordsCarry(taskId, log[..|log| - 1]);
    }
  }

  predicate AllNonZero(ds: seq<Decision>) {
    forall d :: d in ds ==> !ZeroDecision(d)
  }

  lemma {:induction false} NonZeroAll(ds: seq<Decision>)
    requires AllNonZero(ds)
    ensures NonZero(ds) == ds
  {
    if ds != [] {
      NonZeroAll(ds[..|ds| - 1]);
      LastSplits(ds);
    }
  }

  lemma {:induction false} NonZeroConcat(a: seq<Decision>, b: seq<Decision>)
    ensures NonZero(a + b) == NonZero(a) + NonZero(b)
  {
    if b == [] {
      ConcatNil(a);
      ConcatNil(NonZero(a));
    } else {
      assert (a + b)[..|a + b| - 1] == a + b[..|b| - 1];
      NonZeroConcat(a, b[..|b| - 1]);
      ConcatAssoc(NonZero(a), NonZero(b[..|b| - 1]), if ZeroDecision(b[|b| - 1]) then [] else [b[|b| - 1]]);
    }
  }

  lemma NonZeroOne(d: Decision)
    ensures NonZero([d]) == if ZeroDecision(d) then [] else [d]
  {
    assert [d][..0] == [];
  }

  predicate CommandsMatch(runs: seq<SandboxRun>, commands: seq<string>) {
    |runs| == |commands| && forall i :: 0 <= i < |runs| ==> runs[i].command == commands[i]
  }

  ghost predicate GoChecks(cfg: Config, taskId: string, repoPath: string, commands: seq<string>,
                           decisions: seq<Decision>, runs: seq<SandboxRun>, trace: seq<Event>) {
    && GoTraces(cfg, repoPath, commands, trace) && Governed(trace)
    && decisions == DecisionsOf(taskId, trace) && AllNonZero(decisions)
    && CommandsMatch(runs, commands) && RunsCarry(taskId, runs)
    && (Started(runs) <==> GoAllowed(trace))
  }

  lemma GoStart(cfg: Config, taskId: string, repoPath: string)
    ensures GoChecks(cfg, taskId, repoPath, [], [], [], [])
  {}

  lemma EndedKeeps(cfg: Config, run: SandboxRun, last: Event)
    ensures var r := Ended(cfg, run, last);
            r.taskId == run.taskId && r.command == run.command && r.executionStarted == run.executionStarted
  {}

  lemma GoRunIs(cfg: Config, taskId: string, command: string, run: SandboxRun, step: seq<Event>, some: seq<Decision>,
                at: int, durationMs: int)
    requires GoFacts(taskId, step, some)
    requires run == Ended(cfg, Beginning(cfg, taskId, command, some[0].action == ALLOW, at, durationMs),
                          step[|step| - 1])
    ensures run.taskId == taskId && run.command == command && (run.executionStarted <==> GoAllowed(step))
  {
    EndedKeeps(cfg, Beginning(cfg, taskId, command, some[0].action == ALLOW, at, durationMs), step[|step| - 1]);
    AllowIsNotDeny();
  }

  lemma GoStep(cfg: Config, taskId: string, repoPath: string, commands: seq<string>, command: string,
               decisions: seq<Decision>, runs: seq<SandboxRun>, trace: seq<Event>,
               some: seq<Decision>, run: SandboxRun, step: seq<Event>)
    requires GoChecks(cfg, taskId, repoPath, commands, decisions, runs, trace)
    requires command != SKILL_COMMAND && command != ""
    requires GoTrace(WorkspaceOf(cfg, command), CodeOf(cfg, repoPath, command), step) && GoFacts(taskId, step, some)
    requires run.taskId == taskId && run.command == command
    requires run.executionStarted <==> GoAllowed(step)
    ensures GoChecks(cfg, taskId, repoPath, commands + [command], decisions + some, runs + [run], trace + step)
  {
    GoTracesSnoc(cfg, repoPath, commands, command, trace, step);
    DutyConcat(trace, step);
    DecisionsConcat(taskId, trace, step);
    GoAllowedConcat(trace, step);
    StartedSnoc(runs, run);
  }

  /** A Go check as the loop over the commands sees it. */
  method CheckReviewed(env: Environment, cfg: Config, taskId: string, repoPath: string, command: string)
    returns (decisions: seq<Decision>, run: SandboxRun, ghost step: seq<Event>)
    modifies env
    ensures env.log == old(env.log) + step
    ensures GoTrace(WorkspaceOf(cfg, command), CodeOf(cfg, repoPath, command), step) && GoFacts(taskId, step, decisions)
    ensures run.taskId == taskId && run.command == command && (run.executionStarted <==> GoAllowed(step))
  {
    ghost var from := env.ticks;
    decisions, run, step := RunGoSandboxCommand(env, cfg, taskId, repoPath, command);
    GoRunIs(cfg, taskId, command, run, step, decisions, env.clock(from + 1),
            if decisions[0].action == ALLOW then env.clock(env.ticks - 1) - env.clock(from + 2) else 0);
  }

  method RunGoSandboxChecks(env: Environment, cfg: Config, taskId: string, repoPath: string)
    returns (decisions: seq<Decision>, runs: seq<SandboxRun>, ghost trace: seq<Event>)
    modifies env
    ensures env.log == old(env.log) + trace
    ensures GoChecks(cfg, taskId, repoPath, AllowedReviewCommands(cfg.enableStaticcheck), decisions, runs, trace)
  {
    var commands := AllowedReviewCommands(cfg.enableStaticcheck);
    decisions, runs, trace := [], [], [];
    GoStart(cfg, taskId, repoPath);
    assert commands[..0] == [];
    ConcatNil(env.log);
    for i := 0 to |commands|
      invariant env.log == old(env.log) + trace
      invariant GoChecks(cfg, taskId, repoPath, commands[..i], decisions, runs, trace)
    {
      var some, run, step := CheckReviewed(env, cfg, taskId, repoPath, commands[i]);
      assert commands[..i + 1] == commands[..i] + [commands[i]];
      GoCommands(cfg.enableStaticcheck, i);
      GoStep(cfg, taskId, repoPath, commands[..i], commands[i], decisions, runs, trace, some, run, step);
      ConcatAssoc(old(env.log), trace, step);
      decisions := decisions + some;
      runs := runs + [run];
      trace := trace + step;
    }
    assert commands[..|commands|] == commands;
  }

  // ----- the Skill -----

  const NoLists := Lists([], [])

  /** Findings and warnings of the Skill's output, sanitised and deduplicated. */
  function Parsed(redact: Redactor, payload: Lists): Lists {
    Lists(Dedupe(SanitizeAll(redact, payload.findings)), Dedupe(SanitizeAll(redact, payload.warnings)))
  }

  method SanitizeInPlace(redact: Redactor, items: seq<Finding>) returns (out: seq<Finding>)
    ensures out == SanitizeAll(redact, items)
  {
    out := items;
    for i := 0 to |items|
      invariant out == SanitizeAll(redact, items[..i]) + items[i..]
    {
      SanitizeStep(redact, items, i);
      out := out[i := Sanitize(redact, out[i])];
    }
    assert items[..|items|] == items;
    ConcatNil(SanitizeAll(redact, items));
  }

  lemma SanitizeStep(redact: Redactor, items: seq<Finding>, i: nat)
    requires i < |items|
    ensures var out := SanitizeAll(redact, items[..i]) + items[i..];
            && i < |out| && out[i] == items[i]
            && out[i := Sanitize(redact, items[i])] == SanitizeAll(redact, items[..i + 1]) + items[i + 1..]
  {
    assert items[..i + 1][..i] == items[..i];
    SanitizedLength(redact, items[..i]);
  }

  method ParseSkillFindings(cfg: Config, stdout: string) returns (r: Result<Lists>)
    ensures r == match cfg.decodeFindings(TrimSpace(stdout))
                 case Err(message) => Err(message)
                 case Ok(payload) => Ok(Parsed(cfg.redact, payload))
    ensures r.Ok? ==> var payload := cfg.decodeFindings(TrimSpace(stdout)).value;
                      && ListOf(cfg.redact, payload.findings, r.value.findings)
                      && ListOf(cfg.redact, payload.warnings, r.value.warnings)
  {
    match cfg.decodeFindings(TrimSpace(stdout)) {
      case Err(message) => r := Err(message);
      case Ok(payload) =>
        ListOfIs(cfg.redact, payload.findings);
        ListOfIs(cfg.redact, payload.warnings);
        var findings := SanitizeInPlace(cfg.redact, payload.findings);
        var warnings := SanitizeInPlace(cfg.redact, payload.warnings);
        findings := DedupeFindings(findings);
        warnings := DedupeFindings(warnings);
        r := Ok(Lists(findings, warnings));
    }
  }

  function PermissionWarning(reason: string): Finding {
    Finding("low", "governance", "", 0, "Command requires human review", reason, "", "high", "permission",
            "permission-non-allow", HUMAN_REVIEW)
  }

  /** Lists and error from the answer of the Skill. */
  function SkillAnswer(cfg: Config, outcome: Outcome): (Lists, Option<string>) {
    match outcome
    case Failed(message, _) => (NoLists, Some(message))
    case Raw(value) =>
      match cfg.decodeSkill(value)
      case Err(message) => (NoLists, Some(message))
      case Ok(out) =>
        match cfg.decodeFindings(TrimSpace(out.stdout))
        case Err(message) => (NoLists, Some(message))
        case Ok(payload) => (Parsed(cfg.redact, payload), None)
  }

  /** The result of the Skill step and its error, by the way it ended. */
  function SkillResult(cfg: Config, loading: Option<string>, trace: seq<Event>): (Lists, Option<string>) {
    if loading.Some? || trace == [] then (NoLists, loading)
    else
      match trace[|trace| - 1]
      case Loaded => (NoLists, loading)
      case Checked(_, Broken(message), _) => (NoLists, Some(message))
      case Checked(_, Permit(_, reason), _) => (Lists([], [PermissionWarning(reason)]), None)
      case Called(_, outcome) => SkillAnswer(cfg, outcome)
  }

  predicate SkillTrace(diff: string, loading: Option<string>, trace: seq<Event>) {
    && 1 <= |trace| <= 3 && trace[0].Loaded?
    && (|trace| == 1 <==> loading.Some?)
    && (|trace| >= 2 ==> trace[1].Checked? && trace[1].request == SkillRequest(diff)
                         && (|trace| == 3 <==> Allows(trace[1].answer)))
    && (|trace| == 3 ==> trace[2].Called? && trace[2].request == SkillRequest(diff))
  }

  /** The run record after the call, which took run.durationMs; if that is zero the script's own duration is
      taken. */
  function SkillFinished(cfg: Config, run: SandboxRun, outcome: Outcome): SandboxRun {
    match outcome
    case Failed(message, _) => run.(status := "error", stderrDigest := cfg.digest(message))
    case Raw(value) =>
      match cfg.decodeSkill(value)
      case Err(message) => run.(status := "error", stderrDigest := cfg.digest(message))
      case Ok(out) =>
        run.(status := if out.timedOut then "timed_out" else if out.exitCode != 0 then "failed" else "ok",
             exitCode := out.exitCode, stdoutDigest := cfg.digest(out.stdout), stderrDigest := cfg.digest(out.stderr),
             durationMs := if run.durationMs == 0 then out.durationMs else run.durationMs)
  }

  method ReadSkillOutput(cfg: Config, started: SandboxRun, outcome: Outcome)
    returns (run: SandboxRun, lists: Lists, error: Option<string>)
    ensures run == SkillFinished(cfg, started, outcome) && (lists, error) == SkillAnswer(cfg, outcome)
  {
    run, lists, error := started, NoLists, None;
    if outcome.Failed? {
      run := run.(status := "error", stderrDigest := cfg.digest(outcome.message));
      error := Some(outcome.message);
      return;
    }
    var decoded := cfg.decodeSkill(outcome.value);
    if decoded.Err? {
      run := run.(status := "error", stderrDigest := cfg.digest(decoded.message));
      error := Some(decoded.message);
      return;
    }
    var out := decoded.value;
    run := run.(status := "ok");
    if out.timedOut {
      run := run.(status := "timed_out");
    } else if out.exitCode != 0 {
      run := run.(status := "failed");
    }
    run := run.(exitCode := out.exitCode, stdoutDigest := cfg.digest(out.stdout),
                stderrDigest := cfg.digest(out.stderr));
    if run.durationMs == 0 {
      run := run.(durationMs := out.durationMs);
    }
    var parsed := ParseSkillFindings(cfg, out.stdout);
    match parsed {
      case Err(message) => error := Some(message);
      case Ok(value) => lists := value;
    }
  }

  /** The Skill's script ran and its answer can be read. */
  predicate Answered(cfg: Config, outcome: Outcome) {
    outcome.Raw? && cfg.decodeSkill(outcome.value).Ok?
  }

  /** What record, lists and error tell of the call. The record is an error exactly when there is no answer; otherwise
      its status is that of the script, ok, timed_out or failed, and it counts among the failed runs unless it is ok.
      The step has no error exactly when there is an answer whose findings can be read, whatever the status of the
      script; with an error there are no findings. */
  lemma SkillOutcomeMeans(cfg: Config, run: SandboxRun, outcome: Outcome)
    ensures var r := SkillFinished(cfg, run, outcome);
            var (lists, error) := SkillAnswer(cfg, outcome);
            && (r.status == "error" <==> !Answered(cfg, outcome))
            && (Failing(r) <==> r.status != "ok")
            && (error.Some? ==> lists == NoLists)
            && (r.status == "error" ==> error.Some? && r.exitCode == run.exitCode && r.durationMs == run.durationMs)
            && (Answered(cfg, outcome) ==>
                  var out := cfg.decodeSkill(outcome.value).value;
                  && (r.status == "timed_out" <==> out.timedOut)
                  && (r.status == "ok" <==> !out.timedOut && out.exitCode == 0)
                  && (r.status == "failed" <==> !out.timedOut && out.exitCode != 0) && r.exitCode == out.exitCode
                  && (r.durationMs == 0 <==> run.durationMs == 0 && out.durationMs == 0)
                  && (error.None? <==> cfg.decodeFindings(TrimSpace(out.stdout)).Ok?))
  {
    assert |"ok"| == 2 && |"failed"| == 6 && |"error"| == 5 && |"timed_out"| == 9;
  }

  /** What the last event of the Skill step makes of its run record. */
  function SkillEnded(cfg: Config, run: SandboxRun, durationMs: int, last: Event): SandboxRun {
    match last
    case Loaded => NoRun
    case Checked(_, Broken(_), _) => NoRun
    case Checked(_, Permit(action, _), _) => run.(status := action)
    case Called(_, outcome) => SkillFinished(cfg, run.(durationMs := durationMs), outcome)
  }

  /** An early error leaves zero records, nothing else does. */
  predicate SkillRecords(taskId: string, trace: seq<Event>, run: SandboxRun, decision: Decision) {
    if DecisionsOf(taskId, trace) == [] then run == NoRun && decision == NoDecision
    else DecisionsOf(taskId, trace) == [decision] && run.command == SKILL_COMMAND && run.taskId == taskId
  }

  lemma SkillLoaded(taskId: string)
    ensures DutyOf([Loaded]) == Clear && !GoAllowed([Loaded]) && DecisionsOf(taskId, [Loaded]) == []
  {
    LogSnoc(taskId, [], Loaded);
    assert [] + [Loaded] == [Loaded];
  }

  lemma SkillChecked(taskId: string, check: Event)
    requires check.Checked? && check.request.SkillRequest?
    ensures DutyOf([Loaded, check]) == (if Allows(check.answer) then Owes(check.request) else Clear)
    ensures !GoAllowed([Loaded, check])
    ensures DecisionsOf(taskId, [Loaded, check])
         == if check.answer.Broken? then [] else [RecordOf(taskId, check.request, check.answer, check.at)]
  {
    SkillLoaded(taskId);
    LogSnoc(taskId, [Loaded], check);
    assert [Loaded] + [check] == [Loaded, check];
  }

  lemma SkillCalled(taskId: string, check: Event, call: Event)
    requires check.Checked? && check.request.SkillRequest? && Allows(check.answer) && IsCall(call, check.request)
    ensures Governed([Loaded, check, call]) && !GoAllowed([Loaded, check, call])
    ensures DecisionsOf(taskId, [Loaded, check, call])
         == [RecordOf(taskId, check.request, check.answer, check.at)]
  {
    SkillChecked(taskId, check);
    LogSnoc(taskId, [Loaded, check], call);
    assert [Loaded, check] + [call] == [Loaded, check, call];
    ConcatNil(DecisionsOf(taskId, [Loaded, check]));
  }

  /** What the Skill step comes to; `at` and `ms` are the times its records take. */
  predicate SkillStep(cfg: Config, taskId: string, diff: string, loading: Option<string>, trace: seq<Event>, at: int,
                      ms: int, lists: Lists, run: SandboxRun, decision: Decision, error: Option<string>) {
    && SkillTrace(diff, loading, trace) && Governed(trace) && !GoAllowed(trace)
    && SkillRecords(taskId, trace, run, decision)
    && run == SkillEnded(cfg, Beginning(cfg, taskId, SKILL_COMMAND, false, at, 0), ms, trace[|trace| - 1])
    && (lists, error) == SkillResult(cfg, loading, trace)
  }

  method RunSkillChecks(env: Environment, cfg: Config, taskId: string, diff: string)
    returns (lists: Lists, run: SandboxRun, decision: Decision, error: Option<string>, ghost trace: seq<Event>)
    modifies env
    ensures env.log == old(env.log) + trace
    ensures SkillStep(cfg, taskId, diff, env.load(|old(env.log)|), trace, env.clock(old(env.ticks) + 1),
                      env.clock(old(env.ticks) + 3) - env.clock(old(env.ticks) + 2), lists, run, decision, error)
  {
    ghost var t := env.ticks;
    ghost var at, ms := env.clock(t + 1), env.clock(t + 3) - env.clock(t + 2);
    error := env.Load();
    if error.Some? {
      SkillNotLoaded(cfg, taskId, diff, error, at, ms);
      return NoLists, NoRun, NoDecision, error, [Loaded];
    }
    lists, run, decision, error, trace := AskSkill(env, cfg, taskId, diff, old(env.log));
  }

  lemma SkillNotLoaded(cfg: Config, taskId: string, diff: string, loading: Option<string>, at: int, ms: int)
    requires loading.Some?
    ensures SkillStep(cfg, taskId, diff, loading, [Loaded], at, ms, NoLists, NoRun, NoDecision, loading)
  {
    SkillLoaded(taskId);
  }

  lemma SkillBroke(cfg: Config, taskId: string, diff: string, check: Event, at: int, ms: int)
    requires check.Checked? && check.request == SkillRequest(diff) && check.answer.Broken?
    ensures SkillStep(cfg, taskId, diff, None, [Loaded, check], at, ms, NoLists, NoRun, NoDecision,
                      Some(check.answer.message))
  {
    SkillChecked(taskId, check);
  }

  lemma SkillRefused(cfg: Config, taskId: string, diff: string, check: Event, at: int, ms: int)
    requires check.Checked? && check.request == SkillRequest(diff) && check.answer.Permit? && !Allows(check.answer)
    ensures SkillStep(cfg, taskId, diff, None, [Loaded, check], at, ms,
                      Lists([], [PermissionWarning(check.answer.reason)]),
                      Beginning(cfg, taskId, SKILL_COMMAND, false, at, 0).(status := check.answer.action),
                      RecordOf(taskId, check.request, check.answer, check.at), None)
  {
    SkillChecked(taskId, check);
  }

  lemma SkillRan(cfg: Config, taskId: string, diff: string, check: Event, call: Event, at: int,
                 ms: int)
    requires check.Checked? && check.request == SkillRequest(diff) && Allows(check.answer)
    requires IsCall(call, check.request)
    ensures SkillStep(cfg, taskId, diff, None, [Loaded, check, call], at, ms, SkillAnswer(cfg, call.outcome).0,
                      SkillFinished(cfg, Beginning(cfg, taskId, SKILL_COMMAND, false, at, 0).(durationMs := ms),
                                    call.outcome),
                      RecordOf(taskId, check.request, check.answer, check.at), SkillAnswer(cfg, call.outcome).1)
  {
    SkillCalled(taskId, check, call);
  }

  /** Check and call of a Skill that is loaded; `log` is the log before that. */
  method AskSkill(env: Environment, cfg: Config, taskId: string, diff: string, ghost log: seq<Event>)
    returns (lists: Lists, run: SandboxRun, decision: Decision, error: Option<string>, ghost trace: seq<Event>)
    requires env.log == log + [Loaded]
    modifies env
    ensures env.log == log + trace
    ensures SkillStep(cfg, taskId, diff, None, trace, env.clock(old(env.ticks) + 1),
                      env.clock(old(env.ticks) + 3) - env.clock(old(env.ticks) + 2), lists, run, decision, error)
  {
    ghost var t := env.ticks;
    var answer, at := env.Check(SkillRequest(diff));
    ghost var check := Checked(SkillRequest(diff), answer, at);
    ConcatAssoc(log, [Loaded], [check]);
    assert [Loaded] + [check] == [Loaded, check];
    if answer.Broken? {
      SkillBroke(cfg, taskId, diff, check, env.clock(t + 1), env.clock(t + 3) - env.clock(t + 2));
      return NoLists, NoRun, NoDecision, Some(answer.message), [Loaded, check];
    }
    lists, run, decision, error, trace :=
      UseSkill(env, cfg, taskId, diff, answer.action, answer.reason, at, log, check);
  }

  /** A Skill request that the policy answered. */
  method UseSkill(env: Environment, cfg: Config, taskId: string, diff: string, action: string, reason: string, at: int,
                  ghost log: seq<Event>, ghost check: Event)
    returns (lists: Lists, run: SandboxRun, decision: Decision, error: Option<string>, ghost trace: seq<Event>)
    requires check == Checked(SkillRequest(diff), Permit(action, reason), at) && env.log == log + [Loaded, check]
    modifies env
    ensures env.log == log + trace
    ensures SkillStep(cfg, taskId, diff, None, trace, env.clock(old(env.ticks)),
                      env.clock(old(env.ticks) + 2) - env.clock(old(env.ticks) + 1), lists, run, decision, error)
  {
    ghost var t := env.ticks;
    decision := Decision(taskId, SKILL_COMMAND, action, reason, at);
    var now := env.Now();
    var started := Beginning(cfg, taskId, SKILL_COMMAND, false, now, 0);
    if action != ALLOW {
      SkillRefused(cfg, taskId, diff, check, now, env.clock(t + 2) - env.clock(t + 1));
      return Lists([], [PermissionWarning(reason)]), started.(status := action), decision, None, [Loaded, check];
    }
    lists, run, error, trace := CallAllowedSkill(env, cfg, taskId, diff, decision, now, log, check);
  }

  method CallAllowedSkill(env: Environment, cfg: Config, taskId: string, diff: string, decision: Decision, at: int,
                          ghost log: seq<Event>, ghost check: Event)
    returns (lists: Lists, run: SandboxRun, error: Option<string>, ghost trace: seq<Event>)
    requires IsCheck(check, SkillRequest(diff), true) && env.log == log + [Loaded, check]
    requires decision == RecordOf(taskId, check.request, check.answer, check.at)
    modifies env
    ensures env.log == log + trace
    ensures SkillStep(cfg, taskId, diff, None, trace, at,
                      env.clock(old(env.ticks) + 1) - env.clock(old(env.ticks)), lists, run, decision, error)
  {
    ghost var ms := env.clock(env.ticks + 1) - env.clock(env.ticks);
    ghost var call;
    run, lists, error, call :=
      CallSkill(env, cfg, SkillRequest(diff), Beginning(cfg, taskId, SKILL_COMMAND, false, at, 0));
    SkillRan(cfg, taskId, diff, check, call, at, ms);
    ConcatAssoc(log, [Loaded, check], [call]);
    trace := [Loaded, check, call];
    assert [Loaded, check] + [call] == trace;
  }

  lemma SkillNeverStarted(cfg: Config, run: SandboxRun, durationMs: int, last: Event)
    requires !run.executionStarted
    ensures !SkillEnded(cfg, run, durationMs, last).executionStarted
  {}

  /** The call of the Skill between two readings of the clock. */
  method CallSkill(env: Environment, cfg: Config, request: Request, started: SandboxRun)
    returns (run: SandboxRun, lists: Lists, error: Option<string>, ghost call: Event)
    modifies env
    ensures IsCall(call, request) && env.log == old(env.log) + [call]
    ensures run == SkillFinished(cfg, started.(durationMs := env.clock(old(env.ticks) + 1) - env.clock(old(env.ticks))),
                                 call.outcome)
    ensures (lists, error) == SkillAnswer(cfg, call.outcome)
  {
    var start := env.Now();
    var outcome := env.Call(request);
    call := Called(request, outcome);
    var end := env.Now();
    run, lists, error := ReadSkillOutput(cfg, started.(durationMs := end - start), outcome);
  }

  predicate BothDistinct(lists: Lists) {
    Distinct(lists.findings) && Distinct(lists.warnings)
  }

  lemma ParsedDistinct(redact: Redactor, payload: Lists)
    ensures BothDistinct(Parsed(redact, payload))
  {
    DedupeKeys(SanitizeAll(redact, payload.findings));
    DedupeKeys(SanitizeAll(redact, payload.warnings));
  }

  lemma OneDistinct(f: Finding)
    ensures BothDistinct(NoLists) && BothDistinct(Lists([], [f]))
  {
    SnocKeys([], f);
    assert [] + [f] == [f];
  }

  /** The Skill finds each key once. */
  lemma SkillListsDistinct(cfg: Config, loading: Option<string>, trace: seq<Event>)
    ensures BothDistinct(SkillResult(cfg, loading, trace).0)
    ensures SkillResult(cfg, loading, trace).1.Some? ==> SkillResult(cfg, loading, trace).0 == NoLists
  {
    forall f
      ensures BothDistinct(NoLists) && BothDistinct(Lists([], [f]))
    {
      OneDistinct(f);
    }
    forall payload
      ensures BothDistinct(Parsed(cfg.redact, payload))
    {
      ParsedDistinct(cfg.redact, payload);
    }
  }

  // ----- the whole checks -----

  function SkippedDecision(taskId: string, at: int): Decision {
    Decision(taskId, "go checks", "skipped", "sandbox Go checks require --repo-path", at)
  }

  function SkippedRun(taskId: string, at: int): SandboxRun {
    NoRun.(taskId := taskId, command := "go checks", status := "skipped", envWhitelist := ENV_WHITELIST,
           output := "sandbox Go checks require --repo-path", at := at, finishedAt := at)
  }

  const RepoRequired := Finding("low", "sandbox", "", 0, "Sandbox checks require a repository",
                                "sandbox Go checks require --repo-path",
                                "Provide --repo-path to run go test and go vet.", "high", "sandbox",
                                "sandbox-repo-required", HUMAN_REVIEW)

  method SandboxUnavailableAudit(env: Environment, taskId: string)
    returns (warnings: seq<Finding>, decision: Decision, run: SandboxRun)
    modifies env`ticks
    ensures warnings == [RepoRequired] && decision == SkippedDecision(taskId, decision.at)
    ensures run == SkippedRun(taskId, decision.at)
  {
    var now := env.Now();
    warnings, decision, run := [RepoRequired], SkippedDecision(taskId, now), SkippedRun(taskId, now);
  }

  const DryRunWarning := Finding("low", "governance", "", 0, "Sandbox execution skipped by dry-run mode", "dry-run",
                                 "Run again with rule-only or sandbox mode before merging.", "high", "mode",
                                 "dry-run-skipped-executor", HUMAN_REVIEW)

  method RunDryRun(env: Environment, cfg: Config, taskId: string)
    returns (lists: Lists, run: SandboxRun, decision: Decision, error: Option<string>)
    modifies env
    ensures env.log == old(env.log) + [Loaded] && error == env.load(|old(env.log)|)
    ensures error.Some? ==> lists == NoLists && run == NoRun && decision == NoDecision
    ensures error.None? ==>
              && lists == Lists([], [DryRunWarning])
              && decision == Decision(taskId, SKILL_COMMAND, "dry_run", "executor skipped by dry-run mode", decision.at)
              && run == Beginning(cfg, taskId, SKILL_COMMAND, false, decision.at, 0).(status := "skipped")
  {
    lists, run, decision := NoLists, NoRun, NoDecision;
    error := env.Load();
    if error.Some? {
      return;
    }
    var now := env.Now();
    decision := Decision(taskId, SKILL_COMMAND, "dry_run", "executor skipped by dry-run mode", now);
    run := Beginning(cfg, taskId, SKILL_COMMAND, false, now, 0).(status := "skipped");
    lists := Lists([], [DryRunWarning]);
  }

  const UNSUPPORTED_REASON := "runtime e2b is configured but no adapter is available yet"

  const UNSUPPORTED_ADVICE := "Run again with container or local-fallback until the E2B adapter is implemented."

  const UnsupportedWarning := Finding("low", "sandbox", "", 0, "E2B runtime adapter is unsupported",
                                      UNSUPPORTED_REASON,
                                      UNSUPPORTED_ADVICE,
                                      "high", "runtime", "e2b-runtime-unsupported", HUMAN_REVIEW)

  method RunUnsupportedRuntime(env: Environment, cfg: Config, taskId: string)
    returns (lists: Lists, run: SandboxRun, decision: Decision)
    modifies env`ticks
    ensures lists == Lists([], [UnsupportedWarning])
    ensures decision == Decision(taskId, SKILL_COMMAND, "unsupported", UNSUPPORTED_REASON, decision.at)
    ensures run == Beginning(cfg, taskId, SKILL_COMMAND, false, decision.at, 0)
                   .(runtime := E2B, status := "unsupported", output := UNSUPPORTED_REASON, finishedAt := decision.at)
  {
    var now := env.Now();
    lists := Lists([], [UnsupportedWarning]);
    decision := Decision(taskId, SKILL_COMMAND, "unsupported", UNSUPPORTED_REASON, now);
    run := Beginning(cfg, taskId, SKILL_COMMAND, false, now, 0)
           .(runtime := E2B, status := "unsupported", output := UNSUPPORTED_REASON, finishedAt := now);
  }

  /** The one decision a run may record without asking the policy. */
  predicate OwnDecision(taskId: string, extra: seq<Decision>) {
    extra == []
    || (|extra| == 1 && extra[0].taskId == taskId && extra[0].command != "" && extra[0].action != ALLOW)
  }

  /** What the records of a whole run say of its log. */
  predicate Audited(taskId: string, trace: seq<Event>, extra: seq<Decision>, decisions: seq<Decision>,
                    runs: seq<SandboxRun>) {
    && Governed(trace) && OwnDecision(taskId, extra)
    && NonZero(decisions) == DecisionsOf(taskId, trace) + extra
    && (Started(runs) <==> GoAllowed(trace))
    && DecisionsCarry(taskId, decisions) && RunsCarry(taskId, runs)
  }

  /** The records of a run that asked nothing. */
  lemma AuditOwn(taskId: string, trace: seq<Event>, decision: Decision, run: SandboxRun) returns (extra: seq<Decision>)
    requires trace == [] || trace == [Loaded]
    requires ZeroDecision(decision) || (decision.taskId == taskId && decision.command != "" && decision.action != ALLOW)
    requires (ZeroRun(run) || run.taskId == taskId) && !run.executionStarted
    ensures Audited(taskId, trace, extra, [decision], [run])
  {
    extra := if ZeroDecision(decision) then [] else [decision];
    NonZeroOne(decision);
    LogSnoc(taskId, [], Loaded);
    assert [] + [Loaded] == [Loaded];
    ConcatNil(extra);
  }

  /** The records of the Skill step. */
  lemma AuditSkill(cfg: Config, taskId: string, trace: seq<Event>, run: SandboxRun, decision: Decision)
    requires Governed(trace) && !GoAllowed(trace) && trace != []
    requires SkillRecords(taskId, trace, run, decision) && !run.executionStarted
    requires AllNonZero(DecisionsOf(taskId, trace))
    ensures Audited(taskId, trace, [], [decision], [run])
  {
    NonZeroOne(decision);
    RecordsCarry(taskId, trace);
    ConcatNil(DecisionsOf(taskId, trace));
    if DecisionsOf(taskId, trace) != [] {
      assert decision in DecisionsOf(taskId, trace);
    }
  }

  lemma SkillRecordsNonZero(taskId: string, diff: string, loading: Option<string>, trace: seq<Event>)
    requires SkillTrace(diff, loading, trace)
    ensures AllNonZero(DecisionsOf(taskId, trace))
  {
    assert SKILL_COMMAND != "";
    RequestsNonZero(taskId, trace);
  }

  lemma {:induction false} RequestsNonZero(taskId: string, trace: seq<Event>)
    requires forall i :: 0 <= i < |trace| && trace[i].Checked? ==> CommandOf(trace[i].request) != ""
    ensures AllNonZero(DecisionsOf(taskId, trace))
  {
    if trace != [] {
      RequestsNonZero(taskId, trace[..|trace| - 1]);
    }
  }

  /** The Skill step and the missing repository. */
  lemma AuditSkipped(taskId: string, trace: seq<Event>, decisions: seq<Decision>, runs: seq<SandboxRun>,
                     decision: Decision, run: SandboxRun)
    requires Audited(taskId, trace, [], decisions, runs)
    requires decision.taskId == taskId && decision.command != "" && decision.action != ALLOW
    requires run.taskId == taskId && !run.executionStarted
    ensures Audited(taskId, trace, [decision], decisions + [decision], runs + [run])
  {
    NonZeroConcat(decisions, [decision]);
    NonZeroOne(decision);
    StartedSnoc(runs, run);
    ConcatNil(DecisionsOf(taskId, trace));
  }

  lemma {:induction false} StartedConcat(a: seq<SandboxRun>, b: seq<SandboxRun>)
    ensures Started(a + b) <==> Started(a) || Started(b)
  {
    if b == [] {
      ConcatNil(a);
    } else {
      var init, last := b[..|b| - 1], b[|b| - 1];
      LastSplits(b);
      ConcatAssoc(a, init, [last]);
      StartedConcat(a, init);
      StartedSnoc(a + init, last);
      StartedSnoc(init, last);
    }
  }

  /** The Skill step and the Go checks. */
  lemma AuditGo(cfg: Config, taskId: string, repoPath: string, commands: seq<string>,
                trace: seq<Event>, decisions: seq<Decision>, runs: seq<SandboxRun>,
                goTrace: seq<Event>, goDecisions: seq<Decision>, goRuns: seq<SandboxRun>)
    requires Audited(taskId, trace, [], decisions, runs)
    requires GoChecks(cfg, taskId, repoPath, commands, goDecisions, goRuns, goTrace)
    ensures Audited(taskId, trace + goTrace, [], decisions + goDecisions, runs + goRuns)
  {
    DutyConcat(trace, goTrace);
    DecisionsConcat(taskId, trace, goTrace);
    GoAllowedConcat(trace, goTrace);
    NonZeroConcat(decisions, goDecisions);
    NonZeroAll(goDecisions);
    StartedConcat(runs, goRuns);
    ConcatNil(DecisionsOf(taskId, trace));
    ConcatNil(DecisionsOf(taskId, trace + goTrace));
    RecordsCarry(taskId, goTrace);
  }

  predicate DryRun(plan: Plan) {
    plan.mode == "dry-run"
  }

  predicate NeedsRepo(plan: Plan, repoPath: string) {
    plan.sandboxRequested && TrimSpace(repoPath) == ""
  }

  predicate ChecksGo(plan: Plan, repoPath: string) {
    plan.sandboxRequested && TrimSpace(repoPath) != ""
  }

  /** The Skill's lists, with the request for a repository when the sandbox needs one. */
  function CheckedLists(skill: Lists, needsRepo: bool): Lists {
    if needsRepo then skill.(warnings := skill.warnings + [RepoRequired]) else skill
  }

  ghost predicate ReviewSplit(cfg: Config, plan: Plan, repoPath: string, diff: string, loading: Option<string>,
                              skill: seq<Event>, checks: seq<Event>, lists: Lists, error: Option<string>) {
    && SkillTrace(diff, loading, skill)
    && (if ChecksGo(plan, repoPath) then GoTraces(cfg, repoPath, AllowedReviewCommands(cfg.enableStaticcheck), checks)
        else checks == [])
    && lists == CheckedLists(SkillResult(cfg, loading, skill).0, NeedsRepo(plan, repoPath))
    && error == SkillResult(cfg, loading, skill).1
  }

  /** The log of a review: the Skill step, then the Go checks if they are wanted and possible. */
  ghost predicate ReviewTrace(cfg: Config, plan: Plan, repoPath: string, diff: string, loading: Option<string>,
                              trace: seq<Event>, lists: Lists, error: Option<string>) {
    exists k :: 0 <= k <= |trace|
                && ReviewSplit(cfg, plan, repoPath, diff, loading, trace[..k], trace[k..], lists, error)
  }

  lemma ReviewTraceIs(cfg: Config, plan: Plan, repoPath: string, diff: string, loading: Option<string>,
                      skill: seq<Event>, checks: seq<Event>, lists: Lists, error: Option<string>)
    requires ReviewSplit(cfg, plan, repoPath, diff, loading, skill, checks, lists, error)
    ensures ReviewTrace(cfg, plan, repoPath, diff, loading, skill + checks, lists, error)
  {
    assert (skill + checks)[..|skill|] == skill && (skill + checks)[|skill|..] == checks;
  }

  /** What the checks of a run do, by mode and runtime, and what comes of it. */
  ghost predicate ChecksDid(cfg: Config, plan: Plan, repoPath: string, diff: string, loading: Option<string>,
                            trace: seq<Event>, lists: Lists, error: Option<string>, runs: nat, toolCalls: int) {
    if DryRun(plan) then
      && trace == [Loaded] && runs == toolCalls == 1 && error == loading
      && lists == if error.Some? then NoLists else Lists([], [DryRunWarning])
    else if cfg.runtime == E2B then
      trace == [] && runs == 1 && toolCalls == 0 && error == None && lists == Lists([], [UnsupportedWarning])
    else
      && ReviewTrace(cfg, plan, repoPath, diff, loading, trace, lists, error)
      && toolCalls == if NeedsRepo(plan, repoPath) then runs else runs + 1
  }

  lemma OwnActions()
    ensures "dry_run" != ALLOW && "unsupported" != ALLOW && "skipped" != ALLOW
    ensures SKILL_COMMAND != "" && "go checks" != ""
  {
    assert |ALLOW| == 5 && |"dry_run"| == 7 && |"unsupported"| == 11 && |"skipped"| == 7;
  }

  method RunReviewChecks(env: Environment, cfg: Config, taskId: string, plan: Plan, repoPath: string, diff: string)
    returns (lists: Lists, decisions: seq<Decision>, runs: seq<SandboxRun>, toolCallCount: int,
             error: Option<string>, ghost trace: seq<Event>, ghost extra: seq<Decision>)
    modifies env
    ensures env.log == old(env.log) + trace
    ensures Audited(taskId, trace, extra, decisions, runs)
    ensures ChecksDid(cfg, plan, repoPath, diff, env.load(|old(env.log)|), trace, lists, error, |runs|, toolCallCount)
  {
    OwnActions();
    if DryRun(plan) {
      var run, decision;
      lists, run, decision, error := RunDryRun(env, cfg, taskId);
      decisions, runs, toolCallCount, trace := [decision], [run], 1, [Loaded];
      extra := AuditOwn(taskId, trace, decision, run);
      return;
    }
    if cfg.runtime == E2B {
      var run, decision;
      lists, run, decision := RunUnsupportedRuntime(env, cfg, taskId);
      decisions, runs, toolCallCount, error, trace := [decision], [run], 0, None, [];
      extra := AuditOwn(taskId, trace, decision, run);
      ConcatNil(env.log);
      return;
    }
    toolCallCount := 2;
    ghost var loading := env.load(|env.log|);
    var run, decision;
    ghost var from := env.ticks;
    lists, run, decision, error, trace := RunSkillChecks(env, cfg, taskId, diff);
    SkillNeverStarted(cfg, Beginning(cfg, taskId, SKILL_COMMAND, false, env.clock(from + 1), 0),
                      env.clock(from + 3) - env.clock(from + 2), trace[|trace| - 1]);
    decisions, runs, extra := [decision], [run], [];
    ghost var skill := trace;
    SkillRecordsNonZero(taskId, diff, loading, trace);
    AuditSkill(cfg, taskId, trace, run, decision);
    ConcatNil(skill);
    if plan.sandboxRequested {
      if TrimSpace(repoPath) == "" {
        var skipWarnings, skipDecision, skipRun := SandboxUnavailableAudit(env, taskId);
        AuditSkipped(taskId, trace, decisions, runs, skipDecision, skipRun);
        extra := [skipDecision];
        lists := lists.(warnings := lists.warnings + skipWarnings);
        decisions := decisions + [skipDecision];
        runs := runs + [skipRun];
      } else {
        var checkDecisions, checkRuns, checkTrace := RunGoSandboxChecks(env, cfg, taskId, repoPath);
        AuditGo(cfg, taskId, repoPath, AllowedReviewCommands(cfg.enableStaticcheck), trace, decisions, runs,
                checkTrace, checkDecisions, checkRuns);
        ConcatAssoc(old(env.log), skill, checkTrace);
        decisions := decisions + checkDecisions;
        runs := runs + checkRuns;
        toolCallCount := toolCallCount + |checkRuns|;
        ReviewTraceIs(cfg, plan, repoPath, diff, loading, skill, checkTrace, lists, error);
        trace := trace + checkTrace;
        return;
      }
    }
    ReviewTraceIs(cfg, plan, repoPath, diff, loading, skill, [], lists, error);
  }

  // ----- laws of a whole run -----

  lemma OwnAllowsNothing(taskId: string, extra: seq<Decision>)
    requires OwnDecision(taskId, extra)
    ensures AllowedCommands(extra) == []
  {}

  lemma {:induction false} AllowedOfNonZero(ds: seq<Decision>)
    ensures AllowedCommands(NonZero(ds)) == AllowedCommands(ds)
  {
    if ds != [] {
      var init, d := ds[..|ds| - 1], ds[|ds| - 1];
      AllowedOfNonZero(init);
      AllowedCommandsSnoc(NonZero(init), d);
      ConcatNil(NonZero(init));
      ThreeActions(d);
    }
  }

  /** Over a whole run the calls match the recorded allow decisions, one to one and in order. */
  lemma CallsMatchDecisions(taskId: string, trace: seq<Event>, extra: seq<Decision>, decisions: seq<Decision>,
                            runs: seq<SandboxRun>)
    requires Audited(taskId, trace, extra, decisions, runs)
    ensures CommandsOf(CallsOf(trace)) == AllowedCommands(decisions)
    ensures CallsOf(trace) == AllowedOf(trace)
  {
    GovernedCalls(trace, 0);
    AllowedAreRecorded(taskId, trace);
    AllowedOfNonZero(decisions);
    AllowedCommandsConcat(DecisionsOf(taskId, trace), extra);
    OwnAllowsNothing(taskId, extra);
    ConcatNil(AllowedCommands(DecisionsOf(taskId, trace)));
  }

  lemma {:induction false} AllowCountIs(ds: seq<Decision>)
    ensures CountAction(ds, ALLOW) == |AllowedCommands(ds)|
  {
    if ds != [] {
      AllowCountIs(ds[..|ds| - 1]);
    }
  }

  lemma {:induction false} CallCount(requests: seq<Request>)
    ensures |CommandsOf(requests)| == |requests|
  {
    if requests != [] {
      CallCount(requests[..|requests| - 1]);
    }
  }

  /** The metrics of a finalised run account for every call and every decision: as many calls as allow
      decisions, blocks for the rest but the dry run, and a sandbox execution exactly when the first request of
      some Go check was allowed. */
  lemma MetricsAccount(lists: Lists, ctx: ReviewContext, clock: Clock, trace: seq<Event>, extra: seq<Decision>)
    requires Audited(ctx.taskId, trace, extra, ctx.decisions, ctx.runs)
    ensures var m := FinalMetrics(lists, ctx, clock);
            && (m.sandboxExecuted <==> GoAllowed(trace))
            && |DecisionsOf(ctx.taskId, trace)| + |extra|
               == |CallsOf(trace)| + CountAction(ctx.decisions, "dry_run") + m.permissionBlocks
  {
    CallsMatchDecisions(ctx.taskId, trace, extra, ctx.decisions, ctx.runs);
    AllowCountIs(ctx.decisions);
    CallCount(CallsOf(trace));
    CountsPartition(ctx.decisions);
  }

  /** The lists of a run repeat no key, unless the Skill itself asked for a repository. */
  lemma CheckedListsDistinct(cfg: Config, loading: Option<string>, trace: seq<Event>, needsRepo: bool)
    ensures var skill := SkillResult(cfg, loading, trace).0;
            var lists := CheckedLists(skill, needsRepo);
            && Distinct(lists.findings)
            && (Distinct(lists.warnings) <==> !(needsRepo && Key(RepoRequired) in Keys(skill.warnings)))
  {
    SkillListsDistinct(cfg, loading, trace);
    var skill := SkillResult(cfg, loading, trace).0;
    var all := skill.warnings + [RepoRequired];
    SnocKeys(skill.warnings, RepoRequired);
    DistinctLast(all);
    assert all[..|skill.warnings|] == skill.warnings;
  }
}
