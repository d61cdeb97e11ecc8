/** Governed execution: every tool call of a run is checked first, and the audit records say so. */
module Governance {
  import opened Wrappers
  import opened Text
  import opened Findings
  import opened ModelReview
  import opened Records
  import opened ReviewResult
  import opened Commands

  // ----- the outside world -----

  /** A request for a call of skill_run, workspace_exec or execute_code. */
  datatype Request =
    | SkillRequest(stdin: string)
    | WorkspaceRequest(runtime: string, review: string, limit: int)
    | CodeRequest(runtime: string, repoPath: string, review: string, limit: int)

  /** The reviewed command a request stands for. */
  function CommandOf(r: Request): string {
    match r
    case SkillRequest(_) => SKILL_COMMAND
    case WorkspaceRequest(_, review, _) => review
    case CodeRequest(_, _, review, _) => review
  }

  /** The command or code text the tool is given. */
  function CommandText(r: Request): string {
    match r
    case SkillRequest(_) => SKILL_COMMAND
    case WorkspaceRequest(runtime, review, limit) =>
      BoundedSandboxCommand(SandboxExecCommand(runtime, review), limit)
    case CodeRequest(runtime, repoPath, review, limit) =>
      SandboxCode(runtime, repoPath, BoundedSandboxCommand(SandboxExecCommand(runtime, review), limit))
  }

  const ALLOW := "allow"

  /** A policy's normalised answer. */
  datatype Answer = Permit(action: string, reason: string) | Broken(message: string)

  /** A tool's answer: an error, after the deadline or before it, or a raw value still to be decoded. */
  datatype Outcome = Failed(message: string, late: bool) | Raw(value: string)

  datatype Event =
    | Loaded
    | Checked(request: Request, answer: Answer, at: int)
    | Called(request: Request, outcome: Outcome)

  datatype CommandOutput = CommandOutput(status: string, text: string, exitCode: Option<int>)

  datatype SkillOutput = SkillOutput(stdout: string, stderr: string, exitCode: int, timedOut: bool, durationMs: int)

  /** The configuration, with the library operations that only their types are known of: redaction, digests,
      JSON decoding, and the redacted and shortened output text. */
  datatype Config = Config(runtime: string, timeoutMs: int, outputLimit: int, enableStaticcheck: bool,
                           redact: Redactor, digest: string -> string, clip: (string, int) -> string,
                           decodeCommand: string -> CommandOutput, decodeSkill: string -> Result<SkillOutput>,
                           decodeFindings: string -> Result<Lists>)

  /** Policy, tools and clock; all that matters of their state is what happened before. */
  class Environment {
    const policy: (nat, Request) -> Answer
    const tool: (nat, Request) -> Outcome
    const load: nat -> Option<string>
    const clock: nat -> int
    var log: seq<Event>
    var ticks: nat

    constructor (policy: (nat, Request) -> Answer, tool: (nat, Request) -> Outcome, load: nat -> Option<string>,
                 clock: nat -> int)
      ensures log == []
    {
      this.policy, this.tool, this.load, this.clock := policy, tool, load, clock;
      log, ticks := [], 0;
    }

    method Now() returns (t: int)
      modifies this`ticks
      ensures t == clock(old(ticks)) && ticks == old(ticks) + 1
    {
      t := clock(ticks);
      ticks := ticks + 1;
    }

    method Load() returns (error: Option<string>)
      modifies this`log
      ensures error == load(|old(log)|) && log == old(log) + [Loaded]
    {
      error := load(|log|);
      log := log + [Loaded];
    }

    /** CheckToolPermission with NormalizePermissionDecision, and the time read after them. */
    method Check(request: Request) returns (answer: Answer, at: int)
      modifies this
      ensures answer == policy(|old(log)|, request) && log == old(log) + [Checked(request, answer, at)]
      ensures at == clock(old(ticks)) && ticks == old(ticks) + 1
    {
      answer := policy(|log|, request);
      at := Now();
      log := log + [Checked(request, answer, at)];
    }

    method Call(request: Request) returns (outcome: Outcome)
      modifies this`log
      ensures outcome == tool(|old(log)|, request) && log == old(log) + [Called(request, outcome)]
    {
      outcome := tool(|log|, request);
      log := log + [Called(request, outcome)];
    }
  }

  // ----- what a log says -----

  predicate Allows(answer: Answer) {
    answer.Permit? && answer.action == ALLOW
  }

  /** The permission a Go check works with: a policy failure is a denial. */
  function Permission(answer: Answer): Answer {
    match answer
    case Permit(_, _) => answer
    case Broken(message) => Permit("deny", message)
  }

  function RecordOf(taskId: string, request: Request, answer: Answer, at: int): Decision {
    var p := Permission(answer);
    Decision(taskId, CommandOf(request), p.action, p.reason, at)
  }

  /** The decision records of the checks, in order. A policy failure on the Skill leaves none. */
  function DecisionsOf(taskId: string, log: seq<Event>): seq<Decision> {
    if log == [] then []
    else
      var e := log[|log| - 1];
      DecisionsOf(taskId, log[..|log| - 1])
      + if !e.Checked? || (e.answer.Broken? && e.request.SkillRequest?) then []
        else [RecordOf(taskId, e.request, e.answer, e.at)]
  }

  /** The requests that were called, in order. */
  function CallsOf(log: seq<Event>): seq<Request> {
    if log == [] then []
    else CallsOf(log[..|log| - 1]) + if log[|log| - 1].Called? then [log[|log| - 1].request] else []
  }

  /** The requests that were allowed, in order. */
  function AllowedOf(log: seq<Event>): seq<Request> {
    if log == [] then []
    else
      var e := log[|log| - 1];
      AllowedOf(log[..|log| - 1]) + if e.Checked? && Allows(e.answer) then [e.request] else []
  }

  /** Some Go check was allowed at its first, the workspace, request. */
  predicate GoAllowed(log: seq<Event>) {
    && log != []
    && var e := log[|log| - 1];
       GoAllowed(log[..|log| - 1]) || (e.Checked? && e.request.WorkspaceRequest? && Allows(e.answer))
  }

  /** What a log has promised: nothing, or the call of the request just allowed. */
  datatype Duty = Clear | Owes(request: Request) | Broke

  function After(duty: Duty, e: Event): Duty {
    match duty
    case Clear =>
      (match e
       case Loaded => Clear
       case Checked(request, answer, _) => if Allows(answer) then Owes(request) else Clear
       case Called(_, _) => Broke)
    case Owes(request) => if e.Called? && e.request == request then Clear else Broke
    case Broke => Broke
  }

  function DutyOf(log: seq<Event>): Duty {
    if log == [] then Clear else After(DutyOf(log[..|log| - 1]), log[|log| - 1])
  }

  /** Every call directly follows the check that allowed its very request, and every allowed request is called
      at once. */
  predicate Governed(log: seq<Event>) {
    DutyOf(log) == Clear
  }

  lemma {:induction false} DutyConcat(a: seq<Event>, b: seq<Event>)
    requires Governed(a)
    ensures DutyOf(a + b) == DutyOf(b)
  {
    if b == [] {
      ConcatNil(a);
    } else {
      assert (a + b)[..|a + b| - 1] == a + b[..|b| - 1];
      DutyConcat(a, b[..|b| - 1]);
    }
  }

  lemma {:induction false} DecisionsConcat(taskId: string, a: seq<Event>, b: seq<Event>)
    ensures DecisionsOf(taskId, a + b) == DecisionsOf(taskId, a) + DecisionsOf(taskId, b)
  {
    if b == [] {
      ConcatNil(a);
      ConcatNil(DecisionsOf(taskId, a));
    } else {
      var e := b[|b| - 1];
      assert (a + b)[..|a + b| - 1] == a + b[..|b| - 1];
      DecisionsConcat(taskId, a, b[..|b| - 1]);
      ConcatAssoc(DecisionsOf(taskId, a), DecisionsOf(taskId, b[..|b| - 1]),
                  if !e.Checked? || (e.answer.Broken? && e.request.SkillRequest?) then []
                  else [RecordOf(taskId, e.request, e.answer, e.at)]);
    }
  }

  lemma {:induction false} GoAllowedConcat(a: seq<Event>, b: seq<Event>)
    ensures GoAllowed(a + b) <==> GoAllowed(a) || GoAllowed(b)
  {
    if b == [] {
      ConcatNil(a);
    } else {
      assert (a + b)[..|a + b| - 1] == a + b[..|b| - 1];
      GoAllowedConcat(a, b[..|b| - 1]);
    }
  }

  function Promised(duty: Duty): seq<Request> {
    if duty.Owes? then [duty.request] else []
  }

  lemma {:induction false} CallsKeepUp(log: seq<Event>)
    requires DutyOf(log) != Broke
    ensures AllowedOf(log) == CallsOf(log) + Promised(DutyOf(log))
  {
    if log != [] {
      var init, e := log[..|log| - 1], log[|log| - 1];
      CallsKeepUp(init);
      ConcatNil(CallsOf(init));
    }
  }

  lemma {:induction false} BrokeStays(log: seq<Event>, k: nat)
    requires k <= |log| && DutyOf(log) != Broke
    ensures DutyOf(log[..k]) != Broke
  {
    if k < |log| {
      assert log[..|log| - 1][..k] == log[..k];
      BrokeStays(log[..|log| - 1], k);
    } else {
      assert log[..k] == log;
    }
  }

  /** In a governed log the calls are the allowed requests, one to one and in order; and at no moment has there
      been a call that was not allowed first. */
  lemma GovernedCalls(log: seq<Event>, k: nat)
    requires Governed(log) && k <= |log|
    ensures CallsOf(log) == AllowedOf(log)
    ensures CallsOf(log[..k]) <= AllowedOf(log[..k])
    ensures |AllowedOf(log[..k])| <= |CallsOf(log[..k])| + 1
  {
    CallsKeepUp(log);
    ConcatNil(CallsOf(log));
    BrokeStays(log, k);
    CallsKeepUp(log[..k]);
  }

  function CommandsOf(requests: seq<Request>): seq<string> {
    if requests == [] then []
    else CommandsOf(requests[..|requests| - 1]) + [CommandOf(requests[|requests| - 1])]
  }

  /** The commands of the recorded allow decisions, in order. */
  function AllowedCommands(ds: seq<Decision>): seq<string> {
    if ds == [] then []
    else
      var d := ds[|ds| - 1];
      AllowedCommands(ds[..|ds| - 1]) + if d.action == ALLOW then [d.command] else []
  }

  lemma AllowIsNotDeny()
    ensures "deny" != ALLOW
  {
    assert "deny"[0] == 'd' && ALLOW[0] == 'a';
  }

  lemma AllowedCommandsSnoc(ds: seq<Decision>, d: Decision)
    ensures AllowedCommands(ds + [d])
         == if d.action == ALLOW then AllowedCommands(ds) + [d.command] else AllowedCommands(ds)
  {
    assert (ds + [d])[..|ds|] == ds;
    ConcatNil(AllowedCommands(ds));
  }

  lemma {:induction false} AllowedCommandsConcat(a: seq<Decision>, b: seq<Decision>)
    ensures AllowedCommands(a + b) == AllowedCommands(a) + AllowedCommands(b)
  {
    if b == [] {
      ConcatNil(a);
      ConcatNil(AllowedCommands(a));
    } else {
      var init, d := b[..|b| - 1], b[|b| - 1];
      AllowedCommandsConcat(a, init);
      LastSplits(b);
      ConcatAssoc(a, init, [d]);
      AllowedCommandsSnoc(a + init, d);
      AllowedCommandsSnoc(init, d);
      ConcatAssoc(AllowedCommands(a), AllowedCommands(init), [d.command]);
    }
  }

  lemma CommandsSnoc(requests: seq<Request>, r: Request)
    ensures CommandsOf(requests + [r]) == CommandsOf(requests) + [CommandOf(r)]
  {
    assert (requests + [r])[..|requests|] == requests;
  }

  /** The recorded allow decisions name the commands of the allowed requests, in order. */
  lemma {:induction false} AllowedAreRecorded(taskId: string, log: seq<Event>)
    ensures AllowedCommands(DecisionsOf(taskId, log)) == CommandsOf(AllowedOf(log))
  {
    if log != [] {
      var init, e := log[..|log| - 1], log[|log| - 1];
      AllowedAreRecorded(taskId, init);
      ConcatNil(DecisionsOf(taskId, init));
      ConcatNil(AllowedOf(init));
      if e.Checked? {
        AllowIsNotDeny();
        AllowedCommandsSnoc(DecisionsOf(taskId, init), RecordOf(taskId, e.request, e.answer, e.at));
        CommandsSnoc(AllowedOf(init), e.request);
      }
    }
  }

  // ----- counting decisions -----

  function NonZero(ds: seq<Decision>): seq<Decision> {
    if ds == [] then []
    else NonZero(ds[..|ds| - 1]) + if ZeroDecision(ds[|ds| - 1]) then [] else [ds[|ds| - 1]]
  }

  function CountAction(ds: seq<Decision>, action: string): nat {
    if ds == [] then 0
    else CountAction(ds[..|ds| - 1], action) + if ds[|ds| - 1].action == action then 1 else 0
  }

  lemma ThreeActions(d: Decision)
    ensures Blocks(d) <==> !ZeroDecision(d) && d.action != "allow" && d.action != "dry_run"
    ensures ZeroDecision(d) ==> d.action != "allow" && d.action != "dry_run"
    ensures !(d.action == "allow" && d.action == "dry_run")
  {
    assert |"allow"| == 5 && |"dry_run"| == 7;
  }

  /** Allowed, dry-run and blocked decisions partition the decisions that are recorded. */
  lemma {:induction false} CountsPartition(ds: seq<Decision>)
    ensures |NonZero(ds)| == CountAction(ds, "allow") + CountAction(ds, "dry_run") + BlockCount(ds)
  {
    if ds != [] {
      CountsPartition(ds[..|ds| - 1]);
      ThreeActions(ds[|ds| - 1]);
    }
  }
}
