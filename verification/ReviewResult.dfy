/** Finalising a result: the derived fields, the conclusion, and what reports and storage are given. */
module ReviewResult {
  import opened Text
  import opened Findings
  import opened ModelReview
  import opened Records

  datatype Status = Pass | NeedsHumanReview | Fail

  function Level(s: Status): nat {
    match s
    case Pass => 0
    case NeedsHumanReview => 1
    case Fail => 2
  }

  datatype Conclusion = Conclusion(status: Status, reason: string)

  datatype Metrics = Metrics(mode: string, sandboxRequested: bool, sandboxExecuted: bool, modelRequested: bool,
                             modelExecuted: bool, totalDurationMs: int, sandboxDurationMs: int,
                             modelDurationMs: int, toolCallCount: int, modelCallCount: int, modelProvider: string,
                             modelName: string, modelBackend: string, permissionBlocks: int, findingCount: int,
                             modelFindingCount: int, modelExceptionCount: int, severityCounts: map<string, int>,
                             redactionCount: int)

  datatype DecisionSummary = DecisionSummary(command: string, action: string, reason: string)

  datatype RunSummary = RunSummary(command: string, runtime: string, status: string, timeoutMs: int,
                                   outputLimit: int, envWhitelist: string, exitCode: int, stdoutDigest: string,
                                   stderrDigest: string, durationMs: int)

  datatype Artifact = Artifact(name: string, kind: string, path: string, digest: string)

  /** A review result without its map of exception counts, which Go shares between copies of a result. */
  datatype Body = Body(taskId: string, lists: Lists, humanItems: seq<Finding>, metrics: Metrics,
                       inputMetadata: seq<string>, decisions: seq<DecisionSummary>, permissionBlocks: int,
                       runs: seq<RunSummary>, artifacts: seq<Artifact>, summary: string, conclusion: Conclusion,
                       created: int)

  /** A mutable map of exception counts. */
  class Counter {
    var counts: map<string, int>

    constructor ()
      ensures counts == map[]
    {
      counts := map[];
    }

    method Increment(key: string)
      modifies this
      ensures counts == Bump(old(counts), key)
    {
      counts := counts[key := (if key in counts then counts[key] else 0) + 1];
    }

    method Delete(key: string)
      modifies this
      ensures counts == old(counts) - {key}
    {
      counts := counts - {key};
    }
  }

  function Bump(m: map<string, int>, key: string): map<string, int> {
    m[key := (if key in m then m[key] else 0) + 1]
  }

  // ----- derived fields -----

  predicate Blocking(f: Finding) {
    Lower(f.severity) == "critical" || Lower(f.severity) == "high"
  }

  predicate HasBlocking(fs: seq<Finding>) {
    fs != [] && (HasBlocking(fs[..|fs| - 1]) || Blocking(fs[|fs| - 1]))
  }

  predicate AsksHuman(f: Finding) {
    f.status == HUMAN_REVIEW || f.status == "ask"
  }

  function Asking(warnings: seq<Finding>): seq<Finding> {
    if warnings == [] then []
    else
      var last := warnings[|warnings| - 1];
      Asking(warnings[..|warnings| - 1]) + if AsksHuman(last) then [last] else []
  }

  method HumanReviewItems(warnings: seq<Finding>) returns (r: seq<Finding>)
    ensures r == Dedupe(Asking(warnings))
  {
    var out: seq<Finding> := [];
    for i := 0 to |warnings|
      invariant out == Asking(warnings[..i])
    {
      assert warnings[..i + 1][..i] == warnings[..i];
      ConcatNil(out);
      if AsksHuman(warnings[i]) {
        out := out + [warnings[i]];
      }
    }
    assert warnings[..|warnings|] == warnings;
    r := DedupeFindings(out);
  }

  /** How many findings have a severity. */
  function CountOf(fs: seq<Finding>, severity: string): nat {
    if fs == [] then 0
    else CountOf(fs[..|fs| - 1], severity) + if fs[|fs| - 1].severity == severity then 1 else 0
  }

  function SeverityCounts(fs: seq<Finding>): map<string, int> {
    if fs == [] then map[] else Bump(SeverityCounts(fs[..|fs| - 1]), fs[|fs| - 1].severity)
  }

  /** Counting on from the counts of earlier findings. */
  method AddSeverities(start: map<string, int>, ghost before: seq<Finding>, fs: seq<Finding>)
    returns (out: map<string, int>)
    requires start == SeverityCounts(before)
    ensures out == SeverityCounts(before + fs)
  {
    out := start;
    ConcatNil(before);
    for i := 0 to |fs|
      invariant out == SeverityCounts(before + fs[..i])
    {
      assert (before + fs[..i + 1])[..|before| + i] == before + fs[..i];
      out := Bump(out, fs[i].severity);
    }
    assert fs[..|fs|] == fs;
  }

  method CountSeverities(lists: Lists) returns (out: map<string, int>)
    ensures out == SeverityCounts(lists.findings + lists.warnings)
  {
    out := AddSeverities(map[], [], lists.findings);
    ConcatNil(lists.findings);
    out := AddSeverities(out, lists.findings, lists.warnings);
  }

  predicate Blocks(d: Decision) {
    !ZeroDecision(d) && d.action != "allow" && d.action != "dry_run"
  }

  function BlockCount(ds: seq<Decision>): nat {
    if ds == [] then 0 else BlockCount(ds[..|ds| - 1]) + if Blocks(ds[|ds| - 1]) then 1 else 0
  }

  method PermissionBlockCount(ds: seq<Decision>) returns (blocks: nat)
    ensures blocks == BlockCount(ds)
  {
    blocks := 0;
    for i := 0 to |ds|
      invariant blocks == BlockCount(ds[..i])
    {
      assert ds[..i + 1][..i] == ds[..i];
      if ds[i].command == "" && ds[i].action == "" {
        continue;
      }
      if ds[i].action != "allow" && ds[i].action != "dry_run" {
        blocks := blocks + 1;
      }
    }
    assert ds[..|ds|] == ds;
  }

  predicate Failing(r: SandboxRun) {
    r.status == "failed" || r.status == "error" || r.status == "timed_out"
  }

  function FailingCount(rs: seq<SandboxRun>): nat {
    if rs == [] then 0 else FailingCount(rs[..|rs| - 1]) + if Failing(rs[|rs| - 1]) then 1 else 0
  }

  predicate Started(rs: seq<SandboxRun>) {
    exists i :: 0 <= i < |rs| && rs[i].executionStarted && rs[i].command != SKILL_COMMAND
  }

  function TotalDuration(rs: seq<SandboxRun>): int {
    if rs == [] then 0 else TotalDuration(rs[..|rs| - 1]) + rs[|rs| - 1].durationMs
  }

  function RedactionCount(fs: seq<Finding>): nat {
    if fs == [] then 0
    else RedactionCount(fs[..|fs| - 1]) + if Contains(fs[|fs| - 1].evidence, "[REDACTED]") then 1 else 0
  }

  function DecisionSummaries(ds: seq<Decision>): seq<DecisionSummary> {
    if ds == [] then []
    else
      var d := ds[|ds| - 1];
      DecisionSummaries(ds[..|ds| - 1])
      + if ZeroDecision(d) then [] else [DecisionSummary(d.command, d.action, d.reason)]
  }

  function RunSummaries(rs: seq<SandboxRun>): seq<RunSummary> {
    if rs == [] then []
    else
      var r := rs[|rs| - 1];
      RunSummaries(rs[..|rs| - 1])
      + if r.command == "" then []
        else [RunSummary(r.command, r.runtime, r.status, r.timeoutMs, r.outputLimit, r.envWhitelist, r.exitCode,
                         r.stdoutDigest, r.stderrDigest, r.durationMs)]
  }

  const ReportArtifacts := [
    Artifact("review_report.json", "report", "review_report.json", ""),
    Artifact("review_report.md", "report", "review_report.md", ""),
    Artifact("review_report.zh.md", "report", "review_report.zh.md", ""),
    Artifact("review_diagnostics.json", "diagnostic", "review_diagnostics.json", "")
  ]

  predicate SandboxException(counts: map<string, int>) {
    exists name :: name in counts && counts[name] > 0 && Contains(name, "sandbox")
  }

  function Verdict(findings: seq<Finding>, humanItems: seq<Finding>, counts: map<string, int>): Conclusion {
    if HasBlocking(findings) then Conclusion(Fail, "blocking_findings")
    else if |humanItems| > 0 || SandboxException(counts) then Conclusion(NeedsHumanReview, "review_required")
    else Conclusion(Pass, "no_blocking_findings")
  }

  // ----- finalising -----

  datatype ModelSummary = ModelSummary(callCount: int, findingCount: int, durationMs: int, exceptionCount: int,
                                       provider: string, name: string, backend: string)

  datatype Plan = Plan(mode: string, sandboxRequested: bool, modelRequested: bool)

  datatype ReviewContext = ReviewContext(taskId: string, inputMetadata: seq<string>, toolCallCount: int,
                                         decisions: seq<Decision>, runs: seq<SandboxRun>, model: ModelSummary,
                                         plan: Plan)

  /** The two readings of the clock during a finalisation. */
  datatype Clock = Clock(now: int, sinceStartMs: int)

  function FinalMetrics(lists: Lists, ctx: ReviewContext, clock: Clock): Metrics {
    Metrics(ctx.plan.mode, ctx.plan.sandboxRequested, Started(ctx.runs), ctx.plan.modelRequested,
            ctx.model.callCount > 0, clock.sinceStartMs, TotalDuration(ctx.runs), ctx.model.durationMs,
            ctx.toolCallCount, ctx.model.callCount, ctx.model.provider, ctx.model.name, ctx.model.backend,
            BlockCount(ctx.decisions), |lists.findings|, ctx.model.findingCount, ctx.model.exceptionCount,
            SeverityCounts(lists.findings + lists.warnings), RedactionCount(lists.findings + lists.warnings))
  }

  function FinalCounts(counts: map<string, int>, runs: seq<SandboxRun>): map<string, int> {
    var rest := counts - {"sandbox_failed"};
    if FailingCount(runs) == 0 then rest else rest["sandbox_failed" := FailingCount(runs)]
  }

  /** The finalised result, as a function of the two lists, the exception counts and the context. */
  function Finalise(lists: Lists, counts: map<string, int>, ctx: ReviewContext, clock: Clock): Body {
    var human := Dedupe(Asking(lists.warnings));
    Body(ctx.taskId, lists, human, FinalMetrics(lists, ctx, clock), ctx.inputMetadata,
         DecisionSummaries(ctx.decisions), BlockCount(ctx.decisions), RunSummaries(ctx.runs), ReportArtifacts,
         Itoa(|lists.findings|) + " findings, " + Itoa(|lists.warnings|) + " warnings",
         Verdict(lists.findings, human, FinalCounts(counts, ctx.runs)), clock.now)
  }

  method FinalizeReviewResult(result: Body, exceptions: Counter?, ctx: ReviewContext, clock: Clock)
    returns (out: Body, shared: Counter)
    modifies exceptions
    ensures var counts := if exceptions == null then map[] else old(exceptions.counts);
            out == Finalise(result.lists, counts, ctx, clock) && shared.counts == FinalCounts(counts, ctx.runs)
    ensures exceptions != null ==> shared == exceptions
    ensures exceptions == null ==> fresh(shared)
  {
    var severities := CountSeverities(result.lists);
    if exceptions == null {
      shared := new Counter();
    } else {
      shared := exceptions;
    }
    ghost var counts := shared.counts;
    shared.Delete("sandbox_failed");
    for i := 0 to |ctx.runs|
      modifies shared
      invariant shared.counts == FinalCounts(counts, ctx.runs[..i])
    {
      assert ctx.runs[..i + 1][..i] == ctx.runs[..i];
      if Failing(ctx.runs[i]) {
        shared.Increment("sandbox_failed");
      }
    }
    assert ctx.runs[..|ctx.runs|] == ctx.runs;
    var blocks := PermissionBlockCount(ctx.decisions);
    var human := HumanReviewItems(result.lists.warnings);
    var metrics := FinalMetrics(result.lists, ctx, clock).(severityCounts := severities, permissionBlocks := blocks);
    out := result.(taskId := ctx.taskId, created := clock.now, inputMetadata := ctx.inputMetadata,
                   metrics := metrics, humanItems := human, decisions := DecisionSummaries(ctx.decisions),
                   permissionBlocks := blocks, runs := RunSummaries(ctx.runs), artifacts := ReportArtifacts,
                   summary := Itoa(|result.lists.findings|) + " findings, "
                              + Itoa(|result.lists.warnings|) + " warnings");
    out := out.(conclusion := Verdict(out.lists.findings, out.humanItems, shared.counts));
  }
}
