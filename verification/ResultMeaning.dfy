/** What a finalised result says, told by the findings, warnings, runs and decisions it was made of. */
module ResultMeaning {
  import opened Text
  import opened Findings
  import opened ModelReview
  import opened Records
  import opened ReviewResult
  import opened ReviewLaws
  import opened Governance
  import opened Picking

  // ----- the conclusion -----

  /** Some finding is critical or high, in any case. */
  predicate SomeSevere(fs: seq<Finding>) {
    exists f :: f in fs && (EqualFold(f.severity, "critical") || EqualFold(f.severity, "high"))
  }

  predicate SomeoneAsked(ws: seq<Finding>) {
    exists w :: w in ws && (w.status == "needs_human_review" || w.status == "ask")
  }

  predicate SomeRunFailed(rs: seq<SandboxRun>) {
    exists r :: r in rs && (r.status == "failed" || r.status == "error" || r.status == "timed_out")
  }

  /** Some exception about the sandbox was counted, other than the count of failed runs, which is made anew. */
  predicate OtherSandboxException(counts: map<string, int>) {
    exists name :: name in counts && name != "sandbox_failed" && counts[name] > 0 && Contains(name, "sandbox")
  }

  lemma SevereIs(fs: seq<Finding>)
    ensures HasBlocking(fs) <==> SomeSevere(fs)
  {
    BlockingMember(fs);
    forall f: Finding
      ensures Blocking(f) <==> EqualFold(f.severity, "critical") || EqualFold(f.severity, "high")
    {
      LowerIsWord(f.severity, "critical");
      LowerIsWord(f.severity, "high");
    }
  }

  lemma {:induction false} FailedIs(rs: seq<SandboxRun>)
    ensures FailingCount(rs) > 0 <==> SomeRunFailed(rs)
  {
    if rs != [] {
      FailedIs(rs[..|rs| - 1]);
      LastSplits(rs);
    }
  }

  lemma SandboxFailedNamesIt()
    ensures Contains("sandbox_failed", "sandbox")
  {
    assert OccursAt("sandbox_failed", "sandbox", 0);
  }

  lemma ExceptionIs(counts: map<string, int>, runs: seq<SandboxRun>)
    ensures SandboxException(FinalCounts(counts, runs)) <==> SomeRunFailed(runs) || OtherSandboxException(counts)
  {
    var final := FinalCounts(counts, runs);
    FailedIs(runs);
    SandboxFailedNamesIt();
    if FailingCount(runs) > 0 {
      assert "sandbox_failed" in final && final["sandbox_failed"] > 0;
    } else if OtherSandboxException(counts) {
      var name :| name in counts && name != "sandbox_failed" && counts[name] > 0 && Contains(name, "sandbox");
      assert name in final && final[name] == counts[name];
    }
  }

  /** The conclusion of a finalised result, with its reason: fail when a finding is critical or high; else a review when
      a warning asks for one, a run failed, or another exception names the sandbox; else pass. */
  lemma ConclusionIs(lists: Lists, counts: map<string, int>, ctx: ReviewContext, clock: Clock)
    ensures Finalise(lists, counts, ctx, clock).conclusion
         == if SomeSevere(lists.findings) then Conclusion(Fail, "blocking_findings")
            else if SomeoneAsked(lists.warnings) || SomeRunFailed(ctx.runs) || OtherSandboxException(counts)
            then Conclusion(NeedsHumanReview, "review_required")
            else Conclusion(Pass, "no_blocking_findings")
  {
    SevereIs(lists.findings);
    HumanItemsExist(lists.warnings);
    AskingMember(lists.warnings);
    ExceptionIs(counts, ctx.runs);
  }

  // ----- metrics and summaries -----

  /** The positions whose evidence was redacted. */
  function Redacted(fs: seq<Finding>): set<int> {
    set i | 0 <= i < |fs| && IsRedacted(fs[i])
  }

  predicate IsRedacted(f: Finding) {
    Contains(f.evidence, "[REDACTED]")
  }

  lemma {:induction false} RedactionCountIs(fs: seq<Finding>)
    ensures RedactionCount(fs) == |Redacted(fs)|
  {
    if fs != [] {
      RedactionCountIs(fs[..|fs| - 1]);
      RedactedSnoc(fs, IsRedacted(fs[|fs| - 1]));
    }
  }

  lemma RedactedSnoc(fs: seq<Finding>, last: bool)
    requires fs != [] && IsRedacted(fs[|fs| - 1]) == last
    ensures |Redacted(fs)| == |Redacted(fs[..|fs| - 1])| + if last then 1 else 0
  {
    var n := |fs| - 1;
    assert Redacted(fs) == Redacted(fs[..n]) + if last then {n} else {};
  }

  /** The positions of recorded decisions that were neither allowed nor a dry run. */
  function Blocked(ds: seq<Decision>): set<int> {
    set i | 0 <= i < |ds| && IsBlocked(ds[i])
  }

  predicate IsBlocked(d: Decision) {
    !(d.command == "" && d.action == "") && d.action != "allow" && d.action != "dry_run"
  }

  lemma {:induction false} BlockCountIs(ds: seq<Decision>)
    ensures BlockCount(ds) == |Blocked(ds)|
  {
    if ds != [] {
      var n := |ds| - 1;
      BlockCountIs(ds[..n]);
      assert Blocked(ds) == Blocked(ds[..n]) + if IsBlocked(ds[n]) then {n} else {};
    }
  }

  /** The duration of runs is additive. */
  lemma {:induction false} DurationsAdd(a: seq<SandboxRun>, b: seq<SandboxRun>)
    ensures TotalDuration(a + b) == TotalDuration(a) + TotalDuration(b)
  {
    if b == [] {
      ConcatNil(a);
    } else {
      assert (a + b)[..|a + b| - 1] == a + b[..|b| - 1];
      DurationsAdd(a, b[..|b| - 1]);
    }
  }

  lemma OneDuration(r: SandboxRun)
    ensures TotalDuration([]) == 0 && TotalDuration([r]) == r.durationMs
  {
    assert [r][..0] == [];
  }

  const RealDecision: Decision -> bool := (d: Decision) => !(d.command == "" && d.action == "")
  const SummarisedDecision: Decision -> DecisionSummary :=
    (d: Decision) => DecisionSummary(d.command, d.action, d.reason)
  const NamedRun: SandboxRun -> bool := (r: SandboxRun) => r.command != ""
  const SummarisedRun: SandboxRun -> RunSummary :=
    (r: SandboxRun) => RunSummary(r.command, r.runtime, r.status, r.timeoutMs, r.outputLimit, r.envWhitelist,
                                  r.exitCode, r.stdoutDigest, r.stderrDigest, r.durationMs)

  lemma {:induction false} DecisionsPicked(ds: seq<Decision>)
    ensures Picks(ds, RealDecision, SummarisedDecision, DecisionSummaries(ds))
  {
    if ds == [] {
      PicksNone(RealDecision, SummarisedDecision);
    } else {
      var init, d := ds[..|ds| - 1], ds[|ds| - 1];
      DecisionsPicked(init);
      PicksSnoc(init, RealDecision, SummarisedDecision, DecisionSummaries(init), d);
      LastSplits(ds);
      ConcatNil(DecisionSummaries(init));
    }
  }

  lemma {:induction false} RunsPicked(rs: seq<SandboxRun>)
    ensures Picks(rs, NamedRun, SummarisedRun, RunSummaries(rs))
  {
    if rs == [] {
      PicksNone(NamedRun, SummarisedRun);
    } else {
      var init, r := rs[..|rs| - 1], rs[|rs| - 1];
      RunsPicked(init);
      PicksSnoc(init, NamedRun, SummarisedRun, RunSummaries(init), r);
      LastSplits(rs);
      ConcatNil(RunSummaries(init));
    }
  }

  /** What the other fields of a finalised result count and list: every number is that of what it names, and the
      summaries list, in order, the decisions with a command or an action and the runs with a command. */
  lemma ResultSays(lists: Lists, counts: map<string, int>, ctx: ReviewContext, clock: Clock)
    ensures var b := Finalise(lists, counts, ctx, clock);
            var m := b.metrics;
            && b.taskId == ctx.taskId && b.lists == lists && b.created == clock.now
            && b.inputMetadata == ctx.inputMetadata
            && m.findingCount == |lists.findings| && m.redactionCount == |Redacted(lists.findings + lists.warnings)|
            && m.permissionBlocks == |Blocked(ctx.decisions)| && b.permissionBlocks == m.permissionBlocks
            && m.totalDurationMs == clock.sinceStartMs && m.sandboxDurationMs == TotalDuration(ctx.runs)
            && m.modelDurationMs == ctx.model.durationMs && (m.modelExecuted <==> ctx.model.callCount > 0)
            && m.modelCallCount == ctx.model.callCount && m.modelFindingCount == ctx.model.findingCount
            && m.modelExceptionCount == ctx.model.exceptionCount && m.toolCallCount == ctx.toolCallCount
            && m.modelProvider == ctx.model.provider && m.modelName == ctx.model.name
            && m.modelBackend == ctx.model.backend && m.mode == ctx.plan.mode
            && m.sandboxRequested == ctx.plan.sandboxRequested && m.modelRequested == ctx.plan.modelRequested
            && Picks(ctx.decisions, RealDecision, SummarisedDecision, b.decisions)
            && Picks(ctx.runs, NamedRun, SummarisedRun, b.runs)
  {
    RedactionCountIs(lists.findings + lists.warnings);
    BlockCountIs(ctx.decisions);
    DecisionsPicked(ctx.decisions);
    RunsPicked(ctx.runs);
  }
}
