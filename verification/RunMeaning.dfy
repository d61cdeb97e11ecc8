/** What a complete run tells: its events, its conclusion, and what errors of the Skill and the model leave in it. */
module RunMeaning {
  import opened Wrappers
  import opened Text
  import opened Findings
  import opened ModelReview
  import opened Records
  import opened ReviewResult
  import opened ReviewLaws
  import opened ResultMeaning
  import opened Governance
  import opened ReviewChecks
  import opened Lifecycle

  // ----- events -----

  lemma {:induction false} RunNoticesAre(runs: seq<SandboxRun>)
    ensures |RunNotices(runs)| == |runs| + 1 && RunNotices(runs)[0] == SkillRan
    ensures forall i :: 0 <= i < |runs| ==> RunNotices(runs)[i + 1] == SandboxRan(runs[i].command)
  {
    if runs != [] {
      RunNoticesAre(runs[..|runs| - 1]);
    }
  }

  /** The positions of findings that come from a model, real or not. */
  function FromModel(fs: seq<Finding>): set<int> {
    set i | 0 <= i < |fs| && (fs[i].source == "model" || fs[i].source == "fake_model")
  }

  lemma {:induction false} ModelSourcesAre(fs: seq<Finding>)
    ensures ModelSources(fs) == |FromModel(fs)|
  {
    if fs != [] {
      var n := |fs| - 1;
      ModelSourcesAre(fs[..n]);
      assert FromModel(fs) == FromModel(fs[..n])
                              + if fs[n].source == "model" || fs[n].source == "fake_model" then {n} else {};
    }
  }

  /** What is told of a model: how many findings and warnings of the result come from one, or one exception. */
  predicate TellsModel(n: Notice, lists: Lists, output: ModelOutput) {
    n == if output.Answer? then ModelReviewed(|FromModel(lists.findings)| + |FromModel(lists.warnings)|, 0)
         else ModelReviewed(0, 1)
  }

  /** The events of a run between its input and its end: the Skill, every recorded run by its command in order, the
      model if one was asked, and the reports if they were written. */
  lemma NoticesTell(cfg: Config, world: World, plan: Plan, input: Input, a: Audit, reported: bool)
    requires a.output.Some? ==> world.provider.Some?
    ensures var ns := Notices(cfg, world, plan, input, a, reported);
            var n := |a.runs| + 1;
            && |ns| == n + (if a.output.Some? then 1 else 0) + (if reported then 1 else 0)
            && ns[0] == SkillRan && (forall i :: 0 <= i < |a.runs| ==> ns[i + 1] == SandboxRan(a.runs[i].command))
            && (a.output.Some? ==> TellsModel(ns[n], FinalLists(cfg, world.taskId, a), a.output.value))
            && (reported ==> ns[|ns| - 1] == ReportWritten)
  {
    RunNoticesAre(a.runs);
    ModelNoticeTells(cfg, world, plan, input, a);
    Joined(RunNotices(a.runs), ModelNotices(cfg, world, plan, input, a), if reported then [ReportWritten] else []);
  }

  lemma ModelNoticeTells(cfg: Config, world: World, plan: Plan, input: Input, a: Audit)
    requires a.output.Some? ==> world.provider.Some?
    ensures var ns := ModelNotices(cfg, world, plan, input, a);
            if a.output.None? then ns == []
            else |ns| == 1 && TellsModel(ns[0], FinalLists(cfg, world.taskId, a), a.output.value)
  {
    var lists := FinalLists(cfg, world.taskId, a);
    ModelSourcesAre(lists.findings);
    ModelSourcesAre(lists.warnings);
  }

  lemma Joined(first: seq<Notice>, second: seq<Notice>, last: seq<Notice>)
    ensures var ns := first + second + last;
            && |ns| == |first| + |second| + |last| && (forall i :: 0 <= i < |first| ==> ns[i] == first[i])
            && (forall i :: 0 <= i < |second| ==> ns[|first| + i] == second[i])
            && (last != [] ==> ns[|ns| - 1] == last[|last| - 1])
  {}

  // ----- the result -----

  /** A warning that asks for a human, of the given rule. */
  predicate AsksBy(w: Finding, ruleId: string, evidence: string) {
    w.status == "needs_human_review" && w.ruleId == ruleId && w.evidence == evidence && w.severity == "low"
  }

  /** An error of the Skill step becomes one more warning, the last, and one exception; it changes no finding. */
  lemma SkillErrorTells(redact: Redactor, lists: Lists, message: string)
    ensures var noted := WithRunError(redact, lists, Some(message));
            && noted.findings == lists.findings && |noted.warnings| == |lists.warnings| + 1
            && noted.warnings[..|lists.warnings|] == lists.warnings
            && AsksBy(noted.warnings[|lists.warnings|], "sandbox-command-failed", redact(message))
    ensures RunErrorCounts(Some(message)) == map["skill_run" := 1] && RunErrorCounts(None) == map[]
  {}

  /** A failure of the model's provider does the same, with an exception of its own. */
  lemma ModelErrorTells(redact: Redactor, lists: Lists, taskId: string, message: string, counts: map<string, int>)
    ensures var noted := ListsAfter(redact, lists, taskId, ProviderError(message));
            && noted.findings == lists.findings && |noted.warnings| == |lists.warnings| + 1
            && noted.warnings[..|lists.warnings|] == lists.warnings
            && AsksBy(noted.warnings[|lists.warnings|], "model-provider-failed", redact(taskId + ": " + message))
    ensures CountsAfter(counts, ProviderError(message))
         == counts["model_provider" := (if "model_provider" in counts then counts["model_provider"] else 0) + 1]
  {}

  lemma CountedNames(a: Audit, name: string)
    requires name in CountsBefore(a)
    ensures name == "skill_run" || name == "model_provider"
  {}

  lemma NoSandboxException(a: Audit)
    ensures !OtherSandboxException(CountsBefore(a))
  {
    OtherNames();
    forall name | name in CountsBefore(a)
      ensures !Contains(name, "sandbox")
    {
      CountedNames(a, name);
    }
  }

  lemma OtherNames()
    ensures !Contains("skill_run", "sandbox") && !Contains("model_provider", "sandbox")
  {
    forall k
      ensures !OccursAt("skill_run", "sandbox", k) && !OccursAt("model_provider", "sandbox", k)
    {
      NotIn("skill_run", k);
      NotIn("model_provider", k);
    }
  }

  /** A text without an x does not contain the word. */
  lemma NotIn(s: string, k: int)
    requires forall i :: 0 <= i < |s| ==> s[i] != 'x'
    ensures !OccursAt(s, "sandbox", k)
  {
    if 0 <= k && k + 7 <= |s| {
      assert s[k..k + 7][6] == s[k + 6] && "sandbox"[6] == 'x';
    }
  }

  /** The conclusion of a run: fail when some finding of its final lists is critical or high; else a review when a final
      warning asks for one or a recorded run failed; else pass. */
  lemma RunConcludes(cfg: Config, world: World, plan: Plan, input: Input, a: Audit)
    ensures var lists, c := FinalLists(cfg, world.taskId, a), ResultOf(cfg, world, plan, input, a).conclusion;
            if SomeSevere(lists.findings) then c == Conclusion(Status.Fail, "blocking_findings")
            else if SomeoneAsked(lists.warnings) || SomeRunFailed(a.runs)
            then c == Conclusion(NeedsHumanReview, "review_required")
            else c == Conclusion(Pass, "no_blocking_findings")
  {
    ConclusionIs(FinalLists(cfg, world.taskId, a), CountsBefore(a), ContextOf(cfg, world, plan, input, a), a.clock);
    NoSandboxException(a);
  }
}
