/** The verdict of a complete run, with and without a model. */
module RunVerdict {
  import opened Wrappers
  import opened Text
  import opened Findings
  import opened ModelReview
  import opened Records
  import opened ReviewResult
  import opened ReviewLaws
  import opened Commands
  import opened Governance
  import opened ReviewChecks
  import opened Lifecycle

  /** The last warning asks for a repository, and the Skill's own warnings already hold its key. */
  predicate AskedTwice(needsRepo: bool, warnings: seq<Finding>) {
    needsRepo && warnings != [] && Key(RepoRequired) in Keys(warnings[..|warnings| - 1])
  }

  lemma RulesDiffer()
    ensures Normal("sandbox-repo-required") != Normal("sandbox-command-failed")
  {
    NormalOfPlain("sandbox-repo-required");
    NormalOfPlain("sandbox-command-failed");
    assert |"sandbox-repo-required"| != |"sandbox-command-failed"|;
  }

  lemma DifferentRules(f: Finding, g: Finding)
    requires Normal(f.ruleId) != Normal(g.ruleId) && f.file == g.file == "" && f.category == g.category == "sandbox"
    ensures Key(f) != Key(g)
  {
    assert !Bar("sandbox");
    KeyIsInjective(f, g);
  }

  lemma RepoAndFailureDiffer(redact: Redactor, message: string)
    ensures Key(RepoRequired) != Key(CommandFailed(redact, message))
  {
    RulesDiffer();
    DifferentRules(RepoRequired, CommandFailed(redact, message));
  }

  lemma ErrorDistinct(redact: Redactor, needsRepo: bool, message: string)
    ensures BothDistinct(WithRunError(redact, CheckedLists(NoLists, needsRepo), Some(message)))
  {
    var f, g := RepoRequired, CommandFailed(redact, message);
    RepoAndFailureDiffer(redact, message);
    OneDistinct(f);
    OneDistinct(g);
    SnocKeys([], f);
    SnocKeys([f], g);
    ConcatNil([f]);
    ConcatNil([g]);
  }

  lemma OneAskedOnce(needsRepo: bool, f: Finding)
    ensures !AskedTwice(needsRepo, []) && !AskedTwice(needsRepo, [f])
  {
    assert [f][..0] == [];
  }

  /** What the checks leave: findings and warnings without repeated keys, except that the Skill may have asked for a
      repository as well. After an error only that request is left. */
  predicate Left(needsRepo: bool, lists: Lists, error: Option<string>) {
    && Distinct(lists.findings) && (Distinct(lists.warnings) <==> !AskedTwice(needsRepo, lists.warnings))
    && (error.Some? ==> lists == NoLists || lists == CheckedLists(NoLists, needsRepo))
    && (AskedTwice(needsRepo, lists.warnings) ==>
          lists.warnings[|lists.warnings| - 1] == RepoRequired && Distinct(lists.warnings[..|lists.warnings| - 1]))
  }

  lemma OneLeft(needsRepo: bool, f: Finding, error: Option<string>)
    ensures Left(needsRepo, NoLists, error) && Left(needsRepo, Lists([], [f]), None)
  {
    OneDistinct(f);
    OneAskedOnce(needsRepo, f);
  }

  lemma SkillLeft(cfg: Config, loading: Option<string>, trace: seq<Event>, needsRepo: bool)
    ensures Left(needsRepo, CheckedLists(SkillResult(cfg, loading, trace).0, needsRepo),
                 SkillResult(cfg, loading, trace).1)
  {
    var skill := SkillResult(cfg, loading, trace).0;
    SkillListsDistinct(cfg, loading, trace);
    CheckedListsDistinct(cfg, loading, trace, needsRepo);
    assert (skill.warnings + [RepoRequired])[..|skill.warnings|] == skill.warnings;
  }

  lemma ChecksLeft(cfg: Config, world: World, plan: Plan, input: Input, loading: Option<string>, trace: seq<Event>,
                   extra: seq<Decision>, a: Audit)
    requires ChecksFound(cfg, world, plan, input, loading, trace, extra, a)
    ensures Left(NeedsRepo(plan, world.repoPath), a.lists, a.error)
  {
    var needsRepo := NeedsRepo(plan, world.repoPath);
    if DryRun(plan) {
      OneLeft(needsRepo, DryRunWarning, a.error);
    } else if cfg.runtime == E2B {
      OneLeft(needsRepo, UnsupportedWarning, None);
    } else {
      var k :| 0 <= k <= |trace| && ReviewSplit(cfg, plan, world.repoPath, input.diff, loading, trace[..k], trace[k..],
                                                a.lists, a.error);
      SkillLeft(cfg, loading, trace[..k], needsRepo);
    }
  }

  /** The lists a run goes to the model with repeat no key, unless the Skill asked for a repository as well. */
  lemma ErrorKeepsDistinct(redact: Redactor, needsRepo: bool, lists: Lists, error: Option<string>)
    requires Left(needsRepo, lists, error) && Distinct(lists.warnings)
    ensures BothDistinct(WithRunError(redact, lists, error))
  {
    if error.Some? {
      ErrorDistinct(redact, false, error.value);
      ErrorDistinct(redact, needsRepo, error.value);
    }
  }

  /** The verdict of a run before a model is asked. */
  function StatusBefore(cfg: Config, world: World, plan: Plan, input: Input, a: Audit): Status {
    ResultOf(cfg, world, plan, input, a.(output := None)).conclusion.status
  }

  function StatusAfter(cfg: Config, world: World, plan: Plan, input: Input, a: Audit): Status {
    ResultOf(cfg, world, plan, input, a).conclusion.status
  }

  lemma StatusBeforeIs(cfg: Config, world: World, plan: Plan, input: Input, a: Audit)
    ensures StatusBefore(cfg, world, plan, input, a)
         == VerdictOf(WithRunError(cfg.redact, a.lists, a.error), RunErrorCounts(a.error),
                      ContextOf(cfg, world, plan, input, a))
  {}

  /** Asking a model never weakens the verdict of a run whose warnings repeat no key. */
  lemma RunNeverWeakens(cfg: Config, world: World, plan: Plan, input: Input, loading: Option<string>,
                        trace: seq<Event>, extra: seq<Decision>, a: Audit)
    requires Explains(cfg, world, plan, input, loading, trace, extra, a) && Distinct(a.lists.warnings)
    ensures Level(StatusBefore(cfg, world, plan, input, a)) <= Level(StatusAfter(cfg, world, plan, input, a))
  {
    if a.output.Some? {
      var lists := WithRunError(cfg.redact, a.lists, a.error);
      ChecksLeft(cfg, world, plan, input, loading, trace, extra, a);
      ErrorKeepsDistinct(cfg.redact, NeedsRepo(plan, world.repoPath), a.lists, a.error);
      ModelNeverWeakens(cfg.redact, lists, RunErrorCounts(a.error), ContextOf(cfg, world, plan, input, a),
                        a.output.value);
    }
  }

  lemma FirstsOfRepeated(fs: seq<Finding>, f: Finding)
    requires Distinct(fs) && Key(f) in Keys(fs)
    ensures Firsts(fs + [f]) == fs
  {
    SnocFirsts({}, fs, f);
    FirstsOfDistinct(fs);
  }

  /** The request for a repository is the only reason for a review, it is the Skill's second of that key, and neither
      the other warnings, nor the model, nor the sandbox runs give another. */
  predicate OnlyAskedTwice(cfg: Config, needsRepo: bool, a: Audit, ms: seq<Finding>) {
    && AskedTwice(needsRepo, a.lists.warnings)
    && !HasAsking(a.lists.warnings[..|a.lists.warnings| - 1])
    && !HasBlocking(a.lists.findings) && !BringsBlocker(cfg.redact, a.lists, ms)
    && Lows(News(cfg.redact, a.lists, ms)) == [] && !SandboxException(FinalCounts(map[], a.runs))
  }

  /** With a repeated key, what an answer does. */
  lemma RepeatedWeakens(cfg: Config, lists: Lists, ctx: ReviewContext, ms: seq<Finding>)
    requires Left(true, lists, None) && AskedTwice(true, lists.warnings)
    ensures Level(VerdictOf(Merge(cfg.redact, lists, ms), map[], ctx)) < Level(VerdictOf(lists, map[], ctx))
       <==> && !HasAsking(lists.warnings[..|lists.warnings| - 1])
            && !HasBlocking(lists.findings) && !BringsBlocker(cfg.redact, lists, ms)
            && Lows(News(cfg.redact, lists, ms)) == [] && !SandboxException(FinalCounts(map[], ctx.runs))
  {
    var own := lists.warnings[..|lists.warnings| - 1];
    LastSplits(lists.warnings);
    FirstsOfRepeated(own, RepoRequired);
    FirstsOfDistinct(lists.findings);
    AnswerWeakensWhen(cfg.redact, lists, map[], ctx, ms);
    assert AsksHuman(RepoRequired);
  }

  /** The verdict of a run is weakened exactly when a model answered, and the one reason for a review was a request for
      a repository that the Skill had made as well. */
  lemma RunWeakensExactly(cfg: Config, world: World, plan: Plan, input: Input, loading: Option<string>,
                          trace: seq<Event>, extra: seq<Decision>, a: Audit)
    requires Explains(cfg, world, plan, input, loading, trace, extra, a)
    ensures Level(StatusAfter(cfg, world, plan, input, a)) < Level(StatusBefore(cfg, world, plan, input, a))
       <==> && a.output.Some? && a.output.value.Answer?
            && OnlyAskedTwice(cfg, NeedsRepo(plan, world.repoPath), a, a.output.value.findings)
  {
    var needsRepo := NeedsRepo(plan, world.repoPath);
    ChecksLeft(cfg, world, plan, input, loading, trace, extra, a);
    if !AskedTwice(needsRepo, a.lists.warnings) {
      RunNeverWeakens(cfg, world, plan, input, loading, trace, extra, a);
    } else {
      ErrorLeaves(needsRepo, a.lists, a.error);
      StatusBeforeIs(cfg, world, plan, input, a);
      if a.output.Some? {
        StatusAfterIs(cfg, world, plan, input, a);
        RepeatedKeyWeakens(cfg, a.lists, ContextOf(cfg, world, plan, input, a), a.output.value);
      }
    }
  }

  lemma RepeatedKeyWeakens(cfg: Config, lists: Lists, ctx: ReviewContext, output: ModelOutput)
    requires Left(true, lists, None) && AskedTwice(true, lists.warnings)
    ensures Level(VerdictOf(ListsAfter(cfg.redact, lists, ctx.taskId, output), CountsAfter(map[], output), ctx))
            < Level(VerdictOf(lists, map[], ctx))
       <==> && output.Answer? && !HasAsking(lists.warnings[..|lists.warnings| - 1])
            && !HasBlocking(lists.findings) && !BringsBlocker(cfg.redact, lists, output.findings)
            && Lows(News(cfg.redact, lists, output.findings)) == [] && !SandboxException(FinalCounts(map[], ctx.runs))
  {
    match output {
      case Answer(ms) => RepeatedWeakens(cfg, lists, ctx, ms);
      case ProviderError(message) => FailureNeverWeakens(cfg.redact, lists, map[], ctx, message);
    }
  }

  lemma StatusAfterIs(cfg: Config, world: World, plan: Plan, input: Input, a: Audit)
    requires a.output.Some?
    ensures StatusAfter(cfg, world, plan, input, a)
         == VerdictOf(ListsAfter(cfg.redact, WithRunError(cfg.redact, a.lists, a.error), world.taskId, a.output.value),
                      CountsAfter(RunErrorCounts(a.error), a.output.value), ContextOf(cfg, world, plan, input, a))
  {}

  lemma ErrorLeaves(needsRepo: bool, lists: Lists, error: Option<string>)
    requires Left(needsRepo, lists, error) && AskedTwice(needsRepo, lists.warnings)
    ensures error.None?
  {
    OneAskedOnce(needsRepo, RepoRequired);
    assert NoLists.warnings + [RepoRequired] == [RepoRequired];
  }

  lemma SecondRequestWeakens(redact: Redactor, ctx: ReviewContext, w: Finding, v: Finding)
    requires Key(w) == Key(v) && !AsksHuman(w) && AsksHuman(v) && !SandboxException(FinalCounts(map[], ctx.runs))
    ensures var lists := Lists([], [w] + [v]);
            && VerdictOf(lists, map[], ctx) == NeedsHumanReview
            && VerdictOf(Merge(redact, lists, []), map[], ctx) == Pass
  {
    var lists := Lists([], [w] + [v]);
    OneDistinct(w);
    SnocKeys([], w);
    assert [] + [w] == [w] && [w][..0] == [] && ([w] + [v])[..1] == [w];
    FirstsOfRepeated([w], v);
    VerdictIs(lists, map[], ctx);
    VerdictAfterMerge(redact, lists, map[], ctx, []);
  }

  const RepoNoted := RepoRequired.(status := "warning")

  /** Such a run: the Skill reported the missing repository as a mere warning. Before the model the verdict is
      a review; an empty answer makes it a pass. */
  lemma RepoNotedWeakens(redact: Redactor, ctx: ReviewContext)
    requires !SandboxException(FinalCounts(map[], ctx.runs))
    ensures var lists := CheckedLists(Lists([], [RepoNoted]), true);
            && VerdictOf(lists, map[], ctx) == NeedsHumanReview
            && VerdictOf(Merge(redact, lists, []), map[], ctx) == Pass
  {
    KeyIgnoresStatus(RepoRequired, "warning");
    WarningIsNoRequest();
    SecondRequestWeakens(redact, ctx, RepoNoted, RepoRequired);
  }

  lemma WarningIsNoRequest()
    ensures !AsksHuman(RepoNoted)
  {
    assert "warning"[0] == 'w' && HUMAN_REVIEW[0] == 'n' && "ask"[0] == 'a';
  }

  /** A run that skipped its checks, or whose Skill failed. */
  predicate Unchecked(cfg: Config, world: World, plan: Plan, a: Audit) {
    DryRun(plan) || cfg.runtime == E2B || NeedsRepo(plan, world.repoPath) || a.error.Some?
  }

  lemma LastAsks(warnings: seq<Finding>)
    requires warnings != [] && AsksHuman(warnings[|warnings| - 1])
    ensures HasAsking(warnings)
  {}

  lemma UncheckedAsks(cfg: Config, world: World, plan: Plan, input: Input, loading: Option<string>,
                      trace: seq<Event>, extra: seq<Decision>, a: Audit)
    requires ChecksFound(cfg, world, plan, input, loading, trace, extra, a) && Unchecked(cfg, world, plan, a)
    ensures HasAsking(WithRunError(cfg.redact, a.lists, a.error).warnings)
  {
    LastAsks(WithRunError(cfg.redact, a.lists, a.error).warnings);
  }

  lemma AskingNeverPasses(lists: Lists, counts: map<string, int>, ctx: ReviewContext)
    requires HasAsking(lists.warnings)
    ensures VerdictOf(lists, counts, ctx) != Pass
  {
    VerdictIs(lists, counts, ctx);
  }

  lemma LowestIsPass(before: Status, after: Status)
    requires before != Pass
    ensures after == Pass ==> Level(after) < Level(before)
  {}

  /** A run that skipped its checks never passes, unless the Skill had asked for the missing repository as well and a
      model answered. */
  lemma UncheckedNeverPasses(cfg: Config, world: World, plan: Plan, input: Input, loading: Option<string>,
                             trace: seq<Event>, extra: seq<Decision>, a: Audit)
    requires Explains(cfg, world, plan, input, loading, trace, extra, a) && Unchecked(cfg, world, plan, a)
    ensures StatusBefore(cfg, world, plan, input, a) != Pass
    ensures StatusAfter(cfg, world, plan, input, a) == Pass ==>
              && a.output.Some? && a.output.value.Answer?
              && OnlyAskedTwice(cfg, NeedsRepo(plan, world.repoPath), a, a.output.value.findings)
  {
    UncheckedAsks(cfg, world, plan, input, loading, trace, extra, a);
    StatusBeforeIs(cfg, world, plan, input, a);
    AskingNeverPasses(WithRunError(cfg.redact, a.lists, a.error), RunErrorCounts(a.error),
                      ContextOf(cfg, world, plan, input, a));
    LowestIsPass(StatusBefore(cfg, world, plan, input, a), StatusAfter(cfg, world, plan, input, a));
    RunWeakensExactly(cfg, world, plan, input, loading, trace, extra, a);
  }
}
