/** A complete run, and what the store shows of it at every moment. */
module Lifecycle {
  import opened Wrappers
  import opened Text
  import opened Findings
  import opened ModelReview
  import opened Records
  import opened ReviewResult
  import opened ReviewLaws
  import opened Commands
  import opened Governance
  import opened ReviewChecks
  import opened AuditStore
  import opened Persistence

  const RUNNING := "running"
  const DONE := "done"
  const FAILED := "failed"

  lemma StatusesDiffer()
    ensures RUNNING != DONE && RUNNING != FAILED && DONE != FAILED
  {
    assert RUNNING[0] == 'r' && DONE[0] == 'd' && FAILED[0] == 'f';
  }

  // ----- what every state of the store satisfies -----

  /** A done task has its report and metrics; a running or failed one has nothing but its row. */
  predicate Coherent(v: View) {
    && (v.task.None? ==> v == Bare(None))
    && (v.task.Some? && v.task.value.status == DONE ==> v.report.Some? && v.metrics.Some?)
    && (v.task.Some? && v.task.value.status != DONE ==> v == Bare(v.task))
  }

  ghost predicate AllCoherent(db: Db) {
    forall id :: Coherent(ViewOf(db, id))
  }

  /** The database of a run's task with a new task row. */
  function Marked(db: Db, task: Task): Db {
    db.(tasks := db.tasks[task.id := task])
  }

  /** One change a run makes for its task. */
  datatype Change = Start(task: Task) | Fail(task: Task) | Finish(rec: ReviewRecord)

  function ChangedTask(c: Change): string {
    if c.Finish? then c.rec.task.id else c.task.id
  }

  function Changed(db: Db, c: Change): Db {
    if c.Finish? then AfterSave(db, c.rec) else Marked(db, c.task)
  }

  /** The changes that runs make: a new task starts, a running one fails, a running one is saved in full. */
  ghost predicate Legal(db: Db, c: Change) {
    match c
    case Start(task) => task.id !in db.tasks && task.status == RUNNING
    case Fail(task) => task.id in db.tasks && db.tasks[task.id].status == RUNNING && task.status == FAILED
    case Finish(rec) =>
      && rec.task.id in db.tasks && db.tasks[rec.task.id].status == RUNNING && rec.task.status == DONE
      && OneTask(rec)
  }

  lemma MarkedViews(db: Db, task: Task, other: string)
    ensures ViewOf(Marked(db, task), task.id) == ViewOf(db, task.id).(task := Some(task))
    ensures other != task.id ==> ViewOf(Marked(db, task), other) == ViewOf(db, other)
  {}

  /** No change touches another task. */
  lemma OthersUntouched(db: Db, c: Change, other: string)
    requires Legal(db, c) && other != ChangedTask(c)
    ensures ViewOf(Changed(db, c), other) == ViewOf(db, other)
  {
    match c {
      case Finish(rec) => SavedReviewIs(db, rec, other);
      case _ => MarkedViews(db, c.task, other);
    }
  }

  /** What a change makes of its own task: a bare row, or exactly the saved review. */
  lemma OwnView(db: Db, c: Change)
    requires Legal(db, c) && AllCoherent(db)
    ensures ViewOf(Changed(db, c), ChangedTask(c))
         == if c.Finish? then SavedView(Bare(None), c.rec) else Bare(Some(c.task))
  {
    StatusesDiffer();
    assert Coherent(ViewOf(db, ChangedTask(c)));
    match c {
      case Finish(rec) => SavedReviewIs(db, rec, "");
      case _ => MarkedViews(db, c.task, "");
    }
  }

  lemma LegalKeepsCoherent(db: Db, c: Change)
    requires Legal(db, c) && AllCoherent(db)
    ensures AllCoherent(Changed(db, c))
  {
    forall id
      ensures Coherent(ViewOf(Changed(db, c), id))
    {
      if id == ChangedTask(c) {
        OwnView(db, c);
        StatusesDiffer();
        assert c.Finish? || c.task.status != DONE;
      } else {
        OthersUntouched(db, c, id);
        assert Coherent(ViewOf(db, id));
      }
    }
  }

  ghost predicate IsStep(before: Db, c: Change, after: Db) {
    Legal(before, c) && after == Changed(before, c)
  }

  ghost predicate Stepped(before: Db, after: Db) {
    exists c :: IsStep(before, c, after)
  }

  /** Every state follows from the one before by a legal change. */
  ghost predicate LegalTrail(trail: seq<Db>) {
    |trail| > 1 ==> LegalTrail(trail[..|trail| - 1]) && Stepped(trail[|trail| - 2], trail[|trail| - 1])
  }

  lemma LegalTrailSnoc(trail: seq<Db>, c: Change, db: Db)
    requires LegalTrail(trail) && trail != [] && IsStep(trail[|trail| - 1], c, db)
    ensures LegalTrail(trail + [db])
  {
    assert (trail + [db])[..|trail|] == trail;
  }

  lemma {:induction false} CoherentStates(trail: seq<Db>, k: nat)
    requires LegalTrail(trail) && k < |trail| && AllCoherent(trail[0])
    ensures AllCoherent(trail[k])
  {
    if k < |trail| - 1 {
      CoherentStates(trail[..|trail| - 1], k);
    } else if k > 0 {
      CoherentStates(trail[..|trail| - 1], k - 1);
      var c :| IsStep(trail[k - 1], c, trail[k]);
      LegalKeepsCoherent(trail[k - 1], c);
    }
  }

  predicate IsDone(v: View) {
    v.task.Some? && v.task.value.status == DONE
  }

  lemma DoneStays(before: Db, after: Db, id: string)
    requires Stepped(before, after) && IsDone(ViewOf(before, id))
    ensures ViewOf(after, id) == ViewOf(before, id)
  {
    var c :| IsStep(before, c, after);
    StatusesDiffer();
    OthersUntouched(before, c, id);
  }

  /** A done task stays as it was saved, for ever. */
  lemma {:induction false} DoneForEver(trail: seq<Db>, i: nat, k: nat, id: string)
    requires LegalTrail(trail) && i <= k < |trail| && IsDone(ViewOf(trail[i], id))
    ensures ViewOf(trail[k], id) == ViewOf(trail[i], id)
  {
    var init := trail[..|trail| - 1];
    if k < |trail| - 1 {
      assert init[i] == trail[i] && init[k] == trail[k];
      DoneForEver(init, i, k, id);
    } else if i < k {
      assert init[i] == trail[i] && init[k - 1] == trail[k - 1];
      DoneForEver(init, i, k - 1, id);
      DoneStays(trail[k - 1], trail[k], id);
    }
  }

  /** In state k the task shows in full, and shows nothing but, the record that state i + 1 saved. */
  ghost predicate SavedAt(trail: seq<Db>, k: nat, id: string, i: nat, rec: ReviewRecord) {
    && i < k < |trail| && IsStep(trail[i], Finish(rec), trail[i + 1])
    && rec.task.id == id && ViewOf(trail[k], id) == SavedView(Bare(None), rec)
  }

  /** A task that is done in state k either was so from the start, or shows a record that was saved before. */
  ghost predicate ShowsRecord(trail: seq<Db>, k: nat, id: string)
    requires k < |trail|
  {
    || (IsDone(ViewOf(trail[0], id)) && ViewOf(trail[k], id) == ViewOf(trail[0], id))
    || exists i: nat, rec :: SavedAt(trail, k, id, i, rec)
  }

  lemma ShowsRecordLater(trail: seq<Db>, j: nat, k: nat, id: string)
    requires trail != [] && j < |trail| - 1 && j <= k < |trail| && ShowsRecord(trail[..|trail| - 1], j, id)
    requires ViewOf(trail[k], id) == ViewOf(trail[j], id)
    ensures ShowsRecord(trail, k, id)
  {
    var init := trail[..|trail| - 1];
    if exists i: nat, rec :: SavedAt(init, j, id, i, rec) {
      var i: nat, rec :| SavedAt(init, j, id, i, rec);
      assert init[i] == trail[i] && init[i + 1] == trail[i + 1];
      assert SavedAt(trail, k, id, i, rec);
    }
  }

  lemma JustSaved(trail: seq<Db>, k: nat, c: Change)
    requires 0 < k < |trail| && IsStep(trail[k - 1], c, trail[k]) && AllCoherent(trail[k - 1])
    requires IsDone(ViewOf(trail[k], ChangedTask(c)))
    ensures ShowsRecord(trail, k, ChangedTask(c))
  {
    StatusesDiffer();
    OwnView(trail[k - 1], c);
    assert c.Finish?;
    assert SavedAt(trail, k, ChangedTask(c), k - 1, c.rec);
  }

  lemma {:induction false} DoneWasSaved(trail: seq<Db>, k: nat, id: string)
    requires LegalTrail(trail) && k < |trail| && AllCoherent(trail[0]) && IsDone(ViewOf(trail[k], id))
    ensures ShowsRecord(trail, k, id)
  {
    var init := trail[..|trail| - 1];
    if k < |trail| - 1 {
      DoneWasSaved(init, k, id);
      ShowsRecordLater(trail, k, k, id);
    } else if k > 0 {
      CoherentStates(init, k - 1);
      assert init[k - 1] == trail[k - 1];
      if ViewOf(trail[k], id) == ViewOf(trail[k - 1], id) {
        DoneWasSaved(init, k - 1, id);
        ShowsRecordLater(trail, k - 1, k, id);
      } else {
        DoneBySave(trail, k, id);
      }
    }
  }

  lemma DoneBySave(trail: seq<Db>, k: nat, id: string)
    requires 0 < k < |trail| && Stepped(trail[k - 1], trail[k]) && AllCoherent(trail[k - 1])
    requires IsDone(ViewOf(trail[k], id)) && ViewOf(trail[k], id) != ViewOf(trail[k - 1], id)
    ensures ShowsRecord(trail, k, id)
  {
    var c :| IsStep(trail[k - 1], c, trail[k]);
    if ChangedTask(c) != id {
      OthersUntouched(trail[k - 1], c, id);
    }
    JustSaved(trail, k, c);
  }

  /** At every point of every run: a running or failed task has no child rows, and a done one has its report, its
      metrics and all its other rows: it shows exactly a record that was saved. */
  lemma AlwaysCoherent(trail: seq<Db>, k: nat)
    requires LegalTrail(trail) && k < |trail| && AllCoherent(trail[0])
    ensures AllCoherent(trail[k])
    ensures forall id :: IsDone(ViewOf(trail[k], id)) ==> ShowsRecord(trail, k, id)
  {
    CoherentStates(trail, k);
    forall id | IsDone(ViewOf(trail[k], id))
      ensures ShowsRecord(trail, k, id)
    {
      DoneWasSaved(trail, k, id);
    }
  }

  /** An empty store is coherent. */
  lemma EmptyIsCoherent()
    ensures AllCoherent(Db(map[], [], [], [], [], [], map[], map[]))
  {}

  // ----- one run -----

  /** What the environment of one run has to offer. */
  datatype World = World(taskId: string, plan: Result<Plan>, input: Result<Input>, repoPath: string,
                         provider: Option<Provider>, build: (Body, map<string, int>) -> Result<Bundle>,
                         publish: (Body, Bundle) -> Option<string>)

  datatype Input = Input(diff: string, ref: string, metadata: seq<string>)

  /** A model provider: what it answers to the findings it is shown, and how it is named. */
  datatype Provider = Provider(review: seq<Finding> -> ModelOutput, provider: string, name: string, backend: string)

  datatype Notice =
    | InputLoaded
    | SkillRan
    | SandboxRan(command: string)
    | ModelReviewed(findings: int, exceptions: int)
    | ReportWritten
    | TaskFinished(status: Status)
    | TaskFailed

  predicate Terminal(n: Notice) {
    n.TaskFinished? || n.TaskFailed?
  }

  function Terminals(ns: seq<Notice>): nat {
    if ns == [] then 0 else Terminals(ns[..|ns| - 1]) + if Terminal(ns[|ns| - 1]) then 1 else 0
  }

  lemma TerminalsSnoc(ns: seq<Notice>, n: Notice)
    ensures Terminals(ns + [n]) == Terminals(ns) + if Terminal(n) then 1 else 0
  {
    assert (ns + [n])[..|ns|] == ns;
  }

  function TaskRow(world: World, input: Input, digest: string -> string, mode: string, status: string, started: int,
                   finished: int): Task {
    Task(world.taskId, "diff", input.ref, digest(input.diff), world.repoPath, status, mode, started, started, finished)
  }

  function CommandFailed(redact: Redactor, message: string): Finding {
    Finding("low", "sandbox", "", 0, "Sandbox command failed", redact(message),
            "Inspect sandbox stderr digest and rerun the command in an isolated workspace.", "high", "sandbox",
            "sandbox-command-failed", HUMAN_REVIEW)
  }

  /** The lists and exception counts of the checks, a Skill error being one more request for review. */
  function WithRunError(redact: Redactor, lists: Lists, error: Option<string>): Lists {
    match error
    case None => lists
    case Some(message) => lists.(warnings := lists.warnings + [CommandFailed(redact, message)])
  }

  function RunErrorCounts(error: Option<string>): map<string, int> {
    if error.Some? then Bump(map[], "skill_run") else map[]
  }

  function ModelSources(fs: seq<Finding>): nat {
    if fs == [] then 0
    else ModelSources(fs[..|fs| - 1])
         + if fs[|fs| - 1].source == SOURCE_REAL || fs[|fs| - 1].source == SOURCE_FAKE then 1 else 0
  }

  const NoModel := ModelSummary(0, 0, 0, 0, "", "", "")

  function SummaryOf(provider: Provider, output: ModelOutput, lists: Lists, durationMs: int): ModelSummary {
    ModelSummary(1, if output.Answer? then ModelSources(lists.findings) + ModelSources(lists.warnings) else 0,
                 if durationMs == 0 then 1 else durationMs, if output.Answer? then 0 else 1, provider.provider,
                 provider.name, provider.backend)
  }

  /** Everything a run found out: the outcome of the checks, and what a model had to add. */
  datatype Audit = Audit(lists: Lists, decisions: seq<Decision>, runs: seq<SandboxRun>, toolCalls: int,
                         error: Option<string>, output: Option<ModelOutput>, modelMs: int, clock: Clock)

  function FinalLists(cfg: Config, taskId: string, a: Audit): Lists {
    var lists := WithRunError(cfg.redact, a.lists, a.error);
    match a.output
    case None => lists
    case Some(output) => ListsAfter(cfg.redact, lists, taskId, output)
  }

  function CountsBefore(a: Audit): map<string, int> {
    match a.output
    case None => RunErrorCounts(a.error)
    case Some(output) => CountsAfter(RunErrorCounts(a.error), output)
  }

  function ContextOf(cfg: Config, world: World, plan: Plan, input: Input, a: Audit): ReviewContext {
    ReviewContext(world.taskId, input.metadata, a.toolCalls, a.decisions, a.runs,
                  if a.output.None? || world.provider.None? then NoModel
                  else SummaryOf(world.provider.value, a.output.value, FinalLists(cfg, world.taskId, a), a.modelMs),
                  plan)
  }

  /** The result of a run, as if it had been finalised only once, at the end. */
  function ResultOf(cfg: Config, world: World, plan: Plan, input: Input, a: Audit): Body {
    Finalise(FinalLists(cfg, world.taskId, a), CountsBefore(a), ContextOf(cfg, world, plan, input, a), a.clock)
  }

  function ResultCounts(a: Audit): map<string, int> {
    FinalCounts(CountsBefore(a), a.runs)
  }

  predicate AsksModel(world: World, plan: Plan) {
    plan.modelRequested && world.provider.Some?
  }

  const EmptyMetrics := Metrics("", false, false, false, false, 0, 0, 0, 0, 0, "", "", "", 0, 0, 0, 0, map[], 0)

  function EmptyBody(lists: Lists): Body {
    Body("", lists, [], EmptyMetrics, [], [], 0, [], [], "", Conclusion(Pass, ""), 0)
  }

  /** What the checks found out, before any model. */
  ghost predicate ChecksFound(cfg: Config, world: World, plan: Plan, input: Input, loading: Option<string>,
                              trace: seq<Event>, extra: seq<Decision>, a: Audit) {
    && Audited(world.taskId, trace, extra, a.decisions, a.runs)
    && ChecksDid(cfg, plan, world.repoPath, input.diff, loading, trace, a.lists, a.error, |a.runs|, a.toolCalls)
  }

  /** The model's output, if one is asked. It is shown the findings of the checks. */
  function ModelSaid(cfg: Config, world: World, plan: Plan, lists: Lists, error: Option<string>): Option<ModelOutput> {
    if AsksModel(world, plan)
    then Some(world.provider.value.review(Snapshot(cfg.redact, WithRunError(cfg.redact, lists, error))))
    else None
  }

  /** What the environment did and said during a run. */
  ghost predicate Explains(cfg: Config, world: World, plan: Plan, input: Input, loading: Option<string>,
                           trace: seq<Event>, extra: seq<Decision>, a: Audit) {
    && ChecksFound(cfg, world, plan, input, loading, trace, extra, a)
    && a.output == ModelSaid(cfg, world, plan, a.lists, a.error)
  }

  /** The first notices of a run: the Skill, then every recorded run. */
  function RunNotices(runs: seq<SandboxRun>): seq<Notice> {
    if runs == [] then [SkillRan] else RunNotices(runs[..|runs| - 1]) + [SandboxRan(runs[|runs| - 1].command)]
  }

  function NoticeOf(summary: ModelSummary): Notice {
    ModelReviewed(summary.findingCount, summary.exceptionCount)
  }

  function ModelNotices(cfg: Config, world: World, plan: Plan, input: Input, a: Audit): seq<Notice> {
    if a.output.None? then [] else [NoticeOf(ContextOf(cfg, world, plan, input, a).model)]
  }

  /** The notices of a run up to its reports. */
  function Notices(cfg: Config, world: World, plan: Plan, input: Input, a: Audit, reported: bool): seq<Notice> {
    RunNotices(a.runs) + ModelNotices(cfg, world, plan, input, a) + if reported then [ReportWritten] else []
  }

  lemma {:induction false} RunNoticesQuiet(runs: seq<SandboxRun>)
    ensures Terminals(RunNotices(runs)) == 0
  {
    if runs == [] {
      TerminalsSnoc([], SkillRan);
      assert [] + [SkillRan] == [SkillRan];
    } else {
      RunNoticesQuiet(runs[..|runs| - 1]);
      TerminalsSnoc(RunNotices(runs[..|runs| - 1]), SandboxRan(runs[|runs| - 1].command));
    }
  }

  /** Nothing terminal among them. */
  lemma NoticesQuiet(cfg: Config, world: World, plan: Plan, input: Input, a: Audit, reported: bool)
    ensures Terminals(Notices(cfg, world, plan, input, a, reported)) == 0
  {
    var first := RunNotices(a.runs);
    RunNoticesQuiet(a.runs);
    ConcatNil(first);
    if a.output.Some? {
      TerminalsSnoc(first, NoticeOf(ContextOf(cfg, world, plan, input, a).model));
    }
    var both := first + ModelNotices(cfg, world, plan, input, a);
    ConcatNil(both);
    TerminalsSnoc(both, ReportWritten);
  }

  method Notify(runs: seq<SandboxRun>) returns (events: seq<Notice>)
    ensures events == RunNotices(runs)
  {
    events := [SkillRan];
    for i := 0 to |runs|
      invariant events == RunNotices(runs[..i])
    {
      assert runs[..i + 1][..i] == runs[..i];
      events := events + [SandboxRan(runs[i].command)];
    }
    assert runs[..|runs|] == runs;
  }

  lemma ResultWithoutModel(cfg: Config, world: World, plan: Plan, input: Input, a: Audit)
    requires a.output == None
    ensures ResultOf(cfg, world, plan, input, a)
         == Finalise(WithRunError(cfg.redact, a.lists, a.error), RunErrorCounts(a.error),
                     ReviewContext(world.taskId, input.metadata, a.toolCalls, a.decisions, a.runs, NoModel, plan),
                     a.clock)
  {}

  lemma ResultWithModel(cfg: Config, world: World, plan: Plan, input: Input, a: Audit,
                        ctx: ReviewContext, clock: Clock, reviewed: Lists, summary: ModelSummary,
                        counts: map<string, int>, result: Body)
    requires a.output.Some? && world.provider.Some?
    requires ctx == ReviewContext(world.taskId, input.metadata, a.toolCalls, a.decisions, a.runs, NoModel, plan)
    requires reviewed == ListsAfter(cfg.redact, WithRunError(cfg.redact, a.lists, a.error), world.taskId,
                                    a.output.value)
    requires summary == SummaryOf(world.provider.value, a.output.value, reviewed, a.modelMs)
    requires counts == CountsAfter(FinalCounts(RunErrorCounts(a.error), a.runs), a.output.value)
    requires result == Finalise(reviewed, counts, ctx.(model := summary), a.clock)
    ensures result == ResultOf(cfg, world, plan, input, a)
    ensures FinalCounts(counts, a.runs) == ResultCounts(a)
  {
    var lists := WithRunError(cfg.redact, a.lists, a.error);
    FinalCountsAbsorb(RunErrorCounts(a.error), a.runs, a.runs, a.output.value);
    FinaliseAbsorbs(cfg.redact, lists, RunErrorCounts(a.error), ctx, clock, ctx.(model := summary), a.clock,
                    a.output.value);
  }

  /** A finalisation at two readings of the clock. */
  method FinaliseNow(env: Environment, result: Body, shared: Counter, ctx: ReviewContext, start: int)
    returns (final: Body, ghost clock: Clock)
    modifies env`ticks, shared
    ensures clock == Clock(env.clock(old(env.ticks)), env.clock(old(env.ticks) + 1) - start)
    ensures final == Finalise(result.lists, old(shared.counts), ctx, clock) && final.lists == result.lists
    ensures shared.counts == FinalCounts(old(shared.counts), ctx.runs)
  {
    var now := env.Now();
    var later := env.Now();
    clock := Clock(now, later - start);
    var same;
    final, same := FinalizeReviewResult(result, shared, ctx, Clock(now, later - start));
  }

  /** The first finalisation, a Skill error being recorded before it. */
  method FinaliseChecks(env: Environment, redact: Redactor, lists: Lists, error: Option<string>, ctx: ReviewContext,
                        start: int)
    returns (result: Body, shared: Counter, ghost clock: Clock)
    modifies env`ticks
    ensures fresh(shared) && shared.counts == FinalCounts(RunErrorCounts(error), ctx.runs)
    ensures result == Finalise(WithRunError(redact, lists, error), RunErrorCounts(error), ctx, clock)
    ensures result.lists == WithRunError(redact, lists, error)
    ensures clock == Clock(env.clock(old(env.ticks)), env.clock(old(env.ticks) + 1) - start)
  {
    shared := new Counter();
    var body := EmptyBody(lists);
    if error.Some? {
      shared.Increment("skill_run");
      body := body.(lists := lists.(warnings := lists.warnings + [CommandFailed(redact, error.value)]));
    }
    assert body.lists == WithRunError(redact, lists, error) && shared.counts == RunErrorCounts(error);
    result, clock := FinaliseNow(env, body, shared, ctx, start);
  }

  /** The provider is asked between two readings of the clock. */
  method AskProvider(env: Environment, redact: Redactor, provider: Provider, lists: Lists, shared: Counter,
                     taskId: string)
    returns (reviewed: Lists, output: ModelOutput, ms: int)
    modifies env`ticks, shared
    ensures output == provider.review(Snapshot(redact, lists))
    ensures reviewed == ListsAfter(redact, lists, taskId, output)
    ensures shared.counts == CountsAfter(old(shared.counts), output)
    ensures ms == env.clock(old(env.ticks) + 1) - env.clock(old(env.ticks)) && env.ticks == old(env.ticks) + 2
  {
    output := provider.review(Snapshot(redact, lists));
    var before := env.Now();
    reviewed := RunModelReview(redact, lists, shared, taskId, output);
    var after := env.Now();
    ms := after - before;
  }

  /** From the outcome of the checks to the result. */
  method Conclude(env: Environment, cfg: Config, world: World, plan: Plan, input: Input, start: int, lists: Lists,
                  decisions: seq<Decision>, runs: seq<SandboxRun>, toolCalls: int, error: Option<string>)
    returns (result: Body, counts: map<string, int>, events: seq<Notice>, ghost a: Audit)
    modifies env`ticks
    ensures a == Audit(lists, decisions, runs, toolCalls, error, ModelSaid(cfg, world, plan, lists, error), a.modelMs,
                       a.clock)
    ensures result == ResultOf(cfg, world, plan, input, a) && counts == ResultCounts(a)
    ensures events == Notices(cfg, world, plan, input, a, false)
  {
    events := Notify(runs);
    var ctx := ReviewContext(world.taskId, input.metadata, toolCalls, decisions, runs, NoModel, plan);
    var shared;
    ghost var clock;
    result, shared, clock := FinaliseChecks(env, cfg.redact, lists, error, ctx, start);
    if !AsksModel(world, plan) {
      a := Audit(lists, decisions, runs, toolCalls, error, None, 0, clock);
      ResultWithoutModel(cfg, world, plan, input, a);
      UnreportedNotices(cfg, world, plan, input, a);
      counts := shared.counts;
      return;
    }
    var notice;
    result, notice, a := ConcludeByModel(env, cfg, world, plan, input, start, lists, error, result, shared, ctx, clock);
    events := events + [notice];
    UnreportedNotices(cfg, world, plan, input, a);
    counts := shared.counts;
  }

  lemma UnreportedNotices(cfg: Config, world: World, plan: Plan, input: Input, a: Audit)
    ensures Notices(cfg, world, plan, input, a, false)
         == if a.output.None? then RunNotices(a.runs)
            else RunNotices(a.runs) + ModelNotices(cfg, world, plan, input, a)
  {
    ConcatNil(RunNotices(a.runs));
    ConcatNil(RunNotices(a.runs) + ModelNotices(cfg, world, plan, input, a));
  }

  /** The same, with a model asked after the first finalisation. */
  method ConcludeByModel(env: Environment, cfg: Config, world: World, plan: Plan, input: Input, start: int,
                         lists: Lists, error: Option<string>, checked: Body, shared: Counter, ctx: ReviewContext,
                         ghost first: Clock)
    returns (result: Body, notice: Notice, ghost a: Audit)
    requires AsksModel(world, plan) && shared.counts == FinalCounts(RunErrorCounts(error), ctx.runs)
    requires ctx == ReviewContext(world.taskId, input.metadata, ctx.toolCallCount, ctx.decisions, ctx.runs, NoModel,
                                  plan)
    requires checked.lists == WithRunError(cfg.redact, lists, error)
    modifies env`ticks, shared
    ensures a == Audit(lists, ctx.decisions, ctx.runs, ctx.toolCallCount, error,
                       ModelSaid(cfg, world, plan, lists, error), a.modelMs, a.clock)
    ensures result == ResultOf(cfg, world, plan, input, a) && shared.counts == ResultCounts(a)
    ensures ModelNotices(cfg, world, plan, input, a) == [notice]
  {
    ghost var counts := CountsAfter(shared.counts, ModelSaid(cfg, world, plan, lists, error).value);
    var reviewed, output, ms := AskProvider(env, cfg.redact, world.provider.value, checked.lists, shared, ctx.taskId);
    var summary := SummaryOf(world.provider.value, output, reviewed, ms);
    notice := NoticeOf(summary);
    ghost var last;
    result, last := FinaliseNow(env, checked.(lists := reviewed), shared, ctx.(model := summary), start);
    a := Audit(lists, ctx.decisions, ctx.runs, ctx.toolCallCount, error, Some(output), ms, last);
    ResultWithModel(cfg, world, plan, input, a, ctx, first, reviewed, summary, counts, result);
  }

  /** The checks, the model and the finalised result. */
  method Review(env: Environment, cfg: Config, world: World, plan: Plan, input: Input, start: int)
    returns (result: Body, counts: map<string, int>, events: seq<Notice>, decisions: seq<Decision>,
             runs: seq<SandboxRun>, ghost a: Audit, ghost trace: seq<Event>, ghost extra: seq<Decision>)
    modifies env
    ensures env.log == old(env.log) + trace
    ensures Explains(cfg, world, plan, input, env.load(|old(env.log)|), trace, extra, a)
    ensures decisions == a.decisions && runs == a.runs
    ensures result == ResultOf(cfg, world, plan, input, a) && counts == ResultCounts(a)
    ensures events == Notices(cfg, world, plan, input, a, false)
  {
    var lists, toolCalls, error;
    lists, decisions, runs, toolCalls, error, trace, extra :=
      RunReviewChecks(env, cfg, world.taskId, plan, world.repoPath, input.diff);
    result, counts, events, a :=
      Conclude(env, cfg, world, plan, input, start, lists, decisions, runs, toolCalls, error);
  }

  /** A result ready to be saved. */
  datatype Prepared = Prepared(body: Body, counts: map<string, int>, decisions: seq<Decision>, runs: seq<SandboxRun>,
                               bundle: Bundle)

  predicate PreparedFor(cfg: Config, world: World, plan: Plan, input: Input, a: Audit, p: Prepared) {
    && p.body == ResultOf(cfg, world, plan, input, a) && p.counts == ResultCounts(a)
    && p.decisions == a.decisions && p.runs == a.runs
    && world.build(p.body, p.counts) == Ok(p.bundle)
  }

  predicate ReportsFail(cfg: Config, world: World, plan: Plan, input: Input, a: Audit) {
    var b := ResultOf(cfg, world, plan, input, a);
    var built := world.build(b, ResultCounts(a));
    built.Err? || world.publish(b, built.value).Some?
  }

  predicate Carried(id: string, p: Prepared) {
    DecisionsCarry(id, p.decisions) && RunsCarry(id, p.runs)
  }

  /** From the checks to the report files. */
  method Prepare(env: Environment, cfg: Config, world: World, plan: Plan, input: Input, start: int)
    returns (prepared: Result<Prepared>, events: seq<Notice>, ghost a: Audit, ghost trace: seq<Event>,
             ghost extra: seq<Decision>)
    modifies env
    ensures env.log == old(env.log) + trace
    ensures Explains(cfg, world, plan, input, env.load(|old(env.log)|), trace, extra, a)
    ensures prepared.Ok? ==> PreparedFor(cfg, world, plan, input, a, prepared.value)
    ensures prepared.Ok? ==> Carried(world.taskId, prepared.value)
    ensures prepared.Err? <==> ReportsFail(cfg, world, plan, input, a)
    ensures events == Notices(cfg, world, plan, input, a, prepared.Ok?)
  {
    var body, counts, decisions, runs;
    body, counts, events, decisions, runs, a, trace, extra := Review(env, cfg, world, plan, input, start);
    var built := world.build(body, counts);
    if built.Err? {
      return Err(built.message), events, a, trace, extra;
    }
    var published := world.publish(body, built.value);
    if published.Some? {
      return Err(published.value), events, a, trace, extra;
    }
    ConcatNil(RunNotices(a.runs) + ModelNotices(cfg, world, plan, input, a));
    events := events + [ReportWritten];
    prepared := Ok(Prepared(body, counts, decisions, runs, built.value));
  }

  function SavedRecord(cfg: Config, world: World, plan: Plan, input: Input, start: int, finished: int, now: int,
                       p: Prepared): ReviewRecord {
    RecordFor(TaskRow(world, input, cfg.digest, plan.mode, DONE, start, finished), p.body, p.counts, p.decisions,
              p.runs, p.bundle, cfg.digest, now)
  }

  /** A result, its own account of itself, and the record it was saved as: the result, marked done, with the report
      texts built from it. */
  ghost predicate Delivered(cfg: Config, world: World, plan: Plan, input: Input, start: int, a: Audit, result: Body,
                            rec: ReviewRecord) {
    && result == ResultOf(cfg, world, plan, input, a)
    && exists finished: int, now: int, p: Prepared ::
         && PreparedFor(cfg, world, plan, input, a, p)
         && rec == SavedRecord(cfg, world, plan, input, start, finished, now, p)
  }

  lemma NotQuiet(fails: nat -> bool, from: nat, count: nat) returns (k: nat)
    requires !Quiet(fails, from, count)
    ensures from <= k < from + count && fails(k)
  {
    k :| from <= k < from + count && fails(k);
  }

  // ----- the run as a whole -----

  /** How a run's changes to the store may end. */
  datatype Ending = Unstarted | Stuck(running: Task) | Aborted(running: Task, failed: Task)
                  | Complete(running: Task, rec: ReviewRecord)

  /** The states a run takes the store through: its running row, and what follows. */
  function States(before: Db, e: Ending): seq<Db> {
    if e.Unstarted? then [] else [Marked(before, e.running)] + LaterStates(Marked(before, e.running), e)
  }

  function LaterStates(marked: Db, e: Ending): seq<Db> {
    match e
    case Unstarted => []
    case Stuck(_) => []
    case Aborted(_, failed) => [Marked(marked, failed)]
    case Complete(_, rec) => [AfterSave(marked, rec)]
  }

  /** The rows are those of one run. */
  ghost predicate RowsOf(id: string, e: Ending) {
    match e
    case Unstarted => true
    case Stuck(running) => running.id == id && running.status == RUNNING
    case Aborted(running, failed) =>
      running.id == failed.id == id && running.status == RUNNING && failed.status == FAILED
    case Complete(running, rec) =>
      running.id == rec.task.id == id && running.status == RUNNING && rec.task.status == DONE && OneTask(rec)
  }

  /** A run that gave up wrote its failed row with its last operation, if that worked. */
  ghost predicate LastWrite(e: Ending, fails: nat -> bool, next: nat) {
    next > 0 && (e.Stuck? ==> fails(next - 1)) && (e.Aborted? ==> !fails(next - 1))
  }

  /** A run that performed the operations from first up to next ends unstarted exactly when the first failed, and
      without its failed row only when the last one failed. */
  ghost predicate Ends(id: string, e: Ending, fails: nat -> bool, first: nat, next: nat) {
    RowsOf(id, e) && first < next && (e.Unstarted? <==> fails(first)) && (!e.Unstarted? ==> LastWrite(e, fails, next))
  }

  ghost predicate OthersSame(before: Db, after: Db, id: string) {
    forall other :: other != id ==> ViewOf(after, other) == ViewOf(before, other)
  }

  function LastOf(before: Db, states: seq<Db>): Db {
    if states == [] then before else states[|states| - 1]
  }

  /** What the store shows of the task in the end. */
  function EndView(e: Ending): View {
    match e
    case Unstarted => Bare(None)
    case Stuck(running) => Bare(Some(running))
    case Aborted(_, failed) => Bare(Some(failed))
    case Complete(_, rec) => SavedView(Bare(None), rec)
  }

  /** One legal change of a coherent database at the end of a legal trail. */
  lemma OneChange(trail: seq<Db>, db: Db, c: Change, next: Db)
    requires LegalTrail(trail) && trail != [] && trail[|trail| - 1] == db && AllCoherent(db) && IsStep(db, c, next)
    ensures LegalTrail(trail + [next]) && AllCoherent(next)
    ensures ViewOf(next, ChangedTask(c)) == if c.Finish? then SavedView(Bare(None), c.rec) else Bare(Some(c.task))
    ensures OthersSame(db, next, ChangedTask(c))
  {
    LegalTrailSnoc(trail, c, next);
    LegalKeepsCoherent(db, c);
    OwnView(db, c);
    forall other | other != ChangedTask(c)
      ensures ViewOf(next, other) == ViewOf(db, other)
    {
      OthersUntouched(db, c, other);
    }
  }

  lemma {:induction false} TwoChanges(trail: seq<Db>, before: Db, running: Task, c: Change)
    requires LegalTrail(trail) && trail != [] && trail[|trail| - 1] == before && AllCoherent(before)
    requires running.id !in before.tasks && running.status == RUNNING
    requires !c.Start? && ChangedTask(c) == running.id && Legal(Marked(before, running), c)
    ensures var m := Marked(before, running);
            var last := Changed(m, c);
            && LegalTrail(trail + [m, last]) && AllCoherent(last) && OthersSame(before, last, running.id)
            && ViewOf(last, running.id) == if c.Finish? then SavedView(Bare(None), c.rec) else Bare(Some(c.task))
  {
    var m := Marked(before, running);
    OneChange(trail, before, Start(running), m);
    OneChange(trail + [m], m, c, Changed(m, c));
    ConcatAssoc(trail, [m], [Changed(m, c)]);
    assert [m] + [Changed(m, c)] == [m, Changed(m, c)];
    OthersSameTwice(before, m, Changed(m, c), running.id);
  }

  lemma OthersSameTwice(a: Db, b: Db, c: Db, id: string)
    requires OthersSame(a, b, id) && OthersSame(b, c, id)
    ensures OthersSame(a, c, id)
  {
    forall other | other != id
      ensures ViewOf(c, other) == ViewOf(a, other)
    {
      assert ViewOf(b, other) == ViewOf(a, other);
    }
  }

  lemma StatesAre(before: Db, e: Ending)
    ensures States(before, e)
         == match e
            case Unstarted => []
            case Stuck(running) => [Marked(before, running)]
            case Aborted(running, failed) => [Marked(before, running), Marked(Marked(before, running), failed)]
            case Complete(running, rec) => [Marked(before, running), AfterSave(Marked(before, running), rec)]
  {}

  /** The states prolong the legal trail, every task stays coherent, other tasks stay as they are, and the run's own
      task ends as the ending says. */
  ghost predicate KeepsSound(trail: seq<Db>, before: Db, id: string, e: Ending) {
    var after := LastOf(before, States(before, e));
    && LegalTrail(trail + States(before, e)) && AllCoherent(after)
    && OthersSame(before, after, id) && ViewOf(after, id) == EndView(e)
  }

  lemma EarlyKeepsSound(trail: seq<Db>, before: Db, id: string, e: Ending)
    requires LegalTrail(trail) && trail != [] && trail[|trail| - 1] == before && AllCoherent(before)
    requires id !in before.tasks && RowsOf(id, e) && (e.Unstarted? || e.Stuck?)
    ensures KeepsSound(trail, before, id, e)
  {
    StatusesDiffer();
    StatesAre(before, e);
    if e.Unstarted? {
      ConcatNil(trail);
      FreshIsBare(before, id);
    } else {
      OneChange(trail, before, Start(e.running), Marked(before, e.running));
    }
  }

  lemma LateKeepsSound(trail: seq<Db>, before: Db, id: string, e: Ending)
    requires LegalTrail(trail) && trail != [] && trail[|trail| - 1] == before && AllCoherent(before)
    requires id !in before.tasks && RowsOf(id, e) && (e.Aborted? || e.Complete?)
    ensures KeepsSound(trail, before, id, e)
  {
    StatusesDiffer();
    StatesAre(before, e);
    if e.Aborted? {
      TwoChanges(trail, before, e.running, Change.Fail(e.failed));
    } else {
      TwoChanges(trail, before, e.running, Finish(e.rec));
    }
  }

  /** A run on a sound store keeps it sound. */
  lemma RunKeepsSound(trail: seq<Db>, before: Db, id: string, e: Ending, fails: nat -> bool, first: nat, next: nat)
    requires LegalTrail(trail) && trail != [] && trail[|trail| - 1] == before && AllCoherent(before)
    requires id !in before.tasks && Ends(id, e, fails, first, next)
    ensures KeepsSound(trail, before, id, e)
  {
    if e.Unstarted? || e.Stuck? {
      EarlyKeepsSound(trail, before, id, e);
    } else {
      LateKeepsSound(trail, before, id, e);
    }
  }

  lemma FreshIsBare(db: Db, id: string)
    requires AllCoherent(db) && id !in db.tasks
    ensures ViewOf(db, id) == Bare(None)
  {
    assert Coherent(ViewOf(db, id));
  }

  /** An errored run leaves no child rows: no row at all exactly when its first write failed, else a row that is failed
      unless its last write failed as well. */
  lemma ErrorEndsFailed(e: Ending, id: string, fails: nat -> bool, first: nat, next: nat)
    requires Ends(id, e, fails, first, next) && !e.Complete?
    ensures EndView(e) == Bare(EndView(e).task) && (EndView(e).task.None? <==> fails(first))
    ensures EndView(e).task.Some? ==> EndView(e).task.value.status == if fails(next - 1) then RUNNING else FAILED
  {}

  /** Some operation from here on fails. */
  ghost predicate Faulty(fails: nat -> bool, from: nat) {
    exists k :: k >= from && fails(k)
  }

  lemma FaultyAt(fails: nat -> bool, from: nat)
    requires fails(from)
    ensures Faulty(fails, from)
  {}

  /** The end of a run that began with its running row. */
  ghost predicate EndsFrom(running: Task, e: Ending, fails: nat -> bool, next: nat) {
    && !e.Unstarted? && e.running == running && RowsOf(running.id, e) && LastWrite(e, fails, next)
  }

  /** saveTaskStatus "failed"; its own error is ignored. */
  method SaveFailed(store: Store, env: Environment, running: Task) returns (ghost e: Ending)
    requires store.Valid() && running.status == RUNNING
    modifies env`ticks, store
    ensures store.Valid() && store.trail == old(store.trail) + LaterStates(old(store.db), e)
    ensures store.ops > old(store.ops)
    ensures (e.Stuck? || e.Aborted?) && EndsFrom(running, e, store.fails, store.ops)
  {
    var end := env.Now();
    var failed := running.(status := FAILED, finishedAt := end);
    var ok := store.SaveTask(failed);
    if ok {
      e := AbortedEnds(old(store.db), running, failed, store.fails, store.ops);
      return;
    }
    e := StuckEnds(old(store.db), running, store.fails, store.ops);
    ConcatNil(store.trail);
  }

  lemma AbortedEnds(marked: Db, running: Task, failed: Task, fails: nat -> bool, next: nat)
    returns (e: Ending)
    requires running.status == RUNNING && failed.id == running.id && failed.status == FAILED
    requires next > 0 && !fails(next - 1)
    ensures LaterStates(marked, e) == [Marked(marked, failed)] && EndsFrom(running, e, fails, next) && e.Aborted?
  {
    e := Aborted(running, failed);
  }

  lemma StuckEnds(marked: Db, running: Task, fails: nat -> bool, next: nat) returns (e: Ending)
    requires running.status == RUNNING && next > 0 && fails(next - 1)
    ensures LaterStates(marked, e) == [] && EndsFrom(running, e, fails, next) && e.Stuck?
  {
    e := Stuck(running);
  }

  /** Persisting a prepared result: on a task without findings only the database engine can fail, at one of the
      `count` operations of the transaction. */
  method SaveResult(store: Store, env: Environment, cfg: Config, world: World, plan: Plan, input: Input, start: int,
                    p: Prepared)
    returns (ok: bool, ghost rec: ReviewRecord, ghost finished: int, ghost now: int, ghost count: nat)
    requires store.Valid() && Of(store.db.findings, RowOwner, world.taskId) == []
    requires Carried(world.taskId, p)
    modifies env`ticks, store
    ensures store.Valid() && store.ops > old(store.ops)
    ensures rec == SavedRecord(cfg, world, plan, input, start, finished, now, p) && OneTask(rec)
    ensures count == |Script(rec)| + 2 && (ok <==> Quiet(store.fails, old(store.ops), count))
    ensures store.db == if ok then AfterSave(old(store.db), rec) else old(store.db)
    ensures store.trail == if ok then old(store.trail) + [store.db] else old(store.trail)
  {
    var end := env.Now();
    var at := env.Now();
    var task := TaskRow(world, input, cfg.digest, plan.mode, DONE, start, end);
    finished, now := end, at;
    rec := RecordFor(task, p.body, p.counts, p.decisions, p.runs, p.bundle, cfg.digest, at);
    count := |Script(rec)| + 2;
    RecordIsOneTask(task, p.body, p.counts, p.decisions, p.runs, p.bundle, cfg.digest, at);
    RecordCommits(store.db, task, p.body, p.counts, p.decisions, p.runs, p.bundle, cfg.digest, at);
    ok := Persist(store, task, p.body, p.counts, p.decisions, p.runs, p.bundle, cfg.digest, at);
  }

  lemma SavedTask(cfg: Config, world: World, plan: Plan, input: Input, start: int, finished: int,
                  now: int, p: Prepared)
    ensures var rec := SavedRecord(cfg, world, plan, input, start, finished, now, p);
            rec.task.id == world.taskId && rec.task.status == DONE
  {}

  /** The end of a run with a store: its result is saved, or it fails. */
  method SaveOrFail(store: Store, env: Environment, cfg: Config, world: World, plan: Plan, input: Input, start: int,
                    running: Task, prepared: Result<Prepared>)
    returns (result: Result<Body>, ghost e: Ending, ghost finished: int, ghost now: int, ghost count: nat)
    requires store.Valid() && Of(store.db.findings, RowOwner, world.taskId) == []
    requires running.id == world.taskId && running.status == RUNNING
    requires prepared.Ok? ==> Carried(world.taskId, prepared.value)
    modifies env`ticks, store
    ensures store.Valid() && store.trail == old(store.trail) + LaterStates(old(store.db), e)
    ensures store.ops > old(store.ops)
    ensures EndsFrom(running, e, store.fails, store.ops) && (result.Ok? <==> e.Complete?)
    ensures e.Complete? ==> prepared.Ok? && result.value == prepared.value.body
    ensures e.Complete? ==> e.rec == SavedRecord(cfg, world, plan, input, start, finished, now, prepared.value)
    ensures result.Err? && prepared.Ok? ==> !Quiet(store.fails, old(store.ops), count)
  {
    finished, now, count := 0, 0, 0;
    if prepared.Err? {
      result := Err(prepared.message);
      e := SaveFailed(store, env, running);
      return;
    }
    var ok;
    ghost var rec;
    ok, rec, finished, now, count := SaveResult(store, env, cfg, world, plan, input, start, prepared.value);
    if ok {
      SavedTask(cfg, world, plan, input, start, finished, now, prepared.value);
      e := Complete(running, rec);
      return Ok(prepared.value.body), e, finished, now, count;
    }
    result := Err("save review");
    e := SaveFailed(store, env, running);
  }

  function Noticed(cfg: Config, world: World, plan: Plan, input: Input, a: Audit): seq<Notice> {
    Notices(cfg, world, plan, input, a, !ReportsFail(cfg, world, plan, input, a))
  }

  /** The result of a run with a store, and the ending it goes with. */
  ghost predicate Told(cfg: Config, world: World, plan: Plan, input: Input, start: int, result: Result<Body>,
                       a: Option<Audit>, e: Ending) {
    && (result.Ok? <==> e.Complete?)
    && (e.Complete? ==> a.Some? && Delivered(cfg, world, plan, input, start, a.value, result.value, e.rec))
  }

  /** Why a run with a task ended in an error: the reports, or the database engine. */
  ghost predicate Excused(cfg: Config, world: World, plan: Plan, input: Input, a: Option<Audit>, fails: nat -> bool,
                          from: nat) {
    Faulty(fails, from) || (a.Some? && ReportsFail(cfg, world, plan, input, a.value))
  }

  lemma Telling(cfg: Config, world: World, plan: Plan, input: Input, start: int, a: Audit,
                prepared: Result<Prepared>, result: Result<Body>, e: Ending, finished: int,
                now: int, fails: nat -> bool, from: nat, first: nat, count: nat)
    requires prepared.Ok? ==> PreparedFor(cfg, world, plan, input, a, prepared.value)
    requires prepared.Err? ==> ReportsFail(cfg, world, plan, input, a)
    requires result.Ok? <==> e.Complete?
    requires e.Complete? ==> prepared.Ok? && result.value == prepared.value.body
    requires e.Complete? ==> e.rec == SavedRecord(cfg, world, plan, input, start, finished, now, prepared.value)
    requires result.Err? && prepared.Ok? ==> !Quiet(fails, first, count)
    requires from <= first
    ensures Told(cfg, world, plan, input, start, result, Some(a), e)
    ensures result.Err? ==> Excused(cfg, world, plan, input, Some(a), fails, from)
  {
    if result.Err? && prepared.Ok? {
      var k := NotQuiet(fails, first, count);
    }
  }

  /** A run with a store, after its running row was saved: its result is saved, or it fails. */
  method RunMarked(store: Store, env: Environment, cfg: Config, world: World, plan: Plan, input: Input, start: int,
                   running: Task, ghost from: nat)
    returns (result: Result<Body>, events: seq<Notice>, ghost a: Audit, ghost trace: seq<Event>,
             ghost extra: seq<Decision>, ghost e: Ending)
    requires store.Valid() && Of(store.db.findings, RowOwner, world.taskId) == [] && from <= store.ops
    requires running.id == world.taskId && running.status == RUNNING
    modifies env, store
    ensures store.Valid() && store.trail == old(store.trail) + LaterStates(old(store.db), e)
    ensures EndsFrom(running, e, store.fails, store.ops) && store.ops > old(store.ops)
    ensures env.log == old(env.log) + trace
    ensures Explains(cfg, world, plan, input, env.load(|old(env.log)|), trace, extra, a)
    ensures Told(cfg, world, plan, input, start, result, Some(a), e)
    ensures result.Err? ==> Excused(cfg, world, plan, input, Some(a), store.fails, from)
    ensures events == Noticed(cfg, world, plan, input, a)
  {
    ghost var first := store.ops;
    var prepared;
    prepared, events, a, trace, extra := Prepare(env, cfg, world, plan, input, start);
    ghost var finished, now, count;
    result, e, finished, now, count :=
      SaveOrFail(store, env, cfg, world, plan, input, start, running, prepared);
    Telling(cfg, world, plan, input, start, a, prepared, result, e, finished, now, store.fails, from, first, count);
  }

  /** The store's part in a run: the running row first, then the result or the failed row. */
  method RunStored(store: Store, env: Environment, cfg: Config, world: World, plan: Plan, input: Input, start: int)
    returns (result: Result<Body>, events: seq<Notice>, ghost a: Option<Audit>, ghost trace: seq<Event>,
             ghost extra: seq<Decision>, ghost e: Ending)
    requires store.Valid() && Of(store.db.findings, RowOwner, world.taskId) == []
    modifies env, store
    ensures store.Valid() && store.trail == old(store.trail) + States(old(store.db), e)
    ensures Ends(world.taskId, e, store.fails, old(store.ops), store.ops)
    ensures env.log == old(env.log) + trace
    ensures a.Some? ==> Explains(cfg, world, plan, input, env.load(|old(env.log)|), trace, extra, a.value)
    ensures Told(cfg, world, plan, input, start, result, a, e)
    ensures result.Err? ==> Excused(cfg, world, plan, input, a, store.fails, old(store.ops))
    ensures events == if a.None? then [] else Noticed(cfg, world, plan, input, a.value)
  {
    var running := TaskRow(world, input, cfg.digest, plan.mode, RUNNING, start, 0);
    var ok := store.SaveTask(running);
    if !ok {
      FaultyAt(store.fails, old(store.ops));
      ConcatNil(store.trail);
      ConcatNil(env.log);
      return Err("save task"), [], None, [], [], Unstarted;
    }
    ghost var marked := store.db;
    ghost var audit;
    result, events, audit, trace, extra, e :=
      RunMarked(store, env, cfg, world, plan, input, start, running, old(store.ops));
    a := Some(audit);
    ConcatAssoc(old(store.trail), [marked], LaterStates(marked, e));
  }

  predicate Rejected(world: World) {
    world.plan.Err? || world.input.Err?
  }

  /** Exactly one terminal event, the last one, saying how the run ended. */
  predicate EndsOnce(events: seq<Notice>, result: Result<Body>) {
    && Terminals(events) == 1 && events != []
    && events[|events| - 1] == LastNotice(result)
  }

  function LastNotice(result: Result<Body>): Notice {
    if result.Ok? then TaskFinished(result.value.conclusion.status) else TaskFailed
  }

  lemma {:induction false} TerminalsCons(n: Notice, ns: seq<Notice>)
    requires !Terminal(n)
    ensures Terminals([n] + ns) == Terminals(ns)
  {
    if ns != [] {
      assert ([n] + ns)[..|ns|] == [n] + ns[..|ns| - 1];
      TerminalsCons(n, ns[..|ns| - 1]);
    }
  }

  /** A complete run. */
  method RunDirect(store: Store?, env: Environment, cfg: Config, world: World)
    returns (result: Result<Body>, events: seq<Notice>, ghost start: int, ghost a: Option<Audit>,
             ghost trace: seq<Event>, ghost extra: seq<Decision>, ghost e: Ending)
    requires store != null ==> store.Valid() && ViewOf(store.db, world.taskId) == Bare(None)
    modifies env, store
    ensures Rejected(world) ==> result.Err? && events == [] && trace == [] && a == None
    ensures !Rejected(world) ==> EndsOnce(events, result)
    ensures !Rejected(world) ==> start == env.clock(old(env.ticks))
    ensures !Rejected(world) ==>
              events == [InputLoaded]
                        + (if a.None? then [] else Noticed(cfg, world, world.plan.value, world.input.value, a.value))
                        + [LastNotice(result)]
    ensures env.log == old(env.log) + trace
    ensures a.Some? ==> Explains(cfg, world, world.plan.value, world.input.value, env.load(|old(env.log)|), trace,
                                 extra, a.value)
    ensures result.Ok? ==> a.Some? && result.value == ResultOf(cfg, world, world.plan.value, world.input.value, a.value)
    ensures store != null ==> store.Valid() && store.trail == old(store.trail) + States(old(store.db), e)
    ensures store != null && Rejected(world) ==> e == Unstarted && store.ops == old(store.ops)
    ensures store != null && !Rejected(world) ==>
              && Ends(world.taskId, e, store.fails, old(store.ops), store.ops)
              && Told(cfg, world, world.plan.value, world.input.value, start, result, a, e)
              && (result.Err? ==> Excused(cfg, world, world.plan.value, world.input.value, a, store.fails,
                                          old(store.ops)))
  {
    start, a, trace, extra, e := 0, None, [], [], Unstarted;
    events := [];
    ConcatNil(env.log);
    if store != null {
      ConcatNil(store.trail);
    }
    if world.plan.Err? {
      return Err(world.plan.message), [], 0, None, [], [], Unstarted;
    }
    if world.input.Err? {
      return Err(world.input.message), [], 0, None, [], [], Unstarted;
    }
    result, events, start, a, trace, extra, e := RunLoaded(store, env, cfg, world, world.plan.value, world.input.value);
  }

  /** A run whose input is loaded. */
  method RunLoaded(store: Store?, env: Environment, cfg: Config, world: World, plan: Plan, input: Input)
    returns (result: Result<Body>, events: seq<Notice>, ghost start: int, ghost a: Option<Audit>,
             ghost trace: seq<Event>, ghost extra: seq<Decision>, ghost e: Ending)
    requires store != null ==> store.Valid() && ViewOf(store.db, world.taskId) == Bare(None)
    modifies env, store
    ensures start == env.clock(old(env.ticks)) && EndsOnce(events, result)
    ensures events == [InputLoaded] + (if a.None? then [] else Noticed(cfg, world, plan, input, a.value))
                      + [LastNotice(result)]
    ensures env.log == old(env.log) + trace
    ensures a.Some? ==> Explains(cfg, world, plan, input, env.load(|old(env.log)|), trace, extra, a.value)
    ensures result.Ok? ==> a.Some? && result.value == ResultOf(cfg, world, plan, input, a.value)
    ensures store != null ==> store.Valid() && store.trail == old(store.trail) + States(old(store.db), e)
    ensures store != null ==> Ends(world.taskId, e, store.fails, old(store.ops), store.ops)
                              && Told(cfg, world, plan, input, start, result, a, e)
    ensures store != null && result.Err? ==> Excused(cfg, world, plan, input, a, store.fails, old(store.ops))
  {
    var now := env.Now();
    start := now;
    var more;
    if store != null {
      result, more, a, trace, extra, e := RunStored(store, env, cfg, world, plan, input, now);
    } else {
      var prepared;
      ghost var audit;
      prepared, more, audit, trace, extra := Prepare(env, cfg, world, plan, input, now);
      a := Some(audit);
      e := Unstarted;
      if prepared.Ok? {
        result := Ok(prepared.value.body);
      } else {
        result := Err(prepared.message);
      }
    }
    NoticesEndOnce(cfg, world, plan, input, a, more, result);
    events := [InputLoaded] + more + [LastNotice(result)];
  }

  lemma NoticesEndOnce(cfg: Config, world: World, plan: Plan, input: Input, a: Option<Audit>,
                       more: seq<Notice>, result: Result<Body>)
    requires more == if a.None? then [] else Noticed(cfg, world, plan, input, a.value)
    ensures EndsOnce([InputLoaded] + more + [LastNotice(result)], result)
  {
    if a.Some? {
      NoticesQuiet(cfg, world, plan, input, a.value, !ReportsFail(cfg, world, plan, input, a.value));
    }
    TerminalsCons(InputLoaded, more);
    TerminalsSnoc([InputLoaded] + more, LastNotice(result));
  }
}
