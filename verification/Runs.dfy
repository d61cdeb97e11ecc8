/** Any number of runs, one after the other, on one store. */
module Runs {
  import opened Wrappers
  import opened Text
  import opened Findings
  import opened Records
  import opened ReviewResult
  import opened Commands
  import opened Governance
  import opened ReviewChecks
  import opened AuditStore
  import opened Persistence
  import opened Lifecycle

  /** The states of the store so far: legal from the first to the current one, and coherent. */
  ghost predicate Sound(trail: seq<Db>, db: Db) {
    trail != [] && trail[|trail| - 1] == db && LegalTrail(trail) && AllCoherent(trail[0]) && AllCoherent(db)
  }

  lemma NewStoreIsSound(db: Db)
    requires db == Db(map[], [], [], [], [], [], map[], map[])
    ensures Sound([db], db)
  {
    EmptyIsCoherent();
  }

  /** The audit is what policy, tools and model answered to the checks. */
  ghost predicate Truthful(cfg: Config, world: World, a: Audit)
    requires !Rejected(world)
  {
    exists loading, trace, extra :: Explains(cfg, world, world.plan.value, world.input.value, loading, trace, extra, a)
  }

  /** The task row of a run that is done. */
  predicate DoneRow(cfg: Config, world: World, start: int, task: Task)
    requires !Rejected(world)
  {
    && task.id == world.taskId && task.status == DONE && task.mode == world.plan.value.mode
    && task.inputType == "diff" && task.inputRef == world.input.value.ref
    && task.inputDigest == cfg.digest(world.input.value.diff) && task.repoPath == world.repoPath
    && task.createdAt == start && task.startedAt == start
  }

  /** The view shows, in full, the review that led to this result: the result itself, the decisions and sandbox runs of
      its checks, and the report texts that were built from it. */
  ghost predicate Recorded(cfg: Config, world: World, result: Body, v: View)
    requires !Rejected(world)
  {
    exists start: int, a: Audit, task: Task, p: Prepared, now: int ::
      RecordedAs(cfg, world, result, v, start, a, task, p, now)
  }

  ghost predicate RecordedAs(cfg: Config, world: World, result: Body, v: View, start: int, a: Audit, task: Task,
                             p: Prepared, now: int)
    requires !Rejected(world)
  {
    && Truthful(cfg, world, a) && DoneRow(cfg, world, start, task)
    && PreparedFor(cfg, world, world.plan.value, world.input.value, a, p) && result == p.body
    && StoresReview(v, task, result, p.counts, a.decisions, a.runs, p.bundle, cfg.digest, now)
  }

  /** What the store shows of the task of a run that performed the operations from first up to next. A result is done
      and recorded in full. An error leaves no child rows: not even a task row exactly when the run was rejected or its
      first write failed, else a row that is failed unless the run's last write failed as well. */
  ghost predicate Shows(cfg: Config, world: World, result: Result<Body>, v: View, fails: nat -> bool, first: nat,
                        next: nat) {
    && first <= next && (result.Ok? <==> IsDone(v))
    && if Rejected(world) then result.Err? && v == Bare(None)
       else
         && first < next
         && (result.Ok? ==> Recorded(cfg, world, result.value, v))
         && (result.Err? ==>
               && v == Bare(v.task) && (v.task.None? <==> fails(first))
               && (v.task.Some? ==> v.task.value.status == if fails(next - 1) then RUNNING else FAILED))
  }

  lemma DeliveredIsRecorded(cfg: Config, world: World, result: Body, start: int, a: Audit, rec: ReviewRecord)
    requires !Rejected(world) && Truthful(cfg, world, a)
    requires Delivered(cfg, world, world.plan.value, world.input.value, start, a, result, rec)
    ensures Recorded(cfg, world, result, SavedView(Bare(None), rec))
  {
    var plan, input := world.plan.value, world.input.value;
    var finished: int, now: int, p: Prepared :|
      && PreparedFor(cfg, world, plan, input, a, p)
      && rec == SavedRecord(cfg, world, plan, input, start, finished, now, p);
    var task := TaskRow(world, input, cfg.digest, plan.mode, DONE, start, finished);
    SavedReviewStores(task, p.body, p.counts, p.decisions, p.runs, p.bundle, cfg.digest, now);
    assert RecordedAs(cfg, world, result, SavedView(Bare(None), rec), start, a, task, p, now);
  }

  lemma EndShows(cfg: Config, world: World, result: Result<Body>, start: int, a: Option<Audit>, e: Ending,
                 fails: nat -> bool, first: nat, next: nat)
    requires !Rejected(world) && Ends(world.taskId, e, fails, first, next)
    requires a.Some? ==> Truthful(cfg, world, a.value)
    requires Told(cfg, world, world.plan.value, world.input.value, start, result, a, e)
    ensures Shows(cfg, world, result, EndView(e), fails, first, next)
  {
    StatusesDiffer();
    if e.Complete? {
      DeliveredIsRecorded(cfg, world, result.value, start, a.value, e.rec);
    } else {
      ErrorEndsFailed(e, world.taskId, fails, first, next);
    }
  }

  /** The states of a run prolong those before it. */
  ghost predicate Prolongs(before: seq<Db>, trail: seq<Db>, id: string)
    requires before != [] && trail != []
  {
    before <= trail && OthersSame(before[|before| - 1], trail[|trail| - 1], id)
  }

  lemma TrailEnds(trail: seq<Db>, before: Db, states: seq<Db>)
    requires trail != [] && trail[|trail| - 1] == before
    ensures LastOf(before, states) == (trail + states)[|trail + states| - 1] && (trail + states)[0] == trail[0]
  {}

  /** What a run that was not rejected leaves behind. */
  lemma AfterRun(trail: seq<Db>, before: Db, cfg: Config, world: World, result: Result<Body>, start: int,
                 a: Option<Audit>, e: Ending, fails: nat -> bool, first: nat, next: nat, now: seq<Db>, after: Db)
    requires Sound(trail, before) && world.taskId !in before.tasks && !Rejected(world)
    requires Ends(world.taskId, e, fails, first, next) && (a.Some? ==> Truthful(cfg, world, a.value))
    requires Told(cfg, world, world.plan.value, world.input.value, start, result, a, e)
    requires now == trail + States(before, e) && now[|now| - 1] == after
    ensures Sound(now, after) && Prolongs(trail, now, world.taskId)
    ensures Shows(cfg, world, result, ViewOf(after, world.taskId), fails, first, next)
  {
    RunKeepsSound(trail, before, world.taskId, e, fails, first, next);
    EndShows(cfg, world, result, start, a, e, fails, first, next);
    TrailEnds(trail, before, States(before, e));
  }

  lemma ExplainedIsTruthful(cfg: Config, world: World, loading: Option<string>, trace: seq<Event>,
                            extra: seq<Decision>, a: Audit)
    requires !Rejected(world)
    requires Explains(cfg, world, world.plan.value, world.input.value, loading, trace, extra, a)
    ensures Truthful(cfg, world, a)
  {}

  lemma RejectedShows(cfg: Config, world: World, result: Result<Body>, fails: nat -> bool, at: nat)
    requires Rejected(world) && result.Err?
    ensures Shows(cfg, world, result, Bare(None), fails, at, at)
  {}

  /** One run on a sound store: it stays sound, other tasks are untouched, and the run's own task shows its result. */
  method RunOnce(store: Store, env: Environment, cfg: Config, world: World) returns (result: Result<Body>)
    requires store.Valid() && Sound(store.trail, store.db) && world.taskId !in store.db.tasks
    modifies env, store
    ensures store.Valid() && Sound(store.trail, store.db)
    ensures Prolongs(old(store.trail), store.trail, world.taskId)
    ensures Shows(cfg, world, result, ViewOf(store.db, world.taskId), store.fails, old(store.ops), store.ops)
  {
    ghost var before, trail, first, loading := store.db, store.trail, store.ops, env.load(|env.log|);
    FreshIsBare(store.db, world.taskId);
    var events;
    ghost var start, a, log, extra, e;
    result, events, start, a, log, extra, e := RunDirect(store, env, cfg, world);
    if Rejected(world) {
      ConcatNil(trail);
      RejectedShows(cfg, world, result, store.fails, first);
    } else {
      if a.Some? {
        ExplainedIsTruthful(cfg, world, loading, log, extra, a.value);
      }
      AfterRun(trail, before, cfg, world, result, start, a, e, store.fails, first, store.ops, store.trail, store.db);
    }
  }

  /** The task ids of the runs are new, and each is used once. */
  predicate NewIds(worlds: seq<World>, db: Db) {
    && (forall i :: 0 <= i < |worlds| ==> worlds[i].taskId !in db.tasks)
    && forall i, j :: 0 <= i < j < |worlds| ==> worlds[i].taskId != worlds[j].taskId
  }

  lemma StaysNew(before: Db, after: Db, ran: string, id: string)
    requires OthersSame(before, after, ran) && id != ran
    ensures id in after.tasks <==> id in before.tasks
    ensures ViewOf(after, id) == ViewOf(before, id)
  {
    assert ViewOf(after, id) == ViewOf(before, id);
    assert ViewOf(after, id).task.Some? <==> id in after.tasks;
    assert ViewOf(before, id).task.Some? <==> id in before.tasks;
  }

  /** Each task shows what its run returned; run i performed the operations from marks[i] up to marks[i + 1]. */
  ghost predicate AllShow(cfg: Config, worlds: seq<World>, results: seq<Result<Body>>, db: Db, fails: nat -> bool,
                          marks: seq<nat>) {
    && |results| <= |worlds| && |marks| == |results| + 1
    && forall i :: 0 <= i < |results| ==> ShownAt(cfg, worlds, results, db, fails, marks, i)
  }

  ghost predicate ShownAt(cfg: Config, worlds: seq<World>, results: seq<Result<Body>>, db: Db, fails: nat -> bool,
                          marks: seq<nat>, i: nat)
    requires i < |results| <= |worlds| && |marks| == |results| + 1
  {
    Shows(cfg, worlds[i], results[i], ViewOf(db, worlds[i].taskId), fails, marks[i], marks[i + 1])
  }

  ghost predicate StillNew(worlds: seq<World>, from: nat, db: Db) {
    forall i :: from <= i < |worlds| ==> worlds[i].taskId !in db.tasks
  }

  /** The tasks of the first n runs aside, nothing has changed. */
  ghost predicate RestSame(worlds: seq<World>, n: nat, start: Db, db: Db)
    requires n <= |worlds|
  {
    forall id :: (forall i :: 0 <= i < n ==> worlds[i].taskId != id) ==> ViewOf(db, id) == ViewOf(start, id)
  }

  lemma NextRest(worlds: seq<World>, n: nat, start: Db, before: Db, after: Db)
    requires n < |worlds| && RestSame(worlds, n, start, before) && OthersSame(before, after, worlds[n].taskId)
    ensures RestSame(worlds, n + 1, start, after)
  {
    forall id | forall i :: 0 <= i < n + 1 ==> worlds[i].taskId != id
      ensures ViewOf(after, id) == ViewOf(start, id)
    {
      assert worlds[n].taskId != id;
      assert ViewOf(before, id) == ViewOf(start, id);
    }
  }

  lemma NextRun(cfg: Config, worlds: seq<World>, results: seq<Result<Body>>, result: Result<Body>, start: Db,
                before: Db, after: Db, fails: nat -> bool, marks: seq<nat>, next: nat)
    requires |results| < |worlds| && NewIds(worlds, start)
    requires AllShow(cfg, worlds, results, before, fails, marks) && StillNew(worlds, |results|, before)
    requires OthersSame(before, after, worlds[|results|].taskId)
    requires Shows(cfg, worlds[|results|], result, ViewOf(after, worlds[|results|].taskId), fails, marks[|results|],
                   next)
    ensures AllShow(cfg, worlds, results + [result], after, fails, marks + [next])
    ensures StillNew(worlds, |results| + 1, after)
  {
    var n := |results|;
    forall i | 0 <= i < |worlds| && i != n
      ensures ViewOf(after, worlds[i].taskId) == ViewOf(before, worlds[i].taskId)
      ensures worlds[i].taskId in after.tasks <==> worlds[i].taskId in before.tasks
    {
      StaysNew(before, after, worlds[n].taskId, worlds[i].taskId);
    }
    forall i | 0 <= i < n + 1
      ensures ShownAt(cfg, worlds, results + [result], after, fails, marks + [next], i)
    {
      if i < n {
        assert ShownAt(cfg, worlds, results, before, fails, marks, i);
        StillShown(cfg, worlds, results, result, before, after, fails, marks, next, i);
      }
    }
  }

  lemma StillShown(cfg: Config, worlds: seq<World>, results: seq<Result<Body>>, result: Result<Body>, before: Db,
                   after: Db, fails: nat -> bool, marks: seq<nat>, next: nat, i: nat)
    requires i < |results| < |worlds| && |marks| == |results| + 1
    requires ShownAt(cfg, worlds, results, before, fails, marks, i)
    requires ViewOf(after, worlds[i].taskId) == ViewOf(before, worlds[i].taskId)
    ensures ShownAt(cfg, worlds, results + [result], after, fails, marks + [next], i)
  {}

  /** In every state a running or failed task has no child rows, and a done one shows exactly a saved record. */
  ghost predicate CoherentThroughout(trail: seq<Db>) {
    forall k :: 0 <= k < |trail| ==> CoherentAt(trail, k)
  }

  ghost predicate CoherentAt(trail: seq<Db>, k: nat)
    requires k < |trail|
  {
    AllCoherent(trail[k]) && forall id :: IsDone(ViewOf(trail[k], id)) ==> ShowsRecord(trail, k, id)
  }

  /** From the moment a task is done it shows the same. */
  ghost predicate DoneIsKept(trail: seq<Db>) {
    forall i, k, id :: 0 <= i <= k < |trail| && IsDone(ViewOf(trail[i], id)) ==>
                         ViewOf(trail[k], id) == ViewOf(trail[i], id)
  }

  lemma SoundTrail(trail: seq<Db>, db: Db)
    requires Sound(trail, db)
    ensures CoherentThroughout(trail) && DoneIsKept(trail)
  {
    forall k | 0 <= k < |trail|
      ensures CoherentAt(trail, k)
    {
      AlwaysCoherent(trail, k);
    }
    forall i, k, id | 0 <= i <= k < |trail| && IsDone(ViewOf(trail[i], id))
      ensures ViewOf(trail[k], id) == ViewOf(trail[i], id)
    {
      DoneForEver(trail, i, k, id);
    }
  }

  /** The task belongs to one of the runs, which returned a result, and the view is the full record of that result. */
  ghost predicate ReturnedBy(cfg: Config, worlds: seq<World>, results: seq<Result<Body>>, id: string, v: View) {
    exists i :: 0 <= i < |worlds| && i < |results| && worlds[i].taskId == id && !Rejected(worlds[i])
                && results[i].Ok? && Recorded(cfg, worlds[i], results[i].value, v)
  }

  /** In every state, a done task was so before the runs, or shows the full record of what its run returned. */
  ghost predicate EveryDoneRecorded(cfg: Config, worlds: seq<World>, results: seq<Result<Body>>, start: Db,
                                    trail: seq<Db>) {
    forall k, id :: 0 <= k < |trail| && IsDone(ViewOf(trail[k], id)) ==>
      || ViewOf(trail[k], id) == ViewOf(start, id)
      || ReturnedBy(cfg, worlds, results, id, ViewOf(trail[k], id))
  }

  lemma DoneRecorded(cfg: Config, worlds: seq<World>, results: seq<Result<Body>>, start: Db, trail: seq<Db>, db: Db,
                     fails: nat -> bool, marks: seq<nat>)
    requires Sound(trail, db) && DoneIsKept(trail) && |results| == |worlds|
    requires AllShow(cfg, worlds, results, db, fails, marks) && RestSame(worlds, |worlds|, start, db)
    ensures EveryDoneRecorded(cfg, worlds, results, start, trail)
  {
    forall k, id | 0 <= k < |trail| && IsDone(ViewOf(trail[k], id))
      ensures ViewOf(trail[k], id) == ViewOf(start, id)
              || ReturnedBy(cfg, worlds, results, id, ViewOf(trail[k], id))
    {
      assert ViewOf(trail[|trail| - 1], id) == ViewOf(trail[k], id);
      if i :| 0 <= i < |worlds| && worlds[i].taskId == id {
        ShownIsReturned(cfg, worlds, results, db, fails, marks, i);
      }
    }
  }

  lemma ShownIsReturned(cfg: Config, worlds: seq<World>, results: seq<Result<Body>>, db: Db, fails: nat -> bool,
                        marks: seq<nat>, i: nat)
    requires i < |worlds| == |results| && AllShow(cfg, worlds, results, db, fails, marks)
    requires IsDone(ViewOf(db, worlds[i].taskId))
    ensures ReturnedBy(cfg, worlds, results, worlds[i].taskId, ViewOf(db, worlds[i].taskId))
  {
    assert ShownAt(cfg, worlds, results, db, fails, marks, i);
  }

  /** Whatever fails and whatever the environments do: in every state of every run every task is coherent, what is
      done is recorded in full and stays as it is, and in the end each task shows what its run returned. */
  method RunAll(store: Store, env: Environment, cfg: Config, worlds: seq<World>)
    returns (results: seq<Result<Body>>, ghost marks: seq<nat>)
    requires store.Valid() && Sound(store.trail, store.db) && NewIds(worlds, store.db)
    modifies env, store
    ensures store.Valid() && Sound(store.trail, store.db) && old(store.trail) <= store.trail
    ensures |results| == |worlds| && AllShow(cfg, worlds, results, store.db, store.fails, marks)
    ensures marks[0] == old(store.ops) && marks[|worlds|] == store.ops
    ensures RestSame(worlds, |worlds|, old(store.db), store.db)
    ensures CoherentThroughout(store.trail) && DoneIsKept(store.trail)
    ensures EveryDoneRecorded(cfg, worlds, results, old(store.db), store.trail)
  {
    ghost var start := store.db;
    results, marks := [], [store.ops];
    for i := 0 to |worlds|
      invariant store.Valid() && Sound(store.trail, store.db) && old(store.trail) <= store.trail
      invariant |results| == i && AllShow(cfg, worlds, results, store.db, store.fails, marks)
      invariant marks[0] == old(store.ops) && marks[i] == store.ops
      invariant StillNew(worlds, i, store.db) && RestSame(worlds, i, start, store.db)
    {
      ghost var before := store.db;
      var result := RunOnce(store, env, cfg, worlds[i]);
      NextRun(cfg, worlds, results, result, start, before, store.db, store.fails, marks, store.ops);
      NextRest(worlds, i, start, before, store.db);
      results, marks := results + [result], marks + [store.ops];
    }
    SoundTrail(store.trail, store.db);
    DoneRecorded(cfg, worlds, results, start, store.trail, store.db, store.fails, marks);
  }
}
