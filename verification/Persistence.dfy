/** What a run saves: the record built from a finalised result, and what becomes of it in the store. */
module Persistence {
  import opened Wrappers
  import opened Text
  import opened Findings
  import opened ModelReview
  import opened Records
  import opened ReviewResult
  import opened ReviewLaws
  import opened ResultMeaning
  import opened Governance
  import opened Picking
  import opened ReviewChecks
  import opened AuditStore

  datatype Bundle = Bundle(json: string, markdown: string, markdownZh: string, diagnostics: string)

  // ----- rows of one task -----

  /** The rows that belong to a task. */
  function Of<T>(rows: seq<T>, owner: T -> string, id: string): seq<T> {
    if rows == [] then []
    else Of(rows[..|rows| - 1], owner, id) + if owner(rows[|rows| - 1]) == id then [rows[|rows| - 1]] else []
  }

  const DecisionOwner: Decision -> string := (d: Decision) => d.taskId
  const FilterOwner: FilterDecision -> string := (f: FilterDecision) => f.taskId
  const RunOwner: SandboxRun -> string := (r: SandboxRun) => r.taskId
  const ArtifactOwner: ArtifactRow -> string := (a: ArtifactRow) => a.taskId
  const RowOwner: FindingRow -> string := (r: FindingRow) => r.taskId

  ghost predicate AllOf<T>(rows: seq<T>, owner: T -> string, id: string) {
    forall r :: r in rows ==> owner(r) == id
  }

  lemma OfConcat<T>(a: seq<T>, b: seq<T>, owner: T -> string, id: string)
    ensures Of(a + b, owner, id) == Of(a, owner, id) + Of(b, owner, id)
  {
    if b == [] {
      ConcatNil(a);
      ConcatNil(Of(a, owner, id));
    } else {
      assert (a + b)[..|a + b| - 1] == a + b[..|b| - 1];
      OfConcat(a, b[..|b| - 1], owner, id);
      ConcatAssoc(Of(a, owner, id), Of(b[..|b| - 1], owner, id),
                  if owner(b[|b| - 1]) == id then [b[|b| - 1]] else []);
    }
  }

  lemma OfAll<T>(rows: seq<T>, owner: T -> string, id: string, other: string)
    requires AllOf(rows, owner, id)
    ensures Of(rows, owner, other) == if other == id then rows else []
  {
    if rows != [] {
      LastSplits(rows);
      OfAll(rows[..|rows| - 1], owner, id, other);
    }
  }

  /** Everything the database holds about a task. */
  datatype View = View(task: Option<Task>, findings: seq<FindingRow>, decisions: seq<Decision>,
                       filters: seq<FilterDecision>, runs: seq<SandboxRun>, artifacts: seq<ArtifactRow>,
                       metrics: Option<MetricsRow>, report: Option<Report>)

  function At<T>(m: map<string, T>, id: string): Option<T> {
    if id in m then Some(m[id]) else None
  }

  function ViewOf(db: Db, id: string): View {
    View(At(db.tasks, id), Of(db.findings, RowOwner, id), Of(db.decisions, DecisionOwner, id),
         Of(db.filters, FilterOwner, id), Of(db.runs, RunOwner, id), Of(db.artifacts, ArtifactOwner, id),
         At(db.metrics, id), At(db.reports, id))
  }

  /** A task row without anything that refers to it. */
  function Bare(task: Option<Task>): View {
    View(task, [], [], [], [], [], None, None)
  }

  /** Every part of the record belongs to its task. */
  ghost predicate OneTask(rec: ReviewRecord) {
    var id := rec.task.id;
    && AllOf(rec.decisions, DecisionOwner, id) && AllOf(rec.filters, FilterOwner, id)
    && AllOf(rec.runs, RunOwner, id) && AllOf(rec.artifacts, ArtifactOwner, id) && rec.metrics.taskId == id
  }

  lemma {:induction false} StoredRunsOwner(rs: seq<SandboxRun>, id: string)
    requires AllOf(rs, RunOwner, id)
    ensures AllOf(StoredRuns(rs), RunOwner, id)
  {
    if rs != [] {
      LastSplits(rs);
      StoredRunsOwner(rs[..|rs| - 1], id);
      assert RunOwner(StoredRun(rs[|rs| - 1])) == RunOwner(rs[|rs| - 1]) == id;
    }
  }

  lemma {:induction false} RowsOwner(id: string, fs: seq<Finding>)
    ensures AllOf(Rows(id, fs), RowOwner, id)
  {
    if fs != [] {
      RowsOwner(id, fs[..|fs| - 1]);
    }
  }

  /** The view of a task once its review is saved. */
  function SavedView(before: View, rec: ReviewRecord): View {
    View(Some(rec.task), before.findings + Rows(rec.task.id, rec.findings), before.decisions + rec.decisions,
         before.filters + rec.filters, before.runs + StoredRuns(rec.runs), before.artifacts + rec.artifacts,
         Some(rec.metrics), Some(rec.report))
  }

  /** A saved review shows in full under its task, and nowhere else. */
  lemma SavedReviewIs(db: Db, rec: ReviewRecord, other: string)
    requires OneTask(rec)
    ensures ViewOf(AfterSave(db, rec), rec.task.id) == SavedView(ViewOf(db, rec.task.id), rec)
    ensures other != rec.task.id ==> ViewOf(AfterSave(db, rec), other) == ViewOf(db, other)
  {
    SavedRowsAre(db, rec, rec.task.id);
    SavedRowsAre(db, rec, other);
    if other != rec.task.id {
      ConcatNil(Of(db.findings, RowOwner, other));
      ConcatNil(Of(db.decisions, DecisionOwner, other));
      ConcatNil(Of(db.filters, FilterOwner, other));
      ConcatNil(Of(db.runs, RunOwner, other));
      ConcatNil(Of(db.artifacts, ArtifactOwner, other));
    }
  }

  lemma SavedRowsAre(db: Db, rec: ReviewRecord, id: string)
    requires OneTask(rec)
    ensures var e := AfterSave(db, rec);
            var own := id == rec.task.id;
            && Of(e.findings, RowOwner, id) == Of(db.findings, RowOwner, id)
                                               + (if own then Rows(rec.task.id, rec.findings) else [])
            && Of(e.decisions, DecisionOwner, id) == Of(db.decisions, DecisionOwner, id)
                                                     + (if own then rec.decisions else [])
            && Of(e.filters, FilterOwner, id) == Of(db.filters, FilterOwner, id) + (if own then rec.filters else [])
            && Of(e.runs, RunOwner, id) == Of(db.runs, RunOwner, id) + (if own then StoredRuns(rec.runs) else [])
            && Of(e.artifacts, ArtifactOwner, id) == Of(db.artifacts, ArtifactOwner, id)
                                                     + (if own then rec.artifacts else [])
  {
    RowsOwner(rec.task.id, rec.findings);
    StoredRunsOwner(rec.runs, rec.task.id);
    OfConcat(db.findings, Rows(rec.task.id, rec.findings), RowOwner, id);
    OfAll(Rows(rec.task.id, rec.findings), RowOwner, rec.task.id, id);
    OfConcat(db.decisions, rec.decisions, DecisionOwner, id);
    OfAll(rec.decisions, DecisionOwner, rec.task.id, id);
    OfConcat(db.filters, rec.filters, FilterOwner, id);
    OfAll(rec.filters, FilterOwner, rec.task.id, id);
    OfConcat(db.runs, StoredRuns(rec.runs), RunOwner, id);
    OfAll(StoredRuns(rec.runs), RunOwner, rec.task.id, id);
    OfConcat(db.artifacts, rec.artifacts, ArtifactOwner, id);
    OfAll(rec.artifacts, ArtifactOwner, rec.task.id, id);
  }

  // ----- building the record -----

  function FilterRows(taskId: string, redactions: int, now: int): seq<FilterDecision> {
    if redactions > 0 then [FilterDecision(taskId, "finding.evidence", "redact", "secret pattern", now)] else []
  }

  function KeptRun(r: SandboxRun, now: int, artifacts: nat): SandboxRun {
    r.(finishedAt := if r.finishedAt == 0 then now else r.finishedAt, artifactCount := artifacts)
  }

  function KeptRuns(rs: seq<SandboxRun>, now: int, artifacts: nat): seq<SandboxRun> {
    if rs == [] then []
    else KeptRuns(rs[..|rs| - 1], now, artifacts)
         + if ZeroRun(rs[|rs| - 1]) then [] else [KeptRun(rs[|rs| - 1], now, artifacts)]
  }

  /** The text behind a report artifact. */
  function Content(name: string, bundle: Bundle): Option<string> {
    if name == "review_diagnostics.json" then Some(bundle.diagnostics)
    else if name == "review_report.zh.md" then Some(bundle.markdownZh)
    else if name == "review_report.md" then Some(bundle.markdown)
    else if name == "review_report.json" then Some(bundle.json)
    else None
  }

  function RowOf(taskId: string, a: Artifact, bundle: Bundle, digest: string -> string, now: int): ArtifactRow {
    match Content(a.name, bundle)
    case None => ArtifactRow(taskId, a.name, a.kind, a.path, a.digest, 0, now)
    case Some(text) => ArtifactRow(taskId, a.name, a.kind, a.path, digest(text), |text|, now)
  }

  function ArtifactRows(taskId: string, artifacts: seq<Artifact>, bundle: Bundle, digest: string -> string, now: int)
    : seq<ArtifactRow>
  {
    if artifacts == [] then []
    else ArtifactRows(taskId, artifacts[..|artifacts| - 1], bundle, digest, now)
         + [RowOf(taskId, artifacts[|artifacts| - 1], bundle, digest, now)]
  }

  function RecordFor(task: Task, b: Body, counts: map<string, int>, decisions: seq<Decision>, runs: seq<SandboxRun>,
                     bundle: Bundle, digest: string -> string, now: int): ReviewRecord {
    ReviewRecord(task, NonZero(decisions), FilterRows(task.id, b.metrics.redactionCount, now),
                 KeptRuns(runs, now, |b.artifacts|), PersistedItems(b),
                 MetricsRow(task.id, b.metrics, counts, now),
                 ArtifactRows(task.id, b.artifacts, bundle, digest, now), Report(bundle.json, bundle.markdown, now))
  }

  method CollectRuns(runs: seq<SandboxRun>, now: int, artifacts: nat) returns (out: seq<SandboxRun>)
    ensures out == KeptRuns(runs, now, artifacts)
  {
    out := [];
    for i := 0 to |runs|
      invariant out == KeptRuns(runs[..i], now, artifacts)
    {
      assert runs[..i + 1][..i] == runs[..i];
      ConcatNil(out);
      var run := runs[i];
      if run.command == "" && run.status == "" {
        continue;
      }
      if run.finishedAt == 0 {
        run := run.(finishedAt := now);
      }
      run := run.(artifactCount := artifacts);
      out := out + [run];
    }
    assert runs[..|runs|] == runs;
  }

  method CollectDecisions(decisions: seq<Decision>) returns (out: seq<Decision>)
    ensures out == NonZero(decisions)
  {
    out := [];
    for i := 0 to |decisions|
      invariant out == NonZero(decisions[..i])
    {
      assert decisions[..i + 1][..i] == decisions[..i];
      ConcatNil(out);
      if decisions[i].command == "" && decisions[i].action == "" {
        continue;
      }
      out := out + [decisions[i]];
    }
    assert decisions[..|decisions|] == decisions;
  }

  method CollectArtifacts(taskId: string, artifacts: seq<Artifact>, bundle: Bundle, digest: string -> string, now: int)
    returns (out: seq<ArtifactRow>)
    ensures out == ArtifactRows(taskId, artifacts, bundle, digest, now)
  {
    out := [];
    for i := 0 to |artifacts|
      invariant out == ArtifactRows(taskId, artifacts[..i], bundle, digest, now)
    {
      assert artifacts[..i + 1][..i] == artifacts[..i];
      var row := CollectArtifact(taskId, artifacts[i], bundle, digest, now);
      out := out + [row];
    }
    assert artifacts[..|artifacts|] == artifacts;
  }

  method CollectArtifact(taskId: string, a: Artifact, bundle: Bundle, digest: string -> string, now: int)
    returns (row: ArtifactRow)
    ensures row == RowOf(taskId, a, bundle, digest, now)
  {
    var sum, size := a.digest, 0;
    if a.name == "review_report.json" {
      sum, size := digest(bundle.json), |bundle.json|;
    }
    if a.name == "review_report.md" {
      sum, size := digest(bundle.markdown), |bundle.markdown|;
    }
    if a.name == "review_report.zh.md" {
      sum, size := digest(bundle.markdownZh), |bundle.markdownZh|;
    }
    if a.name == "review_diagnostics.json" {
      sum, size := digest(bundle.diagnostics), |bundle.diagnostics|;
    }
    row := ArtifactRow(taskId, a.name, a.kind, a.path, sum, size, now);
  }

  method PersistedReviewItems(b: Body) returns (items: seq<Finding>)
    ensures items == PersistedItems(b)
  {
    items := DedupeFindings(b.lists.findings + b.lists.warnings + b.humanItems);
  }

  method Persist(store: Store, task: Task, b: Body, counts: map<string, int>, decisions: seq<Decision>,
                 runs: seq<SandboxRun>, bundle: Bundle, digest: string -> string, now: int)
    returns (ok: bool)
    requires store.Valid()
    modifies store
    ensures store.Valid() && store.ops > old(store.ops)
    ensures var rec := RecordFor(task, b, counts, decisions, runs, bundle, digest, now);
            && (ok <==> Quiet(store.fails, old(store.ops), |Script(rec)| + 2) && Committable(old(store.db), rec))
            && store.db == (if ok then AfterSave(old(store.db), rec) else old(store.db))
    ensures store.trail == if ok then old(store.trail) + [store.db] else old(store.trail)
  {
    var kept := CollectDecisions(decisions);
    var filters: seq<FilterDecision> := [];
    if b.metrics.redactionCount > 0 {
      filters := filters + [FilterDecision(task.id, "finding.evidence", "redact", "secret pattern", now)];
    }
    var keptRuns := CollectRuns(runs, now, |b.artifacts|);
    var items := PersistedReviewItems(b);
    var artifacts := CollectArtifacts(task.id, b.artifacts, bundle, digest, now);
    var rec := ReviewRecord(task, kept, filters, keptRuns, items, MetricsRow(task.id, b.metrics, counts, now),
                            artifacts, Report(bundle.json, bundle.markdown, now));
    assert rec == RecordFor(task, b, counts, decisions, runs, bundle, digest, now);
    ok := store.SaveReview(rec);
  }

  // ----- every record a run builds can be saved -----

  lemma {:induction false} NonZeroOwner(id: string, ds: seq<Decision>)
    requires DecisionsCarry(id, ds)
    ensures AllOf(NonZero(ds), DecisionOwner, id)
  {
    if ds != [] {
      LastSplits(ds);
      NonZeroOwner(id, ds[..|ds| - 1]);
    }
  }

  lemma {:induction false} KeptRunsOwner(id: string, rs: seq<SandboxRun>, now: int, artifacts: nat)
    requires RunsCarry(id, rs)
    ensures AllOf(KeptRuns(rs, now, artifacts), RunOwner, id)
  {
    if rs != [] {
      LastSplits(rs);
      KeptRunsOwner(id, rs[..|rs| - 1], now, artifacts);
    }
  }

  lemma {:induction false} ArtifactRowsOwner(id: string, artifacts: seq<Artifact>, bundle: Bundle,
                                             digest: string -> string, now: int)
    ensures AllOf(ArtifactRows(id, artifacts, bundle, digest, now), ArtifactOwner, id)
  {
    if artifacts != [] {
      ArtifactRowsOwner(id, artifacts[..|artifacts| - 1], bundle, digest, now);
    }
  }

  /** Records with zero entries dropped belong to their task. */
  lemma RecordIsOneTask(task: Task, b: Body, counts: map<string, int>, decisions: seq<Decision>,
                        runs: seq<SandboxRun>, bundle: Bundle, digest: string -> string, now: int)
    requires DecisionsCarry(task.id, decisions) && RunsCarry(task.id, runs)
    ensures OneTask(RecordFor(task, b, counts, decisions, runs, bundle, digest, now))
  {
    NonZeroOwner(task.id, decisions);
    KeptRunsOwner(task.id, runs, now, |b.artifacts|);
    ArtifactRowsOwner(task.id, b.artifacts, bundle, digest, now);
  }

  lemma {:induction false} NoRowsNoIds(rows: seq<FindingRow>, id: string, key: string)
    requires Of(rows, RowOwner, id) == []
    ensures (id, key) !in Ids(rows)
  {
    if rows != [] {
      NoRowsNoIds(rows[..|rows| - 1], id, key);
    }
  }

  lemma OneTaskOwned(db: Db, rec: ReviewRecord)
    requires OneTask(rec)
    ensures var known := db.tasks.Keys + {rec.task.id};
            && OwnedDecisions(known, rec.decisions) && OwnedFilters(known, rec.filters)
            && OwnedRuns(known, rec.runs) && OwnedArtifacts(known, rec.artifacts) && rec.metrics.taskId in known
  {
    var known := db.tasks.Keys + {rec.task.id};
    forall d | d in rec.decisions ensures d.taskId in known { assert DecisionOwner(d) == rec.task.id; }
    forall f | f in rec.filters ensures f.taskId in known { assert FilterOwner(f) == rec.task.id; }
    forall r | r in rec.runs ensures r.taskId in known { assert RunOwner(r) == rec.task.id; }
    forall a | a in rec.artifacts ensures a.taskId in known { assert ArtifactOwner(a) == rec.task.id; }
  }

  /** Every record a run can build, also after early errors that left zero records, can be committed as long as
      the task has no findings yet. */
  lemma RecordCommits(db: Db, task: Task, b: Body, counts: map<string, int>, decisions: seq<Decision>,
                      runs: seq<SandboxRun>, bundle: Bundle, digest: string -> string, now: int)
    requires DecisionsCarry(task.id, decisions) && RunsCarry(task.id, runs)
    requires Of(db.findings, RowOwner, task.id) == []
    ensures Committable(db, RecordFor(task, b, counts, decisions, runs, bundle, digest, now))
  {
    var rec := RecordFor(task, b, counts, decisions, runs, bundle, digest, now);
    RecordIsOneTask(task, b, counts, decisions, runs, bundle, digest, now);
    OneTaskOwned(db, rec);
    DedupeKeys(b.lists.findings + b.lists.warnings + b.humanItems);
    forall k | k in Keys(rec.findings)
      ensures (task.id, k) !in Ids(db.findings)
    {
      NoRowsNoIds(db.findings, task.id, k);
    }
  }

  lemma {:induction false} NoRowsNoFindings(rows: seq<FindingRow>, id: string)
    requires Of(rows, RowOwner, id) == []
    ensures FindingsOf(rows, id) == []
  {
    if rows != [] {
      NoRowsNoFindings(rows[..|rows| - 1], id);
    }
  }

  /** A run's findings and warnings read back from the store, in order when no two share file, line and rule. */
  lemma RunReadsBack(db: Db, task: Task, lists: Lists, counts: map<string, int>, ctx: ReviewContext, clock: Clock,
                     bundle: Bundle, digest: string -> string, now: int, fs: seq<Finding>)
    requires DecisionsCarry(task.id, ctx.decisions) && RunsCarry(task.id, ctx.runs)
    requires Of(db.findings, RowOwner, task.id) == []
    requires var b := Finalise(lists, counts, ctx, clock);
             IsReadback(fs, AfterSave(db, RecordFor(task, b, counts, ctx.decisions, ctx.runs, bundle, digest, now)),
                        task.id)
    ensures multiset(fs) == multiset(Dedupe(lists.findings + lists.warnings))
    ensures DistinctRanks(Dedupe(lists.findings + lists.warnings)) ==> fs == Dedupe(lists.findings + lists.warnings)
  {
    var b := Finalise(lists, counts, ctx, clock);
    RecordCommits(db, task, b, counts, ctx.decisions, ctx.runs, bundle, digest, now);
    NoRowsNoFindings(db.findings, task.id);
    ReportAndStorageAgree(lists, counts, ctx, clock);
    SortIsStable(Firsts(lists.findings + lists.warnings));
    SavedFindingsReadBack(db, RecordFor(task, b, counts, ctx.decisions, ctx.runs, bundle, digest, now), fs);
  }

  lemma ArtifactNames()
    ensures |"review_report.json"| == 18 && |"review_report.md"| == 16 && |"review_report.zh.md"| == 19
            && |"review_diagnostics.json"| == 23
  {}

  /** Each of the four report artifacts is stored with the digest and size of its own text. */
  lemma ReportArtifactsStored(taskId: string, bundle: Bundle, digest: string -> string, now: int, i: nat)
    requires i < 4
    ensures var text := [bundle.json, bundle.markdown, bundle.markdownZh, bundle.diagnostics][i];
            RowOf(taskId, ReportArtifacts[i], bundle, digest, now)
            == ArtifactRow(taskId, ReportArtifacts[i].name, ReportArtifacts[i].kind, ReportArtifacts[i].path,
                           digest(text), |text|, now)
  {
    ArtifactNames();
  }

  // ----- what the store shows of a run, told by what the run handed over -----

  const AsIs: Decision -> Decision := (d: Decision) => d
  const RecordedRun: SandboxRun -> bool := (r: SandboxRun) => !(r.command == "" && r.status == "")

  /** A run's record as it is stored: finished now unless it says when, with the number of artifacts, and without the
      mark that its execution started. */
  function StoredAs(now: int, artifacts: nat): SandboxRun -> SandboxRun {
    (r: SandboxRun) => r.(finishedAt := if r.finishedAt == 0 then now else r.finishedAt, artifactCount := artifacts,
                          executionStarted := false)
  }

  lemma {:induction false} DecisionsStored(ds: seq<Decision>)
    ensures Picks(ds, RealDecision, AsIs, NonZero(ds))
  {
    if ds == [] {
      PicksNone(RealDecision, AsIs);
    } else {
      var init, d := ds[..|ds| - 1], ds[|ds| - 1];
      DecisionsStored(init);
      PicksSnoc(init, RealDecision, AsIs, NonZero(init), d);
      LastSplits(ds);
      ConcatNil(NonZero(init));
    }
  }

  lemma StoredSnoc(rs: seq<SandboxRun>, r: SandboxRun)
    ensures StoredRuns(rs + [r]) == StoredRuns(rs) + [StoredRun(r)]
  {
    assert (rs + [r])[..|rs|] == rs;
  }

  lemma {:induction false} RunsStored(rs: seq<SandboxRun>, now: int, artifacts: nat)
    ensures Picks(rs, RecordedRun, StoredAs(now, artifacts), StoredRuns(KeptRuns(rs, now, artifacts)))
  {
    var change := StoredAs(now, artifacts);
    if rs == [] {
      PicksNone(RecordedRun, change);
    } else {
      var init, r := rs[..|rs| - 1], rs[|rs| - 1];
      var kept := KeptRuns(init, now, artifacts);
      RunsStored(init, now, artifacts);
      PicksSnoc(init, RecordedRun, change, StoredRuns(kept), r);
      LastSplits(rs);
      ConcatNil(kept);
      StoredSnoc(kept, KeptRun(r, now, artifacts));
    }
  }

  /** Rows of findings: each under its own key, of the first finding of every key, sorted. */
  ghost predicate FindingRowsOf(id: string, rows: seq<FindingRow>, fs: seq<Finding>) {
    && (forall i :: 0 <= i < |rows| ==> rows[i].taskId == id && rows[i].key == Key(rows[i].finding))
    && (forall i, j :: 0 <= i < j < |rows| ==> rows[i].key != rows[j].key)
    && (forall i, j :: 0 <= i < j < |rows| ==> !Less(rows[j].finding, rows[i].finding))
    && (forall i :: 0 <= i < |rows| ==> IsFirst(fs, rows[i].finding))
    && forall f :: IsFirst(fs, f) ==> exists i :: 0 <= i < |rows| && rows[i].finding == f
  }

  lemma {:induction false} RowAt(id: string, fs: seq<Finding>, i: nat)
    requires i < |fs|
    ensures i < |Rows(id, fs)| && Rows(id, fs)[i] == FindingRow(id, fs[i], Key(fs[i]))
  {
    RowsLength(id, fs);
    RowsLength(id, fs[..|fs| - 1]);
    if i < |fs| - 1 {
      RowAt(id, fs[..|fs| - 1], i);
    }
  }

  lemma {:induction false} RowsLength(id: string, fs: seq<Finding>)
    ensures |Rows(id, fs)| == |fs|
  {
    if fs != [] {
      RowsLength(id, fs[..|fs| - 1]);
    }
  }

  lemma RowsOfList(id: string, r: seq<Finding>, fs: seq<Finding>)
    requires forall i, j :: 0 <= i < j < |r| ==> Key(r[i]) != Key(r[j])
    requires Sorted(r) && forall f :: f in r <==> IsFirst(fs, f)
    ensures FindingRowsOf(id, Rows(id, r), fs)
  {
    RowsLength(id, r);
    forall i | 0 <= i < |r|
      ensures Rows(id, r)[i] == FindingRow(id, r[i], Key(r[i])) && IsFirst(fs, r[i])
    {
      RowAt(id, r, i);
      assert r[i] in r;
    }
    forall f | IsFirst(fs, f)
      ensures exists i :: 0 <= i < |Rows(id, r)| && Rows(id, r)[i].finding == f
    {
      assert f in r;
      var i :| 0 <= i < |r| && r[i] == f;
      assert Rows(id, r)[i].finding == f;
    }
  }

  lemma FindingsStored(id: string, fs: seq<Finding>)
    ensures FindingRowsOf(id, Rows(id, Dedupe(fs)), fs)
  {
    DedupeIs(fs);
    RowsOfList(id, Dedupe(fs), fs);
  }

  /** An artifact's row: its own name, kind and path, and digest and size of its own text. */
  predicate ArtifactRowIs(id: string, row: ArtifactRow, a: Artifact, bundle: Bundle, digest: string -> string,
                          now: int) {
    && row.taskId == id && row.name == a.name && row.kind == a.kind && row.path == a.path && row.at == now
    && (a.name == "review_report.json" ==> row.digest == digest(bundle.json) && row.size == |bundle.json|)
    && (a.name == "review_report.md" ==> row.digest == digest(bundle.markdown) && row.size == |bundle.markdown|)
    && (a.name == "review_report.zh.md" ==> row.digest == digest(bundle.markdownZh) && row.size == |bundle.markdownZh|)
    && (a.name == "review_diagnostics.json" ==>
          row.digest == digest(bundle.diagnostics) && row.size == |bundle.diagnostics|)
  }

  predicate ArtifactRowsOf(id: string, rows: seq<ArtifactRow>, artifacts: seq<Artifact>, bundle: Bundle,
                           digest: string -> string, now: int) {
    |rows| == |artifacts|
    && forall i :: 0 <= i < |rows| ==> ArtifactRowIs(id, rows[i], artifacts[i], bundle, digest, now)
  }

  lemma ArtifactStored(id: string, a: Artifact, bundle: Bundle, digest: string -> string, now: int)
    ensures ArtifactRowIs(id, RowOf(id, a, bundle, digest, now), a, bundle, digest, now)
  {
    ArtifactNames();
  }

  lemma {:induction false} ArtifactsStored(id: string, artifacts: seq<Artifact>, bundle: Bundle,
                                           digest: string -> string, now: int)
    ensures ArtifactRowsOf(id, ArtifactRows(id, artifacts, bundle, digest, now), artifacts, bundle, digest, now)
  {
    if artifacts != [] {
      ArtifactsStored(id, artifacts[..|artifacts| - 1], bundle, digest, now);
      ArtifactStored(id, artifacts[|artifacts| - 1], bundle, digest, now);
    }
  }

  /** The report and metrics rows hold what they were given, and a redaction leaves exactly one row. */
  predicate PlainRowsOf(v: View, id: string, b: Body, counts: map<string, int>, bundle: Bundle, now: int) {
    && v.report.Some? && v.report.value.json == bundle.json && v.report.value.markdown == bundle.markdown
    && v.report.value.createdAt == now
    && v.metrics.Some? && v.metrics.value.taskId == id && v.metrics.value.values == b.metrics
    && v.metrics.value.exceptions == counts && v.metrics.value.at == now
    && v.filters == if b.metrics.redactionCount > 0
                    then [FilterDecision(id, "finding.evidence", "redact", "secret pattern", now)] else []
  }

  /** The view shows the review that was handed over, all of it and nothing else: the task row; the decisions with a
      command or an action, in order; the runs with a command or a status, in order; findings, warnings and human
      items; artifacts, metrics and report. */
  ghost predicate StoresReview(v: View, task: Task, b: Body, counts: map<string, int>, decisions: seq<Decision>,
                               runs: seq<SandboxRun>, bundle: Bundle, digest: string -> string, now: int) {
    && v.task == Some(task)
    && Picks(decisions, RealDecision, AsIs, v.decisions)
    && Picks(runs, RecordedRun, StoredAs(now, |b.artifacts|), v.runs)
    && FindingRowsOf(task.id, v.findings, b.lists.findings + b.lists.warnings + b.humanItems)
    && ArtifactRowsOf(task.id, v.artifacts, b.artifacts, bundle, digest, now)
    && PlainRowsOf(v, task.id, b, counts, bundle, now)
  }

  /** What a saved record shows of its task is the review it was made of. */
  lemma SavedReviewStores(task: Task, b: Body, counts: map<string, int>, decisions: seq<Decision>,
                          runs: seq<SandboxRun>, bundle: Bundle, digest: string -> string, now: int)
    ensures StoresReview(SavedView(Bare(None), RecordFor(task, b, counts, decisions, runs, bundle, digest, now)), task,
                         b, counts, decisions, runs, bundle, digest, now)
  {
    var rec := RecordFor(task, b, counts, decisions, runs, bundle, digest, now);
    DecisionsStored(decisions);
    RunsStored(runs, now, |b.artifacts|);
    FindingsStored(task.id, b.lists.findings + b.lists.warnings + b.humanItems);
    ArtifactsStored(task.id, b.artifacts, bundle, digest, now);
    ConcatNil(rec.decisions);
    ConcatNil(rec.filters);
    ConcatNil(rec.artifacts);
    ConcatNil(StoredRuns(rec.runs));
    ConcatNil(Rows(task.id, rec.findings));
  }
}
