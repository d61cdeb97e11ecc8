/** The audit database: tables with primary and foreign keys, single-row writes, and the transaction that saves
    a complete review. */
module AuditStore {
  import opened Wrappers
  import opened Text
  import opened Findings
  import opened Records
  import opened ReviewResult

  datatype Task = Task(id: string, inputType: string, inputRef: string, inputDigest: string, repoPath: string,
                       status: string, mode: string, createdAt: int, startedAt: int, finishedAt: int)

  datatype FilterDecision = FilterDecision(taskId: string, target: string, action: string, reason: string, at: int)

  datatype ArtifactRow = ArtifactRow(taskId: string, name: string, kind: string, path: string, digest: string,
                                     size: int, at: int)

  datatype MetricsRow = MetricsRow(taskId: string, values: Metrics, exceptions: map<string, int>, at: int)

  datatype Report = Report(json: string, markdown: string, createdAt: int)

  /** A row of findings. Its primary key is the task id, a colon and a hexadecimal digest, which determine task
      id and digest. */
  datatype FindingRow = FindingRow(taskId: string, finding: Finding, key: string)

  datatype Db = Db(tasks: map<string, Task>, findings: seq<FindingRow>, decisions: seq<Decision>,
                   filters: seq<FilterDecision>, runs: seq<SandboxRun>, artifacts: seq<ArtifactRow>,
                   metrics: map<string, MetricsRow>, reports: map<string, Report>)

  datatype ReviewRecord = ReviewRecord(task: Task, decisions: seq<Decision>, filters: seq<FilterDecision>,
                                       runs: seq<SandboxRun>, findings: seq<Finding>, metrics: MetricsRow,
                                       artifacts: seq<ArtifactRow>, report: Report)

  datatype Statement =
    | PutTask(task: Task)
    | AddDecision(decision: Decision)
    | AddFilter(filter: FilterDecision)
    | AddRun(run: SandboxRun)
    | AddFinding(owner: string, finding: Finding)
    | PutMetrics(metrics: MetricsRow)
    | AddArtifact(artifact: ArtifactRow)
    | PutReport(reported: string, report: Report)

  // ----- one statement -----

  function Ids(rows: seq<FindingRow>): set<(string, string)> {
    if rows == [] then {} else Ids(rows[..|rows| - 1]) + {(rows[|rows| - 1].taskId, rows[|rows| - 1].key)}
  }

  /** The task a child row refers to. */
  function Owner(s: Statement): string {
    match s
    case PutTask(task) => task.id
    case AddDecision(d) => d.taskId
    case AddFilter(f) => f.taskId
    case AddRun(r) => r.taskId
    case AddFinding(owner, _) => owner
    case PutMetrics(m) => m.taskId
    case AddArtifact(a) => a.taskId
    case PutReport(taskId, _) => taskId
  }

  /** The foreign key is there, and a finding's primary key is not. */
  predicate Accepts(db: Db, s: Statement) {
    && (s.PutTask? || Owner(s) in db.tasks)
    && (s.AddFinding? ==> (s.owner, Key(s.finding)) !in Ids(db.findings))
  }

  /** Whether execution started is not stored. */
  function StoredRun(r: SandboxRun): SandboxRun {
    r.(executionStarted := false)
  }

  function Apply(db: Db, s: Statement): Db {
    match s
    case PutTask(task) => db.(tasks := db.tasks[task.id := task])
    case AddDecision(d) => db.(decisions := db.decisions + [d])
    case AddFilter(f) => db.(filters := db.filters + [f])
    case AddRun(r) => db.(runs := db.runs + [StoredRun(r)])
    case AddFinding(owner, f) => db.(findings := db.findings + [FindingRow(owner, f, Key(f))])
    case PutMetrics(m) => db.(metrics := db.metrics[m.taskId := m])
    case AddArtifact(a) => db.(artifacts := db.artifacts + [a])
    case PutReport(taskId, report) => db.(reports := db.reports[taskId := report])
  }

  function Exec(db: Db, s: Statement): Option<Db> {
    if Accepts(db, s) then Some(Apply(db, s)) else None
  }

  function ExecAll(db: Db, ss: seq<Statement>): Option<Db> {
    if ss == [] then Some(db)
    else
      match ExecAll(db, ss[..|ss| - 1])
      case None => None
      case Some(d) => Exec(d, ss[|ss| - 1])
  }

  // ----- integrity -----

  predicate OwnedDecisions(tasks: set<string>, ds: seq<Decision>) {
    forall d :: d in ds ==> d.taskId in tasks
  }

  predicate OwnedFilters(tasks: set<string>, fs: seq<FilterDecision>) {
    forall f :: f in fs ==> f.taskId in tasks
  }

  predicate OwnedRuns(tasks: set<string>, rs: seq<SandboxRun>) {
    forall r :: r in rs ==> r.taskId in tasks
  }

  predicate OwnedArtifacts(tasks: set<string>, rows: seq<ArtifactRow>) {
    forall a :: a in rows ==> a.taskId in tasks
  }

  predicate OwnedRows(tasks: set<string>, rows: seq<FindingRow>) {
    forall r :: r in rows ==> r.taskId in tasks && r.key == Key(r.finding)
  }

  /** Primary keys are unique and foreign keys refer to tasks. */
  predicate Integrity(db: Db) {
    && OwnedDecisions(db.tasks.Keys, db.decisions) && OwnedFilters(db.tasks.Keys, db.filters)
    && OwnedRuns(db.tasks.Keys, db.runs) && OwnedArtifacts(db.tasks.Keys, db.artifacts)
    && OwnedRows(db.tasks.Keys, db.findings) && |Ids(db.findings)| == |db.findings|
    && db.metrics.Keys <= db.tasks.Keys && db.reports.Keys <= db.tasks.Keys
    && (forall id :: id in db.tasks ==> db.tasks[id].id == id)
    && (forall id :: id in db.metrics ==> db.metrics[id].taskId == id)
  }

  lemma IdsSnoc(rows: seq<FindingRow>, row: FindingRow)
    ensures Ids(rows + [row]) == Ids(rows) + {(row.taskId, row.key)}
  {
    assert (rows + [row])[..|rows|] == rows;
  }

  lemma TaskKeepsIntegrity(db: Db, task: Task)
    requires Integrity(db)
    ensures Integrity(db.(tasks := db.tasks[task.id := task]))
  {
    assert db.tasks.Keys <= db.tasks[task.id := task].Keys;
  }

  lemma FindingKeepsIntegrity(db: Db, row: FindingRow)
    requires Integrity(db) && row.taskId in db.tasks && row.key == Key(row.finding)
    requires (row.taskId, row.key) !in Ids(db.findings)
    ensures Integrity(db.(findings := db.findings + [row]))
  {
    IdsSnoc(db.findings, row);
  }

  /** Every write keeps the integrity of the database. */
  lemma ExecKeepsIntegrity(db: Db, s: Statement)
    requires Integrity(db) && Accepts(db, s)
    ensures Integrity(Apply(db, s))
  {
    match s {
      case PutTask(task) => TaskKeepsIntegrity(db, task);
      case AddFinding(owner, f) => FindingKeepsIntegrity(db, FindingRow(owner, f, Key(f)));
      case _ => ChildKeepsIntegrity(db, s);
    }
  }

  lemma ChildKeepsIntegrity(db: Db, s: Statement)
    requires Integrity(db) && Owner(s) in db.tasks && !s.PutTask? && !s.AddFinding?
    ensures Integrity(Apply(db, s))
  {}

  lemma {:induction false} ExecAllKeepsIntegrity(db: Db, ss: seq<Statement>)
    requires Integrity(db)
    ensures ExecAll(db, ss).Some? ==> Integrity(ExecAll(db, ss).value)
  {
    if ss != [] {
      ExecAllKeepsIntegrity(db, ss[..|ss| - 1]);
      var d := ExecAll(db, ss[..|ss| - 1]);
      if d.Some? && Accepts(d.value, ss[|ss| - 1]) {
        ExecKeepsIntegrity(d.value, ss[|ss| - 1]);
      }
    }
  }

  // ----- a complete review -----

  function DecisionWrites(ds: seq<Decision>): seq<Statement> {
    if ds == [] then [] else DecisionWrites(ds[..|ds| - 1]) + [AddDecision(ds[|ds| - 1])]
  }

  function FilterWrites(fs: seq<FilterDecision>): seq<Statement> {
    if fs == [] then [] else FilterWrites(fs[..|fs| - 1]) + [AddFilter(fs[|fs| - 1])]
  }

  function RunWrites(rs: seq<SandboxRun>): seq<Statement> {
    if rs == [] then [] else RunWrites(rs[..|rs| - 1]) + [AddRun(rs[|rs| - 1])]
  }

  function FindingWrites(taskId: string, fs: seq<Finding>): seq<Statement> {
    if fs == [] then [] else FindingWrites(taskId, fs[..|fs| - 1]) + [AddFinding(taskId, fs[|fs| - 1])]
  }

  function ArtifactWrites(rows: seq<ArtifactRow>): seq<Statement> {
    if rows == [] then [] else ArtifactWrites(rows[..|rows| - 1]) + [AddArtifact(rows[|rows| - 1])]
  }

  /** The statements of the transaction, in their order. */
  function Script(rec: ReviewRecord): seq<Statement> {
    [PutTask(rec.task)] + (DecisionWrites(rec.decisions) + (FilterWrites(rec.filters) + (RunWrites(rec.runs)
    + (FindingWrites(rec.task.id, rec.findings) + ([PutMetrics(rec.metrics)] + (ArtifactWrites(rec.artifacts)
    + [PutReport(rec.task.id, rec.report)]))))))
  }

  function StoredRuns(rs: seq<SandboxRun>): seq<SandboxRun> {
    if rs == [] then [] else StoredRuns(rs[..|rs| - 1]) + [StoredRun(rs[|rs| - 1])]
  }

  function Rows(taskId: string, fs: seq<Finding>): seq<FindingRow> {
    if fs == [] then [] else Rows(taskId, fs[..|fs| - 1]) + [FindingRow(taskId, fs[|fs| - 1], Key(fs[|fs| - 1]))]
  }

  /** The database after a complete review. */
  function AfterSave(db: Db, rec: ReviewRecord): Db {
    Db(db.tasks[rec.task.id := rec.task], db.findings + Rows(rec.task.id, rec.findings),
       db.decisions + rec.decisions, db.filters + rec.filters, db.runs + StoredRuns(rec.runs),
       db.artifacts + rec.artifacts, db.metrics[rec.metrics.taskId := rec.metrics],
       db.reports[rec.task.id := rec.report])
  }

  /** The findings repeat no key, and the task has no row with one of their keys. */
  predicate NewKeys(rows: seq<FindingRow>, taskId: string, fs: seq<Finding>) {
    Distinct(fs) && forall k :: k in Keys(fs) ==> (taskId, k) !in Ids(rows)
  }

  /** What the schema demands of a review record. */
  predicate Committable(db: Db, rec: ReviewRecord) {
    var known := db.tasks.Keys + {rec.task.id};
    && OwnedDecisions(known, rec.decisions) && OwnedFilters(known, rec.filters) && OwnedRuns(known, rec.runs)
    && OwnedArtifacts(known, rec.artifacts) && rec.metrics.taskId in known
    && NewKeys(db.findings, rec.task.id, rec.findings)
  }

  lemma {:induction false} ExecConcat(db: Db, a: seq<Statement>, b: seq<Statement>)
    ensures ExecAll(db, a + b) == match ExecAll(db, a) case None => None case Some(d) => ExecAll(d, b)
  {
    if b == [] {
      ConcatNil(a);
    } else {
      assert (a + b)[..|a + b| - 1] == a + b[..|b| - 1];
      ExecConcat(db, a, b[..|b| - 1]);
    }
  }

  lemma ExecOne(db: Db, s: Statement)
    ensures ExecAll(db, [s]) == Exec(db, s)
  {
    assert [s][..0] == [];
  }

  lemma ExecSnoc(db: Db, ss: seq<Statement>, s: Statement)
    ensures ExecAll(db, ss + [s]) == match ExecAll(db, ss) case None => None case Some(d) => Exec(d, s)
  {
    assert (ss + [s])[..|ss|] == ss;
  }

  lemma OwnedSnoc(tasks: set<string>, ds: seq<Decision>, fs: seq<FilterDecision>, rs: seq<SandboxRun>,
                  rows: seq<ArtifactRow>)
    ensures ds != [] ==> (OwnedDecisions(tasks, ds)
                          <==> OwnedDecisions(tasks, ds[..|ds| - 1]) && ds[|ds| - 1].taskId in tasks)
    ensures fs != [] ==> (OwnedFilters(tasks, fs)
                          <==> OwnedFilters(tasks, fs[..|fs| - 1]) && fs[|fs| - 1].taskId in tasks)
    ensures rs != [] ==> (OwnedRuns(tasks, rs) <==> OwnedRuns(tasks, rs[..|rs| - 1]) && rs[|rs| - 1].taskId in tasks)
    ensures rows != [] ==> (OwnedArtifacts(tasks, rows)
                            <==> OwnedArtifacts(tasks, rows[..|rows| - 1]) && rows[|rows| - 1].taskId in tasks)
  {
    if ds != [] { LastSplits(ds); }
    if fs != [] { LastSplits(fs); }
    if rs != [] { LastSplits(rs); }
    if rows != [] { LastSplits(rows); }
  }

  lemma {:induction false} DecisionsRun(db: Db, ds: seq<Decision>)
    ensures ExecAll(db, DecisionWrites(ds))
         == if OwnedDecisions(db.tasks.Keys, ds) then Some(db.(decisions := db.decisions + ds)) else None
  {
    if ds == [] {
      ConcatNil(db.decisions);
    } else {
      var init, last := ds[..|ds| - 1], ds[|ds| - 1];
      DecisionsRun(db, init);
      ExecSnoc(db, DecisionWrites(init), AddDecision(last));
      LastSplits(ds);
      ConcatAssoc(db.decisions, init, [last]);
      OwnedSnoc(db.tasks.Keys, ds, [], [], []);
    }
  }

  lemma {:induction false} FiltersRun(db: Db, fs: seq<FilterDecision>)
    ensures ExecAll(db, FilterWrites(fs))
         == if OwnedFilters(db.tasks.Keys, fs) then Some(db.(filters := db.filters + fs)) else None
  {
    if fs == [] {
      ConcatNil(db.filters);
    } else {
      var init, last := fs[..|fs| - 1], fs[|fs| - 1];
      FiltersRun(db, init);
      ExecSnoc(db, FilterWrites(init), AddFilter(last));
      LastSplits(fs);
      ConcatAssoc(db.filters, init, [last]);
      OwnedSnoc(db.tasks.Keys, [], fs, [], []);
    }
  }

  lemma {:induction false} RunsRun(db: Db, rs: seq<SandboxRun>)
    ensures ExecAll(db, RunWrites(rs))
         == if OwnedRuns(db.tasks.Keys, rs) then Some(db.(runs := db.runs + StoredRuns(rs))) else None
  {
    if rs == [] {
      ConcatNil(db.runs);
    } else {
      var init, last := rs[..|rs| - 1], rs[|rs| - 1];
      RunsRun(db, init);
      ExecSnoc(db, RunWrites(init), AddRun(last));
      LastSplits(rs);
      ConcatAssoc(db.runs, StoredRuns(init), [StoredRun(last)]);
      OwnedSnoc(db.tasks.Keys, [], [], rs, []);
    }
  }

  lemma {:induction false} ArtifactsRun(db: Db, rows: seq<ArtifactRow>)
    ensures ExecAll(db, ArtifactWrites(rows))
         == if OwnedArtifacts(db.tasks.Keys, rows) then Some(db.(artifacts := db.artifacts + rows)) else None
  {
    if rows == [] {
      ConcatNil(db.artifacts);
    } else {
      var init, last := rows[..|rows| - 1], rows[|rows| - 1];
      ArtifactsRun(db, init);
      ExecSnoc(db, ArtifactWrites(init), AddArtifact(last));
      LastSplits(rows);
      ConcatAssoc(db.artifacts, init, [last]);
      OwnedSnoc(db.tasks.Keys, [], [], [], rows);
    }
  }

  lemma {:induction false} IdsOfRows(rows: seq<FindingRow>, taskId: string, fs: seq<Finding>, id: (string, string))
    ensures id in Ids(rows + Rows(taskId, fs)) <==> id in Ids(rows) || (id.0 == taskId && id.1 in Keys(fs))
  {
    if fs == [] {
      ConcatNil(rows);
    } else {
      var init, last := fs[..|fs| - 1], fs[|fs| - 1];
      var row := FindingRow(taskId, last, Key(last));
      IdsOfRows(rows, taskId, init, id);
      ConcatAssoc(rows, Rows(taskId, init), [row]);
      IdsSnoc(rows + Rows(taskId, init), row);
    }
  }

  lemma NewKeysSnoc(rows: seq<FindingRow>, taskId: string, fs: seq<Finding>)
    requires fs != []
    ensures NewKeys(rows, taskId, fs)
       <==> NewKeys(rows, taskId, fs[..|fs| - 1])
            && (taskId, Key(fs[|fs| - 1])) !in Ids(rows + Rows(taskId, fs[..|fs| - 1]))
  {
    DistinctLast(fs);
    IdsOfRows(rows, taskId, fs[..|fs| - 1], (taskId, Key(fs[|fs| - 1])));
  }

  lemma RowsSnoc(taskId: string, init: seq<Finding>, last: Finding, fs: seq<Finding>)
    requires fs != [] && init == fs[..|fs| - 1] && last == fs[|fs| - 1]
    ensures Rows(taskId, fs) == Rows(taskId, init) + [FindingRow(taskId, last, Key(last))]
  {}

  lemma FindingStep(db: Db, taskId: string, rows: seq<FindingRow>, last: Finding, all: seq<FindingRow>)
    requires taskId in db.tasks && all == rows + [FindingRow(taskId, last, Key(last))]
    ensures Exec(db.(findings := db.findings + rows), AddFinding(taskId, last))
         == if (taskId, Key(last)) in Ids(db.findings + rows) then None
            else Some(db.(findings := db.findings + all))
  {
    ConcatAssoc(db.findings, rows, [FindingRow(taskId, last, Key(last))]);
  }

  lemma {:induction false} FindingsRun(db: Db, taskId: string, fs: seq<Finding>)
    requires taskId in db.tasks
    ensures ExecAll(db, FindingWrites(taskId, fs))
         == if NewKeys(db.findings, taskId, fs) then Some(db.(findings := db.findings + Rows(taskId, fs))) else None
  {
    if fs == [] {
      ConcatNil(db.findings);
    } else {
      var init, last := fs[..|fs| - 1], fs[|fs| - 1];
      FindingsRun(db, taskId, init);
      ExecSnoc(db, FindingWrites(taskId, init), AddFinding(taskId, last));
      NewKeysSnoc(db.findings, taskId, fs);
      RowsSnoc(taskId, init, last, fs);
      FindingStep(db, taskId, Rows(taskId, init), last, Rows(taskId, fs));
    }
  }

  /** The transaction does all the schema allows: it comes to the complete review exactly when the record is
      committable. */
  lemma ScriptRuns(db: Db, rec: ReviewRecord)
    ensures ExecAll(db, Script(rec)) == if Committable(db, rec) then Some(AfterSave(db, rec)) else None
  {
    var s7 := [PutReport(rec.task.id, rec.report)];
    var s6 := ArtifactWrites(rec.artifacts) + s7;
    var s5 := [PutMetrics(rec.metrics)] + s6;
    var s4 := FindingWrites(rec.task.id, rec.findings) + s5;
    var s3 := RunWrites(rec.runs) + s4;
    var s2 := FilterWrites(rec.filters) + s3;
    var s1 := DecisionWrites(rec.decisions) + s2;
    var known := db.tasks.Keys + {rec.task.id};
    var d0 := Apply(db, PutTask(rec.task));
    ExecConcat(db, [PutTask(rec.task)], s1);
    ExecOne(db, PutTask(rec.task));
    assert d0.tasks.Keys == known;
    ExecConcat(d0, DecisionWrites(rec.decisions), s2);
    DecisionsRun(d0, rec.decisions);
    if OwnedDecisions(known, rec.decisions) {
      var d1 := d0.(decisions := d0.decisions + rec.decisions);
      ExecConcat(d1, FilterWrites(rec.filters), s3);
      FiltersRun(d1, rec.filters);
      if OwnedFilters(known, rec.filters) {
        var d2 := d1.(filters := d1.filters + rec.filters);
        ExecConcat(d2, RunWrites(rec.runs), s4);
        RunsRun(d2, rec.runs);
        if OwnedRuns(known, rec.runs) {
          ScriptTail(db, d2.(runs := d2.runs + StoredRuns(rec.runs)), rec);
        }
      }
    }
  }

  /** The second half of the transaction. */
  lemma ScriptTail(db: Db, d3: Db, rec: ReviewRecord)
    requires d3.tasks == db.tasks[rec.task.id := rec.task] && d3.findings == db.findings
    requires d3.artifacts == db.artifacts && d3.metrics == db.metrics && d3.reports == db.reports
    ensures ExecAll(d3, FindingWrites(rec.task.id, rec.findings) + ([PutMetrics(rec.metrics)]
                        + (ArtifactWrites(rec.artifacts) + [PutReport(rec.task.id, rec.report)])))
         == if NewKeys(db.findings, rec.task.id, rec.findings) && rec.metrics.taskId in d3.tasks.Keys
               && OwnedArtifacts(d3.tasks.Keys, rec.artifacts)
            then Some(d3.(findings := db.findings + Rows(rec.task.id, rec.findings),
                          metrics := db.metrics[rec.metrics.taskId := rec.metrics],
                          artifacts := db.artifacts + rec.artifacts,
                          reports := db.reports[rec.task.id := rec.report]))
            else None
  {
    var rest := [PutMetrics(rec.metrics)] + (ArtifactWrites(rec.artifacts) + [PutReport(rec.task.id, rec.report)]);
    ExecConcat(d3, FindingWrites(rec.task.id, rec.findings), rest);
    FindingsRun(d3, rec.task.id, rec.findings);
    if NewKeys(db.findings, rec.task.id, rec.findings) {
      ScriptEnd(d3.(findings := d3.findings + Rows(rec.task.id, rec.findings)), rec.task.id, rec.metrics,
                rec.artifacts, rec.report);
    }
  }

  lemma ScriptEnd(d: Db, taskId: string, metrics: MetricsRow, artifacts: seq<ArtifactRow>, report: Report)
    requires taskId in d.tasks
    ensures ExecAll(d, [PutMetrics(metrics)] + (ArtifactWrites(artifacts) + [PutReport(taskId, report)]))
         == if metrics.taskId in d.tasks.Keys && OwnedArtifacts(d.tasks.Keys, artifacts)
            then Some(d.(metrics := d.metrics[metrics.taskId := metrics], artifacts := d.artifacts + artifacts,
                         reports := d.reports[taskId := report]))
            else None
  {
    ExecConcat(d, [PutMetrics(metrics)], ArtifactWrites(artifacts) + [PutReport(taskId, report)]);
    ExecOne(d, PutMetrics(metrics));
    if metrics.taskId in d.tasks {
      ScriptLast(d.(metrics := d.metrics[metrics.taskId := metrics]), taskId, artifacts, report);
    }
  }

  lemma ScriptLast(d: Db, taskId: string, artifacts: seq<ArtifactRow>, report: Report)
    requires taskId in d.tasks
    ensures ExecAll(d, ArtifactWrites(artifacts) + [PutReport(taskId, report)])
         == if OwnedArtifacts(d.tasks.Keys, artifacts)
            then Some(d.(artifacts := d.artifacts + artifacts, reports := d.reports[taskId := report]))
            else None
  {
    var writes := ArtifactWrites(artifacts);
    ArtifactsRun(d, artifacts);
    ReportRuns(d, writes, ExecAll(d, writes), taskId, report);
  }

  lemma ReportRuns(d: Db, writes: seq<Statement>, r: Option<Db>, taskId: string, report: Report)
    requires r == ExecAll(d, writes) && (r.Some? ==> taskId in r.value.tasks)
    ensures ExecAll(d, writes + [PutReport(taskId, report)])
         == if r.None? then None else Some(r.value.(reports := r.value.reports[taskId := report]))
  {
    ExecSnoc(d, writes, PutReport(taskId, report));
  }

  /** A failed statement fails the rest. */
  lemma PrefixFails(db: Db, ss: seq<Statement>, i: nat)
    requires i <= |ss| && ExecAll(db, ss[..i]).None?
    ensures ExecAll(db, ss).None?
  {
    assert ss == ss[..i] + ss[i..];
    ExecConcat(db, ss[..i], ss[i..]);
  }

  lemma ScriptSaves(db: Db, rec: ReviewRecord)
    requires Integrity(db)
    ensures ExecAll(db, Script(rec)) == if Committable(db, rec) then Some(AfterSave(db, rec)) else None
    ensures Committable(db, rec) ==> Integrity(AfterSave(db, rec))
  {
    ScriptRuns(db, rec);
    ExecAllKeepsIntegrity(db, Script(rec));
  }

  // ----- the store -----

  /** No operation of a range fails. */
  predicate Quiet(fails: nat -> bool, from: nat, count: nat) {
    forall k :: from <= k < from + count ==> !fails(k)
  }

  lemma QuietSplits(fails: nat -> bool, from: nat, count: nat)
    ensures Quiet(fails, from, count + 2)
       <==> !fails(from) && Quiet(fails, from + 1, count) && !fails(from + 1 + count)
  {}

  /** A store over a database that may fail at any operation; `fails` says at which. `trail` holds every state
      the database has been in. */
  class Store {
    const fails: nat -> bool
    var db: Db
    var ops: nat
    ghost var trail: seq<Db>

    ghost predicate Valid()
      reads this
    {
      Integrity(db) && trail != [] && trail[|trail| - 1] == db
    }

    constructor (fails: nat -> bool)
      ensures Valid() && fresh(this) && db == Db(map[], [], [], [], [], [], map[], map[]) && trail == [db]
    {
      this.fails := fails;
      db := Db(map[], [], [], [], [], [], map[], map[]);
      ops := 0;
      trail := [Db(map[], [], [], [], [], [], map[], map[])];
    }

    /** One operation of the database engine on a working state. */
    method Execute(tx: Db, s: Statement) returns (r: Option<Db>)
      modifies this`ops
      ensures ops == old(ops) + 1 && r == if fails(old(ops)) then None else Exec(tx, s)
    {
      r := if fails(ops) then None else Exec(tx, s);
      ops := ops + 1;
    }

    /** A single-row write outside of any transaction. */
    method Write(s: Statement) returns (ok: bool)
      requires Valid()
      modifies this
      ensures Valid() && ops == old(ops) + 1
      ensures ok <==> !fails(old(ops)) && Accepts(old(db), s)
      ensures db == (if ok then Apply(old(db), s) else old(db))
      ensures trail == (if ok then old(trail) + [db] else old(trail))
    {
      var r := Execute(db, s);
      ok := r.Some?;
      if ok {
        ExecKeepsIntegrity(db, s);
        db := r.value;
        trail := trail + [db];
      }
    }

    /** SaveTask: no foreign key, so only the engine can fail. */
    method SaveTask(task: Task) returns (ok: bool)
      requires Valid()
      modifies this
      ensures Valid() && ops == old(ops) + 1
      ensures ok <==> !fails(old(ops))
      ensures db == (if ok then old(db).(tasks := old(db).tasks[task.id := task]) else old(db))
      ensures trail == (if ok then old(trail) + [db] else old(trail))
    {
      ok := Write(PutTask(task));
    }

    method SaveFinding(taskId: string, finding: Finding) returns (ok: bool)
      requires Valid()
      modifies this
      ensures Valid()
      ensures ok <==> !fails(old(ops)) && taskId in old(db).tasks && (taskId, Key(finding)) !in Ids(old(db).findings)
      ensures db == (if ok then old(db).(findings := old(db).findings + [FindingRow(taskId, finding, Key(finding))])
                     else old(db))
    {
      ok := Write(AddFinding(taskId, finding));
    }

    method SaveDecision(d: Decision) returns (ok: bool)
      requires Valid()
      modifies this
      ensures Valid()
      ensures ok <==> !fails(old(ops)) && d.taskId in old(db).tasks
      ensures db == (if ok then old(db).(decisions := old(db).decisions + [d]) else old(db))
    {
      ok := Write(AddDecision(d));
    }

    method SaveSandboxRun(r: SandboxRun) returns (ok: bool)
      requires Valid()
      modifies this
      ensures Valid()
      ensures ok <==> !fails(old(ops)) && r.taskId in old(db).tasks
      ensures db == (if ok then old(db).(runs := old(db).runs + [StoredRun(r)]) else old(db))
    {
      ok := Write(AddRun(r));
    }

    method SaveFilterDecision(f: FilterDecision) returns (ok: bool)
      requires Valid()
      modifies this
      ensures Valid()
      ensures ok <==> !fails(old(ops)) && f.taskId in old(db).tasks
      ensures db == (if ok then old(db).(filters := old(db).filters + [f]) else old(db))
    {
      ok := Write(AddFilter(f));
    }

    method SaveArtifact(a: ArtifactRow) returns (ok: bool)
      requires Valid()
      modifies this
      ensures Valid()
      ensures ok <==> !fails(old(ops)) && a.taskId in old(db).tasks
      ensures db == (if ok then old(db).(artifacts := old(db).artifacts + [a]) else old(db))
    {
      ok := Write(AddArtifact(a));
    }

    method SaveMetrics(m: MetricsRow) returns (ok: bool)
      requires Valid()
      modifies this
      ensures Valid()
      ensures ok <==> !fails(old(ops)) && m.taskId in old(db).tasks
      ensures db == (if ok then old(db).(metrics := old(db).metrics[m.taskId := m]) else old(db))
    {
      ok := Write(PutMetrics(m));
    }

    method SaveReport(taskId: string, report: Report) returns (ok: bool)
      requires Valid()
      modifies this
      ensures Valid()
      ensures ok <==> !fails(old(ops)) && taskId in old(db).tasks
      ensures db == (if ok then old(db).(reports := old(db).reports[taskId := report]) else old(db))
    {
      ok := Write(PutReport(taskId, report));
    }

    /** The statements of a transaction, one by one on a working state, until one fails. */
    method ExecuteAll(script: seq<Statement>) returns (r: Option<Db>)
      modifies this`ops
      ensures r == if Quiet(fails, old(ops), |script|) then ExecAll(db, script) else None
      ensures ops >= old(ops) && (r.Some? ==> ops == old(ops) + |script|)
    {
      var tx := db;
      for i := 0 to |script|
        invariant ops == old(ops) + i && Quiet(fails, old(ops), i)
        invariant ExecAll(db, script[..i]) == Some(tx)
      {
        assert script[..i + 1][..i] == script[..i];
        var step := Execute(tx, script[i]);
        if step.None? {
          if !fails(old(ops) + i) {
            PrefixFails(db, script, i + 1);
          }
          return None;
        }
        tx := step.value;
      }
      assert script[..|script|] == script;
      r := Some(tx);
    }

    /** Begin, the statements, commit; any failure rolls back. */
    method Transact(script: seq<Statement>) returns (ok: bool)
      modifies this
      ensures ops > old(ops)
      ensures ok <==> Quiet(fails, old(ops), |script| + 2) && ExecAll(old(db), script).Some?
      ensures db == (if ok then ExecAll(old(db), script).value else old(db))
      ensures trail == (if ok then old(trail) + [db] else old(trail))
    {
      QuietSplits(fails, ops, |script|);
      if fails(ops) {
        ops := ops + 1;
        return false;
      }
      ops := ops + 1;
      var tx := ExecuteAll(script);
      if tx.None? {
        return false;
      }
      ok := !fails(ops);
      ops := ops + 1;
      if ok {
        db := tx.value;
        trail := trail + [db];
      }
    }

    /** A complete review, all or nothing. */
    method SaveReview(rec: ReviewRecord) returns (ok: bool)
      requires Valid()
      modifies this
      ensures Valid() && ops > old(ops)
      ensures ok <==> Quiet(fails, old(ops), |Script(rec)| + 2) && Committable(old(db), rec)
      ensures db == (if ok then AfterSave(old(db), rec) else old(db))
      ensures trail == (if ok then old(trail) + [db] else old(trail))
    {
      ScriptSaves(db, rec);
      ok := Transact(Script(rec));
    }

    /** ORDER BY file, line, rule_id: rows of equal rank come in any order. */
    method FindingsByTaskID(taskId: string) returns (fs: seq<Finding>)
      requires Valid()
      ensures IsReadback(fs, db, taskId)
    {
      fs := Sort(FindingsOf(db.findings, taskId));
      SortIsReadback(db, taskId);
    }
  }

  // ----- reading back -----

  function FindingsOf(rows: seq<FindingRow>, taskId: string): seq<Finding> {
    if rows == [] then []
    else FindingsOf(rows[..|rows| - 1], taskId)
         + if rows[|rows| - 1].taskId == taskId then [rows[|rows| - 1].finding] else []
  }

  predicate IsReadback(fs: seq<Finding>, db: Db, taskId: string) {
    Sorted(fs) && multiset(fs) == multiset(FindingsOf(db.findings, taskId))
  }

  lemma {:induction false} InsertMultiset(s: seq<Finding>, f: Finding)
    ensures multiset(InsertStable(s, f)) == multiset(s) + multiset{f}
  {
    if s != [] && Less(f, s[|s| - 1]) {
      InsertMultiset(s[..|s| - 1], f);
      LastSplits(s);
    }
  }

  lemma {:induction false} InsertAllMultiset(s: seq<Finding>, fs: seq<Finding>)
    ensures multiset(InsertAll(s, fs)) == multiset(s) + multiset(fs)
    decreases fs
  {
    if fs != [] {
      InsertAllMultiset(s, fs[..|fs| - 1]);
      InsertMultiset(InsertAll(s, fs[..|fs| - 1]), fs[|fs| - 1]);
      LastSplits(fs);
    }
  }

  lemma SortIsReadback(db: Db, taskId: string)
    ensures IsReadback(Sort(FindingsOf(db.findings, taskId)), db, taskId)
  {
    SortIsStable(FindingsOf(db.findings, taskId));
    InsertAllMultiset([], FindingsOf(db.findings, taskId));
  }

  lemma {:induction false} FindingsOfRows(rows: seq<FindingRow>, taskId: string, fs: seq<Finding>)
    ensures FindingsOf(rows + Rows(taskId, fs), taskId) == FindingsOf(rows, taskId) + fs
  {
    if fs == [] {
      ConcatNil(rows);
      ConcatNil(FindingsOf(rows, taskId));
    } else {
      var init, last := fs[..|fs| - 1], fs[|fs| - 1];
      var row := FindingRow(taskId, last, Key(last));
      FindingsOfRows(rows, taskId, init);
      ConcatAssoc(rows, Rows(taskId, init), [row]);
      assert (rows + Rows(taskId, init) + [row])[..|rows + Rows(taskId, init)|] == rows + Rows(taskId, init);
      ConcatAssoc(FindingsOf(rows, taskId), init, [last]);
      LastSplits(fs);
    }
  }

  predicate DistinctRanks(fs: seq<Finding>) {
    forall i, j :: 0 <= i < j < |fs| ==> Rank(fs[i]) != Rank(fs[j])
  }

  /** Two sorted orders of the same findings agree when no two share file, line and rule. */
  lemma {:induction false} SortedOnce(s: seq<Finding>, t: seq<Finding>)
    requires Sorted(s) && Sorted(t) && multiset(s) == multiset(t) && DistinctRanks(t)
    ensures s == t
  {
    assert |s| == |multiset(s)| && |t| == |multiset(t)|;
    if s != [] {
      var x, y := s[|s| - 1], t[|t| - 1];
      assert x in multiset(s) && y in multiset(t);
      assert x in t && y in s;
      LastIsLargest(s, y);
      LastIsLargest(t, x);
      LessOrder(x, y, x);
      SameRankSame(t, x, y);
      LastSplits(s);
      LastSplits(t);
      assert multiset(s[..|s| - 1]) == multiset(s) - multiset{x};
      assert multiset(t[..|t| - 1]) == multiset(t) - multiset{x};
      SortedOnce(s[..|s| - 1], t[..|t| - 1]);
    }
  }

  lemma SameRankSame(t: seq<Finding>, x: Finding, y: Finding)
    requires DistinctRanks(t) && x in t && y in t && Rank(x) == Rank(y)
    ensures x == y
  {}

  /** Two findings of one rank may come back in the other order. */
  lemma SwappedReadback(fs: seq<Finding>, i: nat, j: nat)
    requires Sorted(fs) && i < j < |fs| && Rank(fs[i]) == Rank(fs[j])
    ensures Sorted(fs[i := fs[j]][j := fs[i]]) && multiset(fs[i := fs[j]][j := fs[i]]) == multiset(fs)
  {
    var t := fs[i := fs[j]][j := fs[i]];
    forall a, b | 0 <= a < b < |t|
      ensures !Less(t[b], t[a])
    {
      assert Rank(t[a]) == Rank(fs[a]) && Rank(t[b]) == Rank(fs[b]);
      SameRankSameOrder(t[b], t[a], fs[b], fs[a]);
    }
  }

  lemma SameRankSameOrder(f: Finding, g: Finding, f2: Finding, g2: Finding)
    requires Rank(f) == Rank(f2) && Rank(g) == Rank(g2)
    ensures Less(f, g) == Less(f2, g2)
  {}

  /** A saved review's findings come back complete, and for certain in their order exactly when no two share
      file, line and rule. */
  lemma SavedFindingsReadBack(db: Db, rec: ReviewRecord, fs: seq<Finding>)
    requires Committable(db, rec) && FindingsOf(db.findings, rec.task.id) == []
    ensures FindingsOf(AfterSave(db, rec).findings, rec.task.id) == rec.findings
    ensures IsReadback(fs, AfterSave(db, rec), rec.task.id) ==> multiset(fs) == multiset(rec.findings)
    ensures IsReadback(fs, AfterSave(db, rec), rec.task.id) && Sorted(rec.findings) && DistinctRanks(rec.findings)
            ==> fs == rec.findings
  {
    FindingsOfRows(db.findings, rec.task.id, rec.findings);
    ConcatNil(rec.findings);
    if IsReadback(fs, AfterSave(db, rec), rec.task.id) && Sorted(rec.findings) && DistinctRanks(rec.findings) {
      SortedOnce(fs, rec.findings);
    }
  }

  /** The other half: with a shared rank the database may answer in an order that was not saved. */
  lemma SharedRankMayReorder(db: Db, rec: ReviewRecord) returns (fs: seq<Finding>)
    requires Committable(db, rec) && FindingsOf(db.findings, rec.task.id) == []
    requires Sorted(rec.findings) && !DistinctRanks(rec.findings)
    ensures IsReadback(fs, AfterSave(db, rec), rec.task.id) && fs != rec.findings
  {
    SavedFindingsReadBack(db, rec, []);
    var i, j :| 0 <= i < j < |rec.findings| && Rank(rec.findings[i]) == Rank(rec.findings[j]);
    fs := rec.findings[i := rec.findings[j]][j := rec.findings[i]];
    SwappedReadback(rec.findings, i, j);
    DistinctPairs(rec.findings, i, j);
  }
}
