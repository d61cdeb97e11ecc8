/** What holds of finalised results: counts add up, a second finalisation is all that matters, a model review
    never weakens the verdict, and reports and storage see the same findings. */
module ReviewLaws {
  import opened Text
  import opened Findings
  import opened ModelReview
  import opened Records
  import opened ReviewResult

  // ----- the model step -----

  datatype ModelOutput = Answer(findings: seq<Finding>) | ProviderError(message: string)

  function FailureWarning(redact: Redactor, taskId: string, message: string): Finding {
    Finding("low", "model", "", 0, "Model review provider failed", redact(taskId + ": " + message),
            "Ask a human reviewer to inspect semantic and cross-file risks.", "high", SOURCE_REAL,
            "model-provider-failed", HUMAN_REVIEW)
  }

  function ListsAfter(redact: Redactor, lists: Lists, taskId: string, output: ModelOutput): Lists {
    match output
    case Answer(ms) => Merge(redact, lists, ms)
    case ProviderError(message) =>
      lists.(warnings := lists.warnings + [FailureWarning(redact, taskId, message)])
  }

  function CountsAfter(counts: map<string, int>, output: ModelOutput): map<string, int> {
    if output.ProviderError? then Bump(counts, "model_provider") else counts
  }

  /** A provider's answer is merged; its failure becomes evidence for a human reviewer. */
  method RunModelReview(redact: Redactor, lists: Lists, exceptions: Counter, taskId: string, output: ModelOutput)
    returns (out: Lists)
    modifies exceptions
    ensures out == ListsAfter(redact, lists, taskId, output)
    ensures exceptions.counts == CountsAfter(old(exceptions.counts), output)
  {
    match output {
      case ProviderError(message) =>
        exceptions.Increment("model_provider");
        out := lists.(warnings := lists.warnings + [FailureWarning(redact, taskId, message)]);
      case Answer(ms) =>
        out := MergeFindings(redact, lists, ms);
    }
  }

  // ----- exception counts -----

  /** After finalising, sandbox_failed is the number of failing runs, absent when there is none; every other
      count is as it was. */
  lemma FinalCountsAre(counts: map<string, int>, runs: seq<SandboxRun>, key: string)
    ensures var final := FinalCounts(counts, runs);
            && ("sandbox_failed" in final <==> FailingCount(runs) > 0)
            && ("sandbox_failed" in final ==> final["sandbox_failed"] == FailingCount(runs))
            && (key != "sandbox_failed" ==> (key in final <==> key in counts))
            && (key != "sandbox_failed" && key in counts ==> final[key] == counts[key])
  {}

  lemma FinalCountsAbsorb(counts: map<string, int>, before: seq<SandboxRun>, runs: seq<SandboxRun>,
                          output: ModelOutput)
    ensures FinalCounts(CountsAfter(FinalCounts(counts, before), output), runs)
         == FinalCounts(CountsAfter(counts, output), runs)
  {
    var a := CountsAfter(FinalCounts(counts, before), output) - {"sandbox_failed"};
    var b := CountsAfter(counts, output) - {"sandbox_failed"};
    assert "model_provider" != "sandbox_failed" by { assert "model_provider"[0] == 'm'; }
    assert a.Keys == b.Keys;
    assert a == b;
  }

  /** Finalising before the model review makes no difference to the result finalised after it, even though
      the first finalisation changes the shared exception counts. */
  lemma FinaliseAbsorbs(redact: Redactor, lists: Lists, counts: map<string, int>, first: ReviewContext,
                        clock: Clock, last: ReviewContext, lastClock: Clock, output: ModelOutput)
    ensures Finalise(ListsAfter(redact, Finalise(lists, counts, first, clock).lists, last.taskId, output),
                     CountsAfter(FinalCounts(counts, first.runs), output), last, lastClock)
         == Finalise(ListsAfter(redact, lists, last.taskId, output),
                     CountsAfter(counts, output), last, lastClock)
  {
    FinalCountsAbsorb(counts, first.runs, last.runs, output);
  }

  // ----- severity counts -----

  lemma {:induction false} SeverityCountsAre(fs: seq<Finding>, severity: string)
    ensures severity in SeverityCounts(fs) <==> CountOf(fs, severity) > 0
    ensures severity in SeverityCounts(fs) ==> SeverityCounts(fs)[severity] == CountOf(fs, severity)
  {
    if fs != [] {
      SeverityCountsAre(fs[..|fs| - 1], severity);
    }
  }

  ghost function PickKey(m: map<string, int>): string
    requires m != map[]
  {
    var k :| k in m;
    k
  }

  /** The sum of the values. */
  ghost function Total(m: map<string, int>): int
    decreases m.Keys
  {
    if m == map[] then 0 else m[PickKey(m)] + Total(m - {PickKey(m)})
  }

  lemma {:induction false} TotalAny(m: map<string, int>, k: string)
    requires k in m
    ensures Total(m) == m[k] + Total(m - {k})
    decreases m.Keys
  {
    var p := PickKey(m);
    if p != k {
      TotalAny(m - {p}, k);
      TotalAny(m - {k}, p);
      assert m - {p} - {k} == m - {k} - {p};
    }
  }

  lemma TotalBump(m: map<string, int>, k: string)
    ensures Total(Bump(m, k)) == Total(m) + 1
  {
    TotalAny(Bump(m, k), k);
    assert Bump(m, k) - {k} == m - {k};
    if k in m {
      TotalAny(m, k);
    } else {
      assert m - {k} == m;
    }
  }

  lemma {:induction false} SeverityTotal(fs: seq<Finding>)
    ensures Total(SeverityCounts(fs)) == |fs|
  {
    if fs != [] {
      SeverityTotal(fs[..|fs| - 1]);
      TotalBump(SeverityCounts(fs[..|fs| - 1]), fs[|fs| - 1].severity);
    }
  }

  /** The severity counts of a finalised result are the numbers of its findings and warnings of each severity,
      and sum to all of them. */
  lemma SeverityCountsSum(lists: Lists, counts: map<string, int>, ctx: ReviewContext, clock: Clock, severity: string)
    ensures var severities := Finalise(lists, counts, ctx, clock).metrics.severityCounts;
            && (severity in severities <==> CountOf(lists.findings + lists.warnings, severity) > 0)
            && (severity in severities ==> severities[severity] == CountOf(lists.findings + lists.warnings, severity))
            && Total(severities) == |lists.findings| + |lists.warnings|
  {
    SeverityCountsAre(lists.findings + lists.warnings, severity);
    SeverityTotal(lists.findings + lists.warnings);
  }

  // ----- the verdict after a model review -----

  function VerdictOf(lists: Lists, counts: map<string, int>, ctx: ReviewContext): Status {
    Verdict(lists.findings, Dedupe(Asking(lists.warnings)), FinalCounts(counts, ctx.runs)).status
  }

  predicate HasAsking(fs: seq<Finding>) {
    fs != [] && (HasAsking(fs[..|fs| - 1]) || AsksHuman(fs[|fs| - 1]))
  }

  lemma {:induction false} AskingNotEmpty(fs: seq<Finding>)
    ensures Asking(fs) != [] <==> HasAsking(fs)
  {
    if fs != [] {
      AskingNotEmpty(fs[..|fs| - 1]);
    }
  }

  lemma {:induction false} AskingMember(fs: seq<Finding>)
    ensures HasAsking(fs) <==> exists f :: f in fs && AsksHuman(f)
  {
    if fs != [] {
      AskingMember(fs[..|fs| - 1]);
      LastSplits(fs);
    }
  }

  lemma {:induction false} BlockingMember(fs: seq<Finding>)
    ensures HasBlocking(fs) <==> exists f :: f in fs && Blocking(f)
  {
    if fs != [] {
      BlockingMember(fs[..|fs| - 1]);
      LastSplits(fs);
    }
  }

  lemma DedupeNotEmpty(fs: seq<Finding>)
    ensures Dedupe(fs) != [] <==> fs != []
  {
    DedupeKeys(fs);
    if fs != [] {
      KeyOfMember(fs, 0);
    }
  }

  lemma HumanItemsExist(warnings: seq<Finding>)
    ensures |Dedupe(Asking(warnings))| > 0 <==> HasAsking(warnings)
  {
    AskingNotEmpty(warnings);
    DedupeNotEmpty(Asking(warnings));
  }

  lemma DedupedMembers(known: seq<Finding>, added: seq<Finding>)
    requires Distinct(added) && Keys(added) !! Keys(known)
    ensures forall f :: f in Dedupe(known + added) <==> f in Firsts(known) || f in added
  {
    FirstsConcat({}, known, added);
    FirstsApart({} + Keys(known), added);
    InsertAllMembers([], Firsts(known + added));
  }

  lemma FirstsApart(seen: set<string>, fs: seq<Finding>)
    requires Distinct(fs) && Keys(fs) !! seen
    ensures FirstsAfter(seen, fs) == fs
  {
    FirstsKeys(seen, fs);
    assert Keys(fs) - seen == Keys(fs);
    FirstsFull(seen, fs);
  }

  lemma {:induction false} LowsAsk(fs: seq<Finding>)
    ensures forall f :: f in Lows(fs) ==> AsksHuman(f)
  {
    if fs != [] {
      LowsAsk(fs[..|fs| - 1]);
    }
  }

  /** A new finding of the model that is confident and severe. */
  predicate BringsBlocker(redact: Redactor, lists: Lists, ms: seq<Finding>) {
    HasBlocking(Highs(News(redact, lists, ms)))
  }

  /** For every result, deduplicated or not: what the merged lists hold. */
  lemma MergedLists(redact: Redactor, lists: Lists, ms: seq<Finding>)
    ensures var out := Merge(redact, lists, ms);
            var news := News(redact, lists, ms);
            && (forall f :: f in out.findings <==> f in Firsts(lists.findings) || f in Highs(news))
            && (forall f :: f in out.warnings <==> f in Firsts(lists.warnings) || f in Lows(news))
  {
    var news := News(redact, lists, ms);
    NewsKeys(redact, lists, ms);
    SplitKeys(news);
    DedupedMembers(lists.findings, Highs(news));
    DedupedMembers(lists.warnings, Lows(news));
  }

  lemma VerdictIs(lists: Lists, counts: map<string, int>, ctx: ReviewContext)
    ensures var status := VerdictOf(lists, counts, ctx);
            && (status == Fail <==> HasBlocking(lists.findings))
            && (status == Pass <==> status != Fail && !HasAsking(lists.warnings)
                                    && !SandboxException(FinalCounts(counts, ctx.runs)))
  {
    HumanItemsExist(lists.warnings);
  }

  /** A list that consists of two others has a blocking, or an asking, finding exactly when one of them has. */
  lemma UnionHas(all: seq<Finding>, a: seq<Finding>, b: seq<Finding>)
    requires forall f :: f in all <==> f in a || f in b
    ensures HasBlocking(all) <==> HasBlocking(a) || HasBlocking(b)
    ensures HasAsking(all) <==> HasAsking(a) || HasAsking(b)
  {
    BlockingMember(all);
    BlockingMember(a);
    BlockingMember(b);
    AskingMember(all);
    AskingMember(a);
    AskingMember(b);
  }

  lemma LowsAskSome(fs: seq<Finding>)
    ensures HasAsking(Lows(fs)) <==> Lows(fs) != []
  {
    LowsAsk(fs);
    AskingMember(Lows(fs));
    if Lows(fs) != [] {
      assert Lows(fs)[0] in Lows(fs);
    }
  }

  lemma MergedHas(redact: Redactor, lists: Lists, ms: seq<Finding>)
    ensures HasBlocking(Merge(redact, lists, ms).findings)
       <==> HasBlocking(Firsts(lists.findings)) || BringsBlocker(redact, lists, ms)
    ensures HasAsking(Merge(redact, lists, ms).warnings)
       <==> HasAsking(Firsts(lists.warnings)) || Lows(News(redact, lists, ms)) != []
  {
    var news := News(redact, lists, ms);
    MergedLists(redact, lists, ms);
    UnionHas(Merge(redact, lists, ms).findings, Firsts(lists.findings), Highs(news));
    UnionHas(Merge(redact, lists, ms).warnings, Firsts(lists.warnings), Lows(news));
    LowsAskSome(news);
  }

  /** The verdict after a merge, for every result: only the first finding of each key still counts. */
  lemma VerdictAfterMerge(redact: Redactor, lists: Lists, counts: map<string, int>, ctx: ReviewContext,
                          ms: seq<Finding>)
    ensures var status := VerdictOf(Merge(redact, lists, ms), counts, ctx);
            var news := News(redact, lists, ms);
            && (status == Fail <==> HasBlocking(Firsts(lists.findings)) || BringsBlocker(redact, lists, ms))
            && (status == Pass <==> status != Fail && !HasAsking(Firsts(lists.warnings)) && Lows(news) == []
                                    && !SandboxException(FinalCounts(counts, ctx.runs)))
  {
    VerdictIs(Merge(redact, lists, ms), counts, ctx);
    MergedHas(redact, lists, ms);
  }

  /** What a model output does to the verdict. */
  predicate NeverWeaker(redact: Redactor, lists: Lists, counts: map<string, int>, ctx: ReviewContext,
                        output: ModelOutput) {
    var before := VerdictOf(lists, counts, ctx);
    var after := VerdictOf(ListsAfter(redact, lists, ctx.taskId, output), CountsAfter(counts, output), ctx);
    && Level(before) <= Level(after)
    && (after == Fail <==> before == Fail || (output.Answer? && BringsBlocker(redact, lists, output.findings)))
    && (output.ProviderError? ==> after != Pass)
  }

  lemma AnswerNeverWeakens(redact: Redactor, lists: Lists, counts: map<string, int>, ctx: ReviewContext,
                           ms: seq<Finding>)
    requires Distinct(lists.findings) && Distinct(lists.warnings)
    ensures NeverWeaker(redact, lists, counts, ctx, Answer(ms))
  {
    VerdictIs(lists, counts, ctx);
    VerdictAfterMerge(redact, lists, counts, ctx, ms);
    FirstsOfDistinct(lists.findings);
    FirstsOfDistinct(lists.warnings);
  }

  lemma FailureAsks(lists: Lists, w: Finding, counts: map<string, int>, ctx: ReviewContext)
    requires AsksHuman(w)
    ensures VerdictOf(lists.(warnings := lists.warnings + [w]), counts, ctx) != Pass
    ensures VerdictOf(lists.(warnings := lists.warnings + [w]), counts, ctx) == Fail <==> HasBlocking(lists.findings)
  {
    VerdictIs(lists.(warnings := lists.warnings + [w]), counts, ctx);
    assert (lists.warnings + [w])[..|lists.warnings|] == lists.warnings;
  }

  lemma FailureNeverWeakens(redact: Redactor, lists: Lists, counts: map<string, int>, ctx: ReviewContext,
                            message: string)
    ensures NeverWeaker(redact, lists, counts, ctx, ProviderError(message))
  {
    VerdictIs(lists, counts, ctx);
    FailureAsks(lists, FailureWarning(redact, ctx.taskId, message), CountsAfter(counts, ProviderError(message)), ctx);
  }

  /** When neither list repeats a key, a model review never weakens the verdict, whether it answers or fails;
      it fails exactly when it failed before or the model brought a new, confident, severe finding. */
  lemma ModelNeverWeakens(redact: Redactor, lists: Lists, counts: map<string, int>, ctx: ReviewContext,
                          output: ModelOutput)
    requires Distinct(lists.findings) && Distinct(lists.warnings)
    ensures NeverWeaker(redact, lists, counts, ctx, output)
  {
    match output {
      case Answer(ms) => AnswerNeverWeakens(redact, lists, counts, ctx, ms);
      case ProviderError(message) => FailureNeverWeakens(redact, lists, counts, ctx, message);
    }
  }

  /** Whatever the lists hold, the verdict is weakened by an answer exactly when every reason for it is a later
      finding of a repeated key and the model brings nothing in its place. */
  lemma AnswerWeakensWhen(redact: Redactor, lists: Lists, counts: map<string, int>, ctx: ReviewContext,
                          ms: seq<Finding>)
    ensures var before := VerdictOf(lists, counts, ctx);
            var after := VerdictOf(Merge(redact, lists, ms), counts, ctx);
            var blocks := HasBlocking(Firsts(lists.findings)) || BringsBlocker(redact, lists, ms);
            Level(after) < Level(before) <==>
              if HasBlocking(lists.findings) then !blocks
              else && HasAsking(lists.warnings) && !HasAsking(Firsts(lists.warnings)) && !blocks
                   && Lows(News(redact, lists, ms)) == [] && !SandboxException(FinalCounts(counts, ctx.runs))
  {
    VerdictIs(lists, counts, ctx);
    VerdictAfterMerge(redact, lists, counts, ctx, ms);
    FirstsHaveNoMore(lists.findings);
    FirstsHaveNoMore(lists.warnings);
  }

  lemma FirstsHaveNoMore(fs: seq<Finding>)
    ensures HasBlocking(Firsts(fs)) ==> HasBlocking(fs)
    ensures HasAsking(Firsts(fs)) ==> HasAsking(fs)
  {
    forall f | f in Firsts(fs)
      ensures f in fs
    {
      FirstsMembers(fs, f);
    }
    BlockingMember(fs);
    BlockingMember(Firsts(fs));
    AskingMember(fs);
    AskingMember(Firsts(fs));
  }

  // ----- reports and storage -----

  /** What BuildJSON puts in the place of findings and human review items. */
  function ReportedFindings(b: Body): seq<Finding> {
    Dedupe(b.lists.findings)
  }

  function ReportedHumanItems(b: Body): seq<Finding> {
    Dedupe(b.humanItems + Asking(b.lists.warnings))
  }

  /** The result as the JSON report shows it. */
  function ReportedBody(b: Body): Body {
    b.(lists := b.lists.(findings := ReportedFindings(b)), humanItems := ReportedHumanItems(b))
  }

  method GatherHumanItems(b: Body) returns (items: seq<Finding>)
    ensures items == ReportedHumanItems(b)
  {
    var warnings := b.lists.warnings;
    items := b.humanItems;
    ConcatNil(items);
    for i := 0 to |warnings|
      invariant items == b.humanItems + Asking(warnings[..i])
    {
      assert warnings[..i + 1][..i] == warnings[..i];
      ConcatNil(Asking(warnings[..i]));
      ConcatAssoc(b.humanItems, Asking(warnings[..i]), [warnings[i]]);
      if AsksHuman(warnings[i]) {
        items := items + [warnings[i]];
      }
    }
    assert warnings[..|warnings|] == warnings;
    items := DedupeFindings(items);
  }

  /** BuildJSON up to the encoding. */
  method NormaliseReport(b: Body) returns (out: Body)
    ensures out == ReportedBody(b)
  {
    var findings := DedupeFindings(b.lists.findings);
    out := b.(lists := b.lists.(findings := findings));
    var items := GatherHumanItems(out);
    out := out.(humanItems := items);
  }

  /** The items persist stores. */
  function PersistedItems(b: Body): seq<Finding> {
    Dedupe(b.lists.findings + b.lists.warnings + b.humanItems)
  }

  lemma {:induction false} AskingKeys(fs: seq<Finding>)
    ensures Keys(Asking(fs)) <= Keys(fs)
  {
    if fs != [] {
      AskingKeys(fs[..|fs| - 1]);
      SnocKeys(Asking(fs[..|fs| - 1]), fs[|fs| - 1]);
      ConcatNil(Asking(fs[..|fs| - 1]));
    }
  }

  /** On a finalised result the report changes nothing exactly when the findings are deduplicated, and storage
      holds exactly the deduplicated findings and warnings. */
  lemma ReportAndStorageAgree(lists: Lists, counts: map<string, int>, ctx: ReviewContext, clock: Clock)
    ensures var b := Finalise(lists, counts, ctx, clock);
            && ReportedHumanItems(b) == b.humanItems
            && PersistedItems(b) == Dedupe(lists.findings + lists.warnings)
            && Distinct(PersistedItems(b))
            && (ReportedBody(b) == b <==> lists.findings == Dedupe(lists.findings))
  {
    var human := Dedupe(Asking(lists.warnings));
    DedupeTwice(Asking(lists.warnings));
    DedupeKeys(Asking(lists.warnings));
    AskingKeys(lists.warnings);
    KeysConcat(lists.findings, lists.warnings);
    DedupeSeen(lists.findings + lists.warnings, human);
    DedupeKeys(lists.findings + lists.warnings);
  }
}
