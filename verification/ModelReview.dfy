/** Merging the findings of a model review into a result. */
module ModelReview {
  import opened Text
  import opened Findings

  /** review.RedactSecrets, of which only the type is known here. */
  type Redactor = string -> string

  const SOURCE_FAKE := "fake_model"
  const SOURCE_REAL := "model"
  const HUMAN_REVIEW := "needs_human_review"

  function Or(s: string, default: string): string {
    if s == "" then default else s
  }

  function Sanitize(redact: Redactor, f: Finding): Finding {
    f.(evidence := redact(f.evidence), status := Or(f.status, "finding"))
  }

  function NormalizeSource(source: string): string {
    if TrimSpace(source) == SOURCE_FAKE then SOURCE_FAKE else SOURCE_REAL
  }

  function Normalize(redact: Redactor, f: Finding): Finding {
    var g := Sanitize(redact, f);
    g.(source := NormalizeSource(g.source), confidence := Or(g.confidence, "low"),
       ruleId := Or(g.ruleId, "model-review"), category := Or(g.category, "model"),
       severity := Or(g.severity, "low"), title := Or(g.title, "Model review signal"))
  }

  function NormalizeAll(redact: Redactor, fs: seq<Finding>): (r: seq<Finding>)
    ensures |r| == |fs|
  {
    if fs == [] then [] else NormalizeAll(redact, fs[..|fs| - 1]) + [Normalize(redact, fs[|fs| - 1])]
  }

  predicate High(f: Finding) {
    Lower(TrimSpace(f.confidence)) == "high"
  }

  /** The high-confidence findings, as they enter the findings. */
  function Highs(fs: seq<Finding>): seq<Finding> {
    if fs == [] then []
    else
      var last := fs[|fs| - 1];
      Highs(fs[..|fs| - 1]) + if High(last) then [last.(status := "finding")] else []
  }

  /** The other findings, as they enter the warnings. */
  function Lows(fs: seq<Finding>): seq<Finding> {
    if fs == [] then []
    else
      var last := fs[|fs| - 1];
      Lows(fs[..|fs| - 1]) + if High(last) then [] else [last.(status := HUMAN_REVIEW)]
  }

  /** The two lists of findings of a result. */
  datatype Lists = Lists(findings: seq<Finding>, warnings: seq<Finding>)

  function ListKeys(r: Lists): set<string> {
    Keys(r.findings) + Keys(r.warnings)
  }

  /** The model findings with a key the result does not have, each the first of its key. */
  function News(redact: Redactor, r: Lists, ms: seq<Finding>): seq<Finding> {
    FirstsAfter(ListKeys(r), NormalizeAll(redact, ms))
  }

  function Merge(redact: Redactor, r: Lists, ms: seq<Finding>): Lists {
    var news := News(redact, r, ms);
    Lists(Dedupe(r.findings + Highs(news)), Dedupe(r.warnings + Lows(news)))
  }

  method KnownKeys(r: Lists) returns (existing: set<string>)
    ensures existing == ListKeys(r)
  {
    existing := {};
    var all := r.findings + r.warnings;
    for i := 0 to |all|
      invariant existing == Keys(all[..i])
    {
      assert all[..i + 1][..i] == all[..i];
      existing := existing + {Key(all[i])};
    }
    assert all[..|all|] == all;
    KeysConcat(r.findings, r.warnings);
  }

  /** The state of the merging loop after the normalised findings ns. */
  predicate Merging(r: Lists, ns: seq<Finding>, existing: set<string>, out: Lists) {
    var news := FirstsAfter(ListKeys(r), ns);
    && existing == ListKeys(r) + Keys(ns)
    && out == Lists(r.findings + Highs(news), r.warnings + Lows(news))
  }

  function Place(out: Lists, f: Finding): Lists {
    if High(f) then out.(findings := out.findings + [f.(status := "finding")])
    else out.(warnings := out.warnings + [f.(status := HUMAN_REVIEW)])
  }

  lemma MergingStart(r: Lists)
    ensures Merging(r, [], ListKeys(r), r)
  {
    ConcatNil(r.findings);
    ConcatNil(r.warnings);
  }

  lemma MergingStep(r: Lists, ns: seq<Finding>, f: Finding, existing: set<string>, out: Lists)
    requires Merging(r, ns, existing, out)
    ensures Key(f) in existing ==> Merging(r, ns + [f], existing, out)
    ensures Key(f) !in existing ==> Merging(r, ns + [f], existing + {Key(f)}, Place(out, f))
  {
    var news := FirstsAfter(ListKeys(r), ns);
    SnocFirsts(ListKeys(r), ns, f);
    SnocKeys(ns, f);
    SnocLists(news, f);
    if Key(f) !in existing {
      ConcatAssoc(r.findings, Highs(news), [f.(status := "finding")]);
      ConcatAssoc(r.warnings, Lows(news), [f.(status := HUMAN_REVIEW)]);
    }
  }

  lemma SnocFirsts(seen: set<string>, fs: seq<Finding>, f: Finding)
    ensures FirstsAfter(seen, fs + [f])
         == if Key(f) in seen + Keys(fs) then FirstsAfter(seen, fs) else FirstsAfter(seen, fs) + [f]
  {
    assert (fs + [f])[..|fs|] == fs;
    ConcatNil(FirstsAfter(seen, fs));
  }

  lemma SnocLists(fs: seq<Finding>, f: Finding)
    ensures Highs(fs + [f]) == if High(f) then Highs(fs) + [f.(status := "finding")] else Highs(fs)
    ensures Lows(fs + [f]) == if High(f) then Lows(fs) else Lows(fs) + [f.(status := HUMAN_REVIEW)]
  {
    assert (fs + [f])[..|fs|] == fs;
    ConcatNil(Highs(fs));
    ConcatNil(Lows(fs));
  }

  method MergeFindings(redact: Redactor, r: Lists, ms: seq<Finding>) returns (out: Lists)
    ensures out == Merge(redact, r, ms)
  {
    var existing := KnownKeys(r);
    out := r;
    MergingStart(r);
    for i := 0 to |ms|
      invariant Merging(r, NormalizeAll(redact, ms[..i]), existing, out)
    {
      var finding := Normalize(redact, ms[i]);
      assert ms[..i + 1][..i] == ms[..i];
      MergingStep(r, NormalizeAll(redact, ms[..i]), finding, existing, out);
      if Key(finding) in existing {
        continue;
      }
      existing := existing + {Key(finding)};
      if High(finding) {
        finding := finding.(status := "finding");
        out := out.(findings := out.findings + [finding]);
        continue;
      }
      finding := finding.(status := HUMAN_REVIEW);
      out := out.(warnings := out.warnings + [finding]);
    }
    assert ms[..|ms|] == ms;
    var findings := DedupeFindings(out.findings);
    var warnings := DedupeFindings(out.warnings);
    out := Lists(findings, warnings);
  }

  // ----- laws of merging -----

  lemma {:induction false} NormalizeConcat(redact: Redactor, a: seq<Finding>, b: seq<Finding>)
    ensures NormalizeAll(redact, a + b) == NormalizeAll(redact, a) + NormalizeAll(redact, b)
  {
    if b == [] {
      ConcatNil(a);
      ConcatNil(NormalizeAll(redact, a));
    } else {
      assert (a + b)[..|a + b| - 1] == a + b[..|b| - 1];
      NormalizeConcat(redact, a, b[..|b| - 1]);
      ConcatAssoc(NormalizeAll(redact, a), NormalizeAll(redact, b[..|b| - 1]), [Normalize(redact, b[|b| - 1])]);
    }
  }

  lemma {:induction false} HighsConcat(a: seq<Finding>, b: seq<Finding>)
    ensures Highs(a + b) == Highs(a) + Highs(b)
  {
    if b == [] {
      ConcatNil(a);
      ConcatNil(Highs(a));
    } else {
      var last := b[|b| - 1];
      assert (a + b)[..|a + b| - 1] == a + b[..|b| - 1];
      HighsConcat(a, b[..|b| - 1]);
      ConcatAssoc(Highs(a), Highs(b[..|b| - 1]), if High(last) then [last.(status := "finding")] else []);
    }
  }

  lemma {:induction false} LowsConcat(a: seq<Finding>, b: seq<Finding>)
    ensures Lows(a + b) == Lows(a) + Lows(b)
  {
    if b == [] {
      ConcatNil(a);
      ConcatNil(Lows(a));
    } else {
      var last := b[|b| - 1];
      assert (a + b)[..|a + b| - 1] == a + b[..|b| - 1];
      LowsConcat(a, b[..|b| - 1]);
      ConcatAssoc(Lows(a), Lows(b[..|b| - 1]), if High(last) then [] else [last.(status := HUMAN_REVIEW)]);
    }
  }

  lemma KeyIgnoresStatus(f: Finding, status: string)
    ensures Key(f.(status := status)) == Key(f)
  {}

  predicate Split(news: set<string>, highs: set<string>, lows: set<string>) {
    highs + lows == news && highs !! lows
  }

  lemma SplitGrows(news: set<string>, highs: set<string>, lows: set<string>, key: string)
    requires Split(news, highs, lows) && key !in news
    ensures Split(news + {key}, highs + {key}, lows) && Split(news + {key}, highs, lows + {key})
    ensures key !in highs && key !in lows
  {}

  /** The new findings go to exactly one of the two lists. */
  lemma {:induction false} SplitKeys(news: seq<Finding>)
    requires Distinct(news)
    ensures Split(Keys(news), Keys(Highs(news)), Keys(Lows(news)))
    ensures Distinct(Highs(news)) && Distinct(Lows(news))
  {
    if news != [] {
      var init, last := news[..|news| - 1], news[|news| - 1];
      DistinctLast(news);
      SplitKeys(init);
      SplitGrows(Keys(init), Keys(Highs(init)), Keys(Lows(init)), Key(last));
      LastSplits(news);
      SnocLists(init, last);
      SnocPlaced(Highs(init), last, "finding");
      SnocPlaced(Lows(init), last, HUMAN_REVIEW);
    }
  }

  lemma SnocPlaced(fs: seq<Finding>, f: Finding, status: string)
    ensures Keys(fs + [f.(status := status)]) == Keys(fs) + {Key(f)}
    ensures Distinct(fs) && Key(f) !in Keys(fs) ==> Distinct(fs + [f.(status := status)])
  {
    KeyIgnoresStatus(f, status);
    SnocKeys(fs, f.(status := status));
  }

  /** The keys of the new findings are those of the model's that the result did not have. */
  lemma NewsKeys(redact: Redactor, r: Lists, ms: seq<Finding>)
    ensures var news := News(redact, r, ms);
            && Keys(news) == Keys(NormalizeAll(redact, ms)) - ListKeys(r)
            && Distinct(news)
            && Keys(Highs(news)) + Keys(Lows(news)) == Keys(news)
            && Keys(Highs(news)) !! Keys(Lows(news))
  {
    FirstsKeys(ListKeys(r), NormalizeAll(redact, ms));
    SplitKeys(News(redact, r, ms));
  }

  lemma DedupedKeys(a: seq<Finding>, b: seq<Finding>)
    ensures Keys(Dedupe(a + b)) == Keys(a) + Keys(b)
  {
    DedupeKeys(a + b);
    KeysConcat(a, b);
  }

  /** No key of the result is lost, and every new key of the model lands in exactly one of the two lists. */
  lemma MergeKeys(redact: Redactor, r: Lists, ms: seq<Finding>)
    ensures var out := Merge(redact, r, ms);
            var added := Keys(NormalizeAll(redact, ms)) - ListKeys(r);
            && Keys(r.findings) <= Keys(out.findings) && Keys(r.warnings) <= Keys(out.warnings)
            && ListKeys(out) == ListKeys(r) + added
            && forall k :: k in added ==> (k in Keys(out.findings)) != (k in Keys(out.warnings))
  {
    var news := News(redact, r, ms);
    NewsKeys(redact, r, ms);
    DedupedKeys(r.findings, Highs(news));
    DedupedKeys(r.warnings, Lows(news));
    ApartKeys(Keys(r.findings), Keys(r.warnings), Keys(Highs(news)), Keys(Lows(news)),
              Keys(NormalizeAll(redact, ms)) - ListKeys(r));
  }

  lemma ApartKeys(f: set<string>, w: set<string>, h: set<string>, l: set<string>, added: set<string>)
    requires h + l == added && h !! l && added !! f + w
    ensures f + h + (w + l) == f + w + added
    ensures forall k :: k in added ==> (k in f + h) != (k in w + l)
  {}

  lemma IsFirstInPrefix(a: seq<Finding>, b: seq<Finding>, f: Finding)
    requires IsFirst(a + b, f) && Key(f) in Keys(a)
    ensures IsFirst(a, f)
  {
    var i :| FirstAt(a + b, f, i);
    if i < |a| {
      assert (a + b)[..i] == a[..i];
      assert FirstAt(a, f, i);
    } else {
      assert (a + b)[..i] == a + b[..i - |a|];
      KeysConcat(a, b[..i - |a|]);
    }
  }

  /** The original representatives always win: a merged finding whose key the list had is the first the list
      had with that key. */
  lemma OriginalsWin(redact: Redactor, r: Lists, ms: seq<Finding>, f: Finding)
    ensures f in Merge(redact, r, ms).findings && Key(f) in ListKeys(r) ==> IsFirst(r.findings, f)
    ensures f in Merge(redact, r, ms).warnings && Key(f) in ListKeys(r) ==> IsFirst(r.warnings, f)
  {
    var news := News(redact, r, ms);
    NewsKeys(redact, r, ms);
    if f in Merge(redact, r, ms).findings && Key(f) in ListKeys(r) {
      OriginalWins(r.findings, Highs(news), f);
    }
    if f in Merge(redact, r, ms).warnings && Key(f) in ListKeys(r) {
      OriginalWins(r.warnings, Lows(news), f);
    }
  }

  lemma OriginalWins(known: seq<Finding>, added: seq<Finding>, f: Finding)
    requires f in Dedupe(known + added) && Key(f) !in Keys(added)
    ensures IsFirst(known, f)
  {
    DedupeIs(known + added);
    var i :| 0 <= i < |Dedupe(known + added)| && Dedupe(known + added)[i] == f;
    KeyOfMember(Dedupe(known + added), i);
    KeysConcat(known, added);
    IsFirstInPrefix(known, added, f);
  }

  /** Merging two outputs one after the other is merging their concatenation. */
  lemma MergeConcat(redact: Redactor, r: Lists, a: seq<Finding>, b: seq<Finding>)
    ensures Merge(redact, r, a + b) == Merge(redact, Merge(redact, r, a), b)
  {
    var na, nb := NormalizeAll(redact, a), NormalizeAll(redact, b);
    var newsA := News(redact, r, a);
    var newsB := FirstsAfter(ListKeys(r) + Keys(na), nb);
    NormalizeConcat(redact, a, b);
    FirstsConcat(ListKeys(r), na, nb);
    assert News(redact, r, a + b) == newsA + newsB;
    MergeKeys(redact, r, a);
    assert ListKeys(Merge(redact, r, a)) == ListKeys(r) + Keys(na);
    assert News(redact, Merge(redact, r, a), b) == newsB;
    HighsConcat(newsA, newsB);
    LowsConcat(newsA, newsB);
    ConcatAssoc(r.findings, Highs(newsA), Highs(newsB));
    ConcatAssoc(r.warnings, Lows(newsA), Lows(newsB));
    DedupeAbsorbs(r.findings + Highs(newsA), Highs(newsB));
    DedupeAbsorbs(r.warnings + Lows(newsA), Lows(newsB));
  }

  /** Merging nothing new only deduplicates; in particular merging the same output again changes nothing. */
  lemma MergeTwice(redact: Redactor, r: Lists, ms: seq<Finding>)
    ensures Merge(redact, Merge(redact, r, ms), ms) == Merge(redact, r, ms)
  {
    var out := Merge(redact, r, ms);
    var news := News(redact, r, ms);
    MergeKeys(redact, r, ms);
    FirstsOfSeen(ListKeys(out), NormalizeAll(redact, ms));
    ConcatNil(out.findings);
    ConcatNil(out.warnings);
    DedupeIdempotent(r.findings + Highs(news));
    DedupeIdempotent(r.warnings + Lows(news));
  }

  // ----- the snapshot a provider is given -----

  function SanitizeAll(redact: Redactor, fs: seq<Finding>): seq<Finding> {
    if fs == [] then [] else SanitizeAll(redact, fs[..|fs| - 1]) + [Sanitize(redact, fs[|fs| - 1])]
  }

  function Snapshot(redact: Redactor, r: Lists): seq<Finding> {
    Dedupe(SanitizeAll(redact, r.findings + r.warnings))
  }

  lemma {:induction false} SanitizeKeys(redact: Redactor, fs: seq<Finding>)
    ensures Keys(SanitizeAll(redact, fs)) == Keys(fs)
  {
    if fs != [] {
      var init, last := fs[..|fs| - 1], fs[|fs| - 1];
      SanitizeKeys(redact, init);
      SnocKeys(SanitizeAll(redact, init), Sanitize(redact, last));
      SanitizedKey(redact, last);
    }
  }

  lemma SanitizedKey(redact: Redactor, f: Finding)
    ensures Key(Sanitize(redact, f)) == Key(f)
  {}

  /** The provider is shown exactly the keys that merging will treat as known, each once. */
  lemma SnapshotKeys(redact: Redactor, r: Lists)
    ensures Keys(Snapshot(redact, r)) == ListKeys(r) && Distinct(Snapshot(redact, r))
  {
    SanitizeKeys(redact, r.findings + r.warnings);
    KeysConcat(r.findings, r.warnings);
    DedupeKeys(SanitizeAll(redact, r.findings + r.warnings));
  }
}
