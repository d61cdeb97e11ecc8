/** Where each finding of a model goes when it is merged, and what becomes of it. */
module Placement {
  import opened Text
  import opened Findings
  import opened ModelReview
  import opened ReviewLaws

  /** An empty text is replaced by a default. */
  predicate Filled(s: string, default: string, r: string) {
    if |s| == 0 then r == default else r == s
  }

  /** The finding with its defaults, up to its status: evidence redacted, source one of the two, other fields kept. */
  predicate Completed(redact: Redactor, m: Finding, g: Finding) {
    && g.file == m.file && g.line == m.line && g.recommendation == m.recommendation
    && g.evidence == redact(m.evidence)
    && g.source == (if TrimSpace(m.source) == "fake_model" then "fake_model" else "model")
    && Filled(m.confidence, "low", g.confidence) && Filled(m.ruleId, "model-review", g.ruleId)
    && Filled(m.category, "model", g.category) && Filled(m.severity, "low", g.severity)
    && Filled(m.title, "Model review signal", g.title)
  }

  /** Finding i of the model, completed as g, is new to the lists and the model's first of its key. */
  ghost predicate BringsNew(redact: Redactor, r: Lists, ms: seq<Finding>, i: nat, g: Finding) {
    && i < |ms| && Completed(redact, ms[i], g) && Key(g) !in Keys(r.findings) && Key(g) !in Keys(r.warnings)
    && NoneEarlier(redact, ms, i, Key(g))
  }

  ghost predicate NoneEarlier(redact: Redactor, ms: seq<Finding>, i: nat, key: string)
    requires i <= |ms|
  {
    forall j, h :: 0 <= j < i && Completed(redact, ms[j], h) ==> Key(h) != key
  }

  predicate Confident(g: Finding) {
    EqualFold(TrimSpace(g.confidence), "high")
  }

  lemma CompletedIs(redact: Redactor, m: Finding, g: Finding)
    ensures Completed(redact, m, g) <==> g.(status := "") == Normalize(redact, m).(status := "")
  {}

  lemma ConfidentIs(g: Finding)
    ensures Confident(g) <==> High(g)
  {
    LowerIsWord(TrimSpace(g.confidence), "high");
  }

  lemma {:induction false} NormalizedAt(redact: Redactor, ms: seq<Finding>, i: nat)
    requires i < |ms|
    ensures NormalizeAll(redact, ms)[i] == Normalize(redact, ms[i])
  {
    if i < |ms| - 1 {
      NormalizedAt(redact, ms[..|ms| - 1], i);
    }
  }

  predicate HasKey(fs: seq<Finding>, j: int, key: string) {
    0 <= j < |fs| && Key(fs[j]) == key
  }

  lemma {:induction false} KeysAre(fs: seq<Finding>, key: string)
    ensures key in Keys(fs) <==> exists j :: HasKey(fs, j, key)
  {
    if fs != [] {
      var n := |fs| - 1;
      KeysAre(fs[..n], key);
      assert forall j :: j != n ==> HasKey(fs, j, key) == HasKey(fs[..n], j, key);
      assert HasKey(fs, n, key) <==> Key(fs[n]) == key;
    }
  }

  lemma KeyInPrefix(ns: seq<Finding>, i: nat, key: string)
    requires i <= |ns|
    ensures key in Keys(ns[..i]) <==> exists j :: 0 <= j < i && HasKey(ns, j, key)
  {
    KeysAre(ns[..i], key);
    assert forall j :: HasKey(ns[..i], j, key) <==> j < i && HasKey(ns, j, key);
  }

  lemma SameKeyWithoutStatus(f: Finding, g: Finding)
    requires f.(status := "") == g.(status := "")
    ensures Key(f) == Key(g)
  {
    KeyIgnoresStatus(f, "");
    KeyIgnoresStatus(g, "");
  }

  /** Position i of the normalised findings is the first of its key and new. */
  predicate NewAt(seen: set<string>, ns: seq<Finding>, i: int) {
    0 <= i < |ns| && Key(ns[i]) !in seen && Key(ns[i]) !in Keys(ns[..i])
  }

  lemma CompletedKey(redact: Redactor, m: Finding, h: Finding)
    requires Completed(redact, m, h)
    ensures Key(h) == Key(Normalize(redact, m))
  {
    CompletedIs(redact, m, h);
    SameKeyWithoutStatus(h, Normalize(redact, m));
  }

  predicate EarlierAt(redact: Redactor, ms: seq<Finding>, j: int, key: string) {
    0 <= j < |ms| && Key(Normalize(redact, ms[j])) == key
  }

  lemma NoneEarlierMeans(redact: Redactor, ms: seq<Finding>, i: nat, key: string)
    requires i <= |ms|
    ensures NoneEarlier(redact, ms, i, key) <==> forall j :: 0 <= j < i ==> !EarlierAt(redact, ms, j, key)
  {
    forall j | 0 <= j < i
      ensures Completed(redact, ms[j], Normalize(redact, ms[j]))
    {
      CompletedIs(redact, ms[j], Normalize(redact, ms[j]));
    }
    forall j, h | 0 <= j < i && Completed(redact, ms[j], h)
      ensures EarlierAt(redact, ms, j, Key(h))
    {
      CompletedKey(redact, ms[j], h);
    }
  }

  lemma NoneEarlierIs(redact: Redactor, ms: seq<Finding>, i: nat, key: string)
    requires i <= |ms|
    ensures NoneEarlier(redact, ms, i, key) <==> key !in Keys(NormalizeAll(redact, ms)[..i])
  {
    var ns := NormalizeAll(redact, ms);
    NoneEarlierMeans(redact, ms, i, key);
    KeyInPrefix(ns, i, key);
    forall j | 0 <= j < i
      ensures HasKey(ns, j, key) <==> EarlierAt(redact, ms, j, key)
    {
      NormalizedAt(redact, ms, j);
    }
  }

  lemma BringsNewIs(redact: Redactor, r: Lists, ms: seq<Finding>, i: nat, g: Finding)
    requires i < |ms|
    ensures BringsNew(redact, r, ms, i, g)
       <==> g.(status := "") == Normalize(redact, ms[i]).(status := "")
            && NewAt(ListKeys(r), NormalizeAll(redact, ms), i)
  {
    CompletedIs(redact, ms[i], g);
    NormalizedAt(redact, ms, i);
    NoneEarlierIs(redact, ms, i, Key(g));
    if Completed(redact, ms[i], g) {
      CompletedKey(redact, ms[i], g);
    }
  }

  lemma {:induction false} NewsMembers(seen: set<string>, ns: seq<Finding>, f: Finding)
    ensures f in FirstsAfter(seen, ns) <==> exists i :: NewAt(seen, ns, i) && ns[i] == f
  {
    if ns != [] {
      var init, last := ns[..|ns| - 1], ns[|ns| - 1];
      NewsMembers(seen, init, f);
      forall i
        ensures NewAt(seen, ns, i) <==> NewAt(seen, init, i)
                                        || (i == |ns| - 1 && Key(last) !in seen && Key(last) !in Keys(init))
      {
        NewAtLonger(seen, ns, i);
      }
    }
  }

  lemma NewAtLonger(seen: set<string>, ns: seq<Finding>, i: int)
    requires ns != []
    ensures NewAt(seen, ns, i) <==> NewAt(seen, ns[..|ns| - 1], i)
                                    || (i == |ns| - 1 && Key(ns[i]) !in seen && Key(ns[i]) !in Keys(ns[..|ns| - 1]))
  {
    if 0 <= i < |ns| - 1 {
      assert ns[..|ns| - 1][..i] == ns[..i];
    }
  }

  lemma {:induction false} PlacedMembers(fs: seq<Finding>, f: Finding)
    ensures f in Highs(fs) <==> exists g :: g in fs && High(g) && f == g.(status := "finding")
    ensures f in Lows(fs) <==> exists g :: g in fs && !High(g) && f == g.(status := HUMAN_REVIEW)
  {
    if fs != [] {
      PlacedMembers(fs[..|fs| - 1], f);
      LastSplits(fs);
    }
  }

  lemma FirstsHaveKeys(fs: seq<Finding>, f: Finding)
    requires f in Firsts(fs)
    ensures Key(f) in Keys(fs)
  {
    FirstsMembers(fs, f);
    var i :| FirstAt(fs, f, i);
    KeyOfMember(fs, i);
  }

  lemma NewMembers(redact: Redactor, r: Lists, ms: seq<Finding>, f: Finding)
    requires Key(f) !in ListKeys(r)
    ensures var out := Merge(redact, r, ms);
            && (f in out.findings <==> f in Highs(News(redact, r, ms)))
            && (f in out.warnings <==> f in Lows(News(redact, r, ms)))
  {
    MergedLists(redact, r, ms);
    if f in Firsts(r.findings) {
      FirstsHaveKeys(r.findings, f);
    }
    if f in Firsts(r.warnings) {
      FirstsHaveKeys(r.warnings, f);
    }
  }

  /** Finding f of the merged lists stands for a confident, or another, model finding. */
  ghost predicate StandsFor(redact: Redactor, r: Lists, ms: seq<Finding>, f: Finding, confident: bool, status: string)
  {
    exists i: nat, g: Finding ::
      BringsNew(redact, r, ms, i, g) && Confident(g) == confident && f == g.(status := status)
  }

  lemma NewsAre(redact: Redactor, r: Lists, ms: seq<Finding>, f: Finding, confident: bool, status: string)
    ensures StandsFor(redact, r, ms, f, confident, status)
       <==> exists g :: g in News(redact, r, ms) && High(g) == confident && f == g.(status := status)
  {
    var ns := NormalizeAll(redact, ms);
    if StandsFor(redact, r, ms, f, confident, status) {
      var i: nat, g :| BringsNew(redact, r, ms, i, g) && Confident(g) == confident && f == g.(status := status);
      BringsNewIs(redact, r, ms, i, g);
      NewsMembers(ListKeys(r), ns, ns[i]);
      NormalizedAt(redact, ms, i);
      SameButStatus(g, ns[i], status);
    }
    if g :| g in News(redact, r, ms) && High(g) == confident && f == g.(status := status) {
      NewsMembers(ListKeys(r), ns, g);
      var i :| NewAt(ListKeys(r), ns, i) && ns[i] == g;
      NormalizedAt(redact, ms, i);
      BringsNewIs(redact, r, ms, i, g);
      ConfidentIs(g);
    }
  }

  lemma SameButStatus(g: Finding, h: Finding, status: string)
    requires g.(status := "") == h.(status := "")
    ensures Confident(g) == High(h) && g.(status := status) == h.(status := status)
  {
    ConfidentIs(g);
    assert g.confidence == g.(status := "").confidence == h.confidence;
    assert g.(status := status) == g.(status := "").(status := status);
    assert h.(status := status) == h.(status := "").(status := status);
  }

  /** What a merge adds, exactly: the model's findings whose key is new and that are first of their key, completed.
      Those of high confidence, in any case and with white space around it, are findings with status "finding"; the
      others are warnings that ask for a human. */
  lemma MergeAddsExactly(redact: Redactor, r: Lists, ms: seq<Finding>, f: Finding)
    requires Key(f) !in Keys(r.findings) && Key(f) !in Keys(r.warnings)
    ensures f in Merge(redact, r, ms).findings <==> StandsFor(redact, r, ms, f, true, "finding")
    ensures f in Merge(redact, r, ms).warnings <==> StandsFor(redact, r, ms, f, false, "needs_human_review")
  {
    NewMembers(redact, r, ms, f);
    PlacedMembers(News(redact, r, ms), f);
    NewsAre(redact, r, ms, f, true, "finding");
    NewsAre(redact, r, ms, f, false, "needs_human_review");
  }
}
