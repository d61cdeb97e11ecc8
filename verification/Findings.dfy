/** Findings, their dedupe key, and the deduplication every list of findings goes through. */
module Findings {
  import opened Text

  datatype Finding = Finding(severity: string, category: string, file: string, line: int, title: string,
                             evidence: string, recommendation: string, confidence: string, source: string,
                             ruleId: string, status: string)

  // ----- the dedupe key -----

  function Normal(s: string): string {
    Lower(TrimSpace(s))
  }

  /** The text whose SHA-1 digest the program uses as key; digests are taken to be free of collisions. */
  function Key(f: Finding): string {
    Normal(f.file) + "|" + (Itoa(f.line) + "|" + (Normal(f.category) + "|" + Normal(f.ruleId)))
  }

  predicate Bar(s: string) {
    exists i :: 0 <= i < |s| && s[i] == '|'
  }

  /** The part before the first bar determines the split. */
  lemma {:induction false} SplitUnique(a: string, b: string, c: string, d: string)
    requires !Bar(a) && !Bar(c) && a + "|" + b == c + "|" + d
    ensures a == c && b == d
  {
    var x := a + "|" + b;
    assert x[0] == if a == "" then '|' else a[0];
    assert x[0] == if c == "" then '|' else c[0];
    if a != "" && c != "" {
      assert x[1..] == a[1..] + "|" + b && x[1..] == c[1..] + "|" + d;
      assert !Bar(a[1..]) && !Bar(c[1..]);
      SplitUnique(a[1..], b, c[1..], d);
      assert a == [x[0]] + a[1..] && c == [x[0]] + c[1..];
    } else if a == "" && c == "" {
      assert x[1..] == b && x[1..] == d;
    }
  }

  lemma NormalBar(s: string)
    ensures Bar(Normal(s)) ==> Bar(s)
  {
    var t := TrimSpace(s);
    TrimSpaceIs(s);
    var k :| 0 <= k <= |s| && t <= s[k..];
    if i :| 0 <= i < |Lower(t)| && Lower(t)[i] == '|' {
      assert s[k + i] == s[k..][i] == t[i];
    }
  }

  lemma ItoaNoBar(n: int)
    ensures !Bar(Itoa(n))
  {
    if n < 0 {
      assert forall i :: 1 <= i < |Itoa(n)| ==> Itoa(n)[i] == Decimal(-n)[i - 1];
    }
  }

  /** For files and categories without a bar, two findings have the same key exactly when their normalised
      file, line, category and rule are the same. */
  lemma KeyIsInjective(f: Finding, g: Finding)
    requires !Bar(f.file) && !Bar(f.category) && !Bar(g.file) && !Bar(g.category)
    ensures Key(f) == Key(g) <==> Normal(f.file) == Normal(g.file) && f.line == g.line
                                  && Normal(f.category) == Normal(g.category) && Normal(f.ruleId) == Normal(g.ruleId)
  {
    if Key(f) == Key(g) {
      NormalBar(f.file);
      NormalBar(g.file);
      NormalBar(f.category);
      NormalBar(g.category);
      ItoaNoBar(f.line);
      ItoaNoBar(g.line);
      var restF := Itoa(f.line) + "|" + (Normal(f.category) + "|" + Normal(f.ruleId));
      var restG := Itoa(g.line) + "|" + (Normal(g.category) + "|" + Normal(g.ruleId));
      SplitUnique(Normal(f.file), restF, Normal(g.file), restG);
      SplitUnique(Itoa(f.line), Normal(f.category) + "|" + Normal(f.ruleId),
                  Itoa(g.line), Normal(g.category) + "|" + Normal(g.ruleId));
      SplitUnique(Normal(f.category), Normal(f.ruleId), Normal(g.category), Normal(g.ruleId));
      ItoaInjective(f.line, g.line);
    }
  }

  lemma LowerConcat(a: string, b: string)
    ensures Lower(a + b) == Lower(a) + Lower(b)
  {}

  lemma NormalJoin(a: string, b: string)
    requires Trimmed(a) && Trimmed(b)
    ensures Trimmed(a + "|" + b) && Normal(a + "|" + b) == Normal(a) + "|" + Normal(b)
  {
    var s := a + "|" + b;
    assert s[0] == (if a == "" then '|' else a[0]) && s[|s| - 1] == if b == "" then '|' else b[|b| - 1];
    TrimSpaceOfTrimmed(s);
    TrimSpaceOfTrimmed(a);
    TrimSpaceOfTrimmed(b);
    LowerConcat(a + "|", b);
    LowerConcat(a, "|");
  }

  lemma ItoaPlain(n: int)
    ensures Trimmed(Itoa(n)) && Normal(Itoa(n)) == Itoa(n)
  {
    assert forall i :: 0 <= i < |Itoa(n)| ==> IsDigit(Itoa(n)[i]) || Itoa(n)[i] == '-';
    NormalOfPlain(Itoa(n));
  }

  lemma JoinFour(a: string, b: string, c: string, d: string, e: string)
    ensures a + "|" + (b + "|" + ((c + "|" + d) + "|" + e)) == a + "|" + (b + "|" + (c + "|" + (d + "|" + e)))
    ensures (a + "|" + b) + "|" + (c + "|" + (d + "|" + e)) == a + "|" + (b + "|" + ((c + "|" + d) + "|" + e))
  {}

  /** What follows a bar in the category may as well begin the rule. */
  lemma BarInCategory(f: Finding, c: string, d: string)
    requires Trimmed(c) && Trimmed(d) && Trimmed(f.ruleId)
    ensures Key(f.(category := c + "|" + d)) == Key(f.(category := c, ruleId := d + "|" + f.ruleId))
  {
    NormalJoin(c, d);
    NormalJoin(d, f.ruleId);
    JoinFour(Normal(f.file), Itoa(f.line), Normal(c), Normal(d), Normal(f.ruleId));
  }

  /** A number after a bar in the file name may as well be the line, and the line the start of the category: two
      places share a key. */
  lemma BarInFile(f: Finding, file: string, n: int)
    requires Trimmed(file) && Trimmed(f.category)
    ensures Key(f.(file := file + "|" + Itoa(n)))
         == Key(f.(file := file, line := n, category := Itoa(f.line) + "|" + f.category))
  {
    ItoaPlain(n);
    ItoaPlain(f.line);
    NormalJoin(file, Itoa(n));
    NormalJoin(Itoa(f.line), f.category);
    JoinFour(Normal(file), Itoa(n), Itoa(f.line), Normal(f.category), Normal(f.ruleId));
  }

  /** The pieces of a text between its bars. */
  function Cut(s: string): (r: seq<string>)
    ensures r != []
  {
    if s == "" then [""]
    else InFront(s[0], Cut(s[1..]))
  }

  /** The pieces with a character in front; a bar begins a new piece. */
  function InFront(c: char, pieces: seq<string>): (r: seq<string>)
    requires pieces != []
    ensures r != []
  {
    if c == '|' then [""] + pieces else [[c] + pieces[0]] + pieces[1..]
  }

  function Glue(pieces: seq<string>): string
    requires pieces != []
  {
    if |pieces| == 1 then pieces[0] else pieces[0] + "|" + Glue(pieces[1..])
  }

  lemma GlueFirst(c: char, pieces: seq<string>)
    requires pieces != []
    ensures Glue([[c] + pieces[0]] + pieces[1..]) == [c] + Glue(pieces)
  {
    var all := [[c] + pieces[0]] + pieces[1..];
    assert all[1..] == pieces[1..];
    if |pieces| > 1 {
      ConcatAssoc([c], pieces[0], "|" + Glue(pieces[1..]));
      ConcatAssoc(pieces[0], "|", Glue(pieces[1..]));
      ConcatAssoc([c] + pieces[0], "|", Glue(pieces[1..]));
    }
  }

  lemma {:induction false} GlueOfCut(s: string)
    ensures Glue(Cut(s)) == s
  {
    if s != "" {
      var rest := Cut(s[1..]);
      GlueOfCut(s[1..]);
      if s[0] == '|' {
        assert ([""] + rest)[1..] == rest;
      } else {
        GlueFirst(s[0], rest);
      }
    }
  }

  lemma InFrontConcat(c: char, x: seq<string>, y: seq<string>)
    requires x != []
    ensures InFront(c, x + y) == InFront(c, x) + y
  {
    assert (x + y)[1..] == x[1..] + y;
  }

  lemma {:induction false} CutAtBar(a: string, b: string)
    ensures Cut(a + "|" + b) == Cut(a) + Cut(b)
  {
    var s := a + "|" + b;
    if a == "" {
      assert s[1..] == b;
    } else {
      BarTail(a, b);
      CutAtBar(a[1..], b);
      InFrontConcat(a[0], Cut(a[1..]), Cut(b));
    }
  }

  lemma BarTail(a: string, b: string)
    requires a != ""
    ensures var s := a + "|" + b;
            s != "" && s[0] == a[0] && s[1..] == a[1..] + "|" + b
  {}

  lemma {:induction false} CutWhole(s: string)
    requires !Bar(s)
    ensures Cut(s) == [s]
  {
    if s != "" {
      assert forall i :: 0 <= i < |s| - 1 ==> s[1..][i] == s[i + 1];
      CutWhole(s[1..]);
      assert s == [s[0]] + s[1..];
    }
  }

  /** The pieces of file, line, category and rule, one after the other. */
  function Parts(f: Finding): seq<string> {
    Cut(Normal(f.file)) + ([Itoa(f.line)] + (Cut(Normal(f.category)) + Cut(Normal(f.ruleId))))
  }

  /** For all findings, bars or not: the keys are the same exactly when the fields, cut at their bars, give the same
      pieces in the same order, wherever one field ends and the next begins. */
  lemma SameKeyExactly(f: Finding, g: Finding)
    ensures Key(f) == Key(g) <==> Parts(f) == Parts(g)
  {
    KeyCut(f);
    KeyCut(g);
    GlueOfCut(Key(f));
    GlueOfCut(Key(g));
  }

  lemma KeyCut(f: Finding)
    ensures Cut(Key(f)) == Parts(f)
  {
    var rest := Normal(f.category) + "|" + Normal(f.ruleId);
    CutAtBar(Normal(f.category), Normal(f.ruleId));
    CutAtBar(Itoa(f.line), rest);
    CutAtBar(Normal(f.file), Itoa(f.line) + "|" + rest);
    ItoaNoBar(f.line);
    CutWhole(Itoa(f.line));
  }

  lemma NormalOfPlain(s: string)
    requires forall i :: 0 <= i < |s| ==> !IsSpace(s[i]) && !('A' <= s[i] <= 'Z')
    ensures Normal(s) == s
  {
    TrimSpaceOfTrimmed(s);
  }

  // ----- the order -----

  /** Go's < on strings. */
  predicate LessString(a: string, b: string) {
    if b == "" then false
    else if a == "" then true
    else if a[0] != b[0] then a[0] < b[0]
    else LessString(a[1..], b[1..])
  }

  /** The less function of the sort: file, then line, then rule. */
  predicate Less(f: Finding, g: Finding) {
    if f.file != g.file then LessString(f.file, g.file)
    else if f.line != g.line then f.line < g.line
    else LessString(f.ruleId, g.ruleId)
  }

  lemma {:induction false} LessStringOrder(a: string, b: string, c: string)
    ensures !LessString(a, a)
    ensures LessString(a, b) || LessString(b, a) || a == b
    ensures LessString(a, b) && LessString(b, c) ==> LessString(a, c)
    decreases |a| + |b| + |c|
  {
    if a != "" {
      LessStringOrder(a[1..], if b == "" then "" else b[1..], if c == "" then "" else c[1..]);
    }
    if a != "" && b != "" {
      assert a == [a[0]] + a[1..] && b == [b[0]] + b[1..];
    }
  }

  /** What the order looks at. */
  function Rank(f: Finding): (string, int, string) {
    (f.file, f.line, f.ruleId)
  }

  lemma LessOrder(f: Finding, g: Finding, h: Finding)
    ensures !Less(f, f)
    ensures Less(f, g) || Less(g, f) || Rank(f) == Rank(g)
    ensures Less(f, g) && Less(g, h) ==> Less(f, h)
    ensures !(Less(f, g) && Less(g, f))
  {
    LessStringOrder(f.file, g.file, h.file);
    LessStringOrder(f.ruleId, g.ruleId, h.ruleId);
    LessStringOrder(f.file, g.file, f.file);
    LessStringOrder(f.ruleId, g.ruleId, f.ruleId);
  }

  // ----- stable sorting -----

  /** An element moves in front of the larger ones at the end. */
  function InsertStable(s: seq<Finding>, f: Finding): (r: seq<Finding>)
    ensures |r| == |s| + 1
  {
    if s == [] || !Less(f, s[|s| - 1]) then s + [f]
    else InsertStable(s[..|s| - 1], f) + [s[|s| - 1]]
  }

  function InsertAll(s: seq<Finding>, fs: seq<Finding>): (r: seq<Finding>)
    ensures |r| == |s| + |fs|
    decreases fs
  {
    if fs == [] then s else InsertStable(InsertAll(s, fs[..|fs| - 1]), fs[|fs| - 1])
  }

  /** sort.SliceStable with the order above. */
  function Sort(fs: seq<Finding>): seq<Finding> {
    InsertAll([], fs)
  }

  predicate Sorted(s: seq<Finding>) {
    forall i, j :: 0 <= i < j < |s| ==> !Less(s[j], s[i])
  }

  /** The elements of one rank, in their order. */
  function OfRank(s: seq<Finding>, r: (string, int, string)): seq<Finding> {
    if s == [] then []
    else OfRank(s[..|s| - 1], r) + if Rank(s[|s| - 1]) == r then [s[|s| - 1]] else []
  }

  lemma OfRankLast(s: seq<Finding>, f: Finding, r: (string, int, string))
    ensures OfRank(s + [f], r) == OfRank(s, r) + if Rank(f) == r then [f] else []
  {
    assert (s + [f])[..|s|] == s;
  }

  lemma {:induction false} InsertSorted(s: seq<Finding>, f: Finding)
    requires Sorted(s)
    ensures Sorted(InsertStable(s, f))
    ensures forall x :: x in InsertStable(s, f) <==> x in s || x == f
  {
    if s == [] {
    } else if !Less(f, s[|s| - 1]) {
      forall i | 0 <= i < |s|
        ensures !Less(f, s[i])
      {
        if Less(f, s[i]) {
          LessOrder(f, s[i], s[|s| - 1]);
          LessOrder(f, s[|s| - 1], s[i]);
          LessOrder(s[i], s[|s| - 1], f);
          RankLess(f, s[i], s[|s| - 1]);
        }
      }
    } else {
      var t, last := s[..|s| - 1], s[|s| - 1];
      InsertSorted(t, f);
      LessOrder(f, last, f);
      assert forall x :: x in t ==> !Less(last, x);
      assert s == t + [last];
    }
  }

  /** Not being larger than an element of equal or larger rank. */
  lemma RankLess(f: Finding, g: Finding, h: Finding)
    requires Less(f, g) && !Less(h, g)
    ensures Less(f, h)
  {
    LessOrder(g, h, f);
    LessOrder(f, g, h);
  }

  lemma {:induction false} InsertOfRank(s: seq<Finding>, f: Finding, r: (string, int, string))
    requires Sorted(s)
    ensures OfRank(InsertStable(s, f), r) == OfRank(s, r) + if Rank(f) == r then [f] else []
  {
    if s == [] || !Less(f, s[|s| - 1]) {
      OfRankLast(s, f, r);
    } else {
      var t, last := s[..|s| - 1], s[|s| - 1];
      InsertOfRank(t, f, r);
      OfRankLast(InsertStable(t, f), last, r);
      LessOrder(f, last, f);
      assert Rank(f) != Rank(last) by { LessOrder(f, f, f); }
    }
  }

  /** A sequence is the stable sort of another: it is sorted, and keeps the order within every rank. */
  ghost predicate IsStableSort(s: seq<Finding>, fs: seq<Finding>) {
    Sorted(s) && forall r :: OfRank(s, r) == OfRank(fs, r)
  }

  lemma {:induction false} InsertAllStable(s: seq<Finding>, fs: seq<Finding>)
    requires Sorted(s)
    ensures IsStableSort(InsertAll(s, fs), s + fs)
    decreases fs
  {
    if fs == [] {
      ConcatNil(s);
    } else {
      var init, last := fs[..|fs| - 1], fs[|fs| - 1];
      InsertAllStable(s, init);
      var t := InsertAll(s, init);
      InsertSorted(t, last);
      assert s + fs == s + init + [last];
      forall r
        ensures OfRank(InsertStable(t, last), r) == OfRank(s + fs, r)
      {
        InsertOfRank(t, last, r);
        OfRankLast(s + init, last, r);
      }
    }
  }

  lemma SortIsStable(fs: seq<Finding>)
    ensures IsStableSort(Sort(fs), fs)
  {
    InsertAllStable([], fs);
    ConcatNil(fs);
  }

  lemma {:induction false} OfRankMembers(s: seq<Finding>, r: (string, int, string))
    ensures forall x :: x in OfRank(s, r) <==> x in s && Rank(x) == r
  {
    if s != [] {
      OfRankMembers(s[..|s| - 1], r);
      assert s == s[..|s| - 1] + [s[|s| - 1]];
    }
  }

  lemma OfRankEmpty(s: seq<Finding>, r: (string, int, string))
    requires OfRank(s, r) == []
    ensures forall x :: x in s ==> Rank(x) != r
  {
    OfRankMembers(s, r);
    assert forall x :: x in s && Rank(x) == r ==> x in OfRank(s, r);
  }

  /** Two sorted sequences with the same elements in every rank end alike. */
  lemma SameLast(s: seq<Finding>, t: seq<Finding>)
    requires Sorted(s) && Sorted(t) && s != [] && t != []
    requires forall r :: OfRank(s, r) == OfRank(t, r)
    ensures s[|s| - 1] == t[|t| - 1]
  {
    var x, y := s[|s| - 1], t[|t| - 1];
    OfRankMembers(s, Rank(y));
    OfRankMembers(t, Rank(y));
    OfRankMembers(s, Rank(x));
    OfRankMembers(t, Rank(x));
    assert y in OfRank(t, Rank(y)) && x in OfRank(s, Rank(x));
    assert y in s && x in t;
    LastIsLargest(s, y);
    LastIsLargest(t, x);
    LessOrder(x, y, x);
    assert OfRank(s, Rank(x))[|OfRank(s, Rank(x))| - 1] == x;
    assert OfRank(t, Rank(y))[|OfRank(t, Rank(y))| - 1] == y;
  }

  lemma LastIsLargest(s: seq<Finding>, x: Finding)
    requires Sorted(s) && x in s
    ensures !Less(s[|s| - 1], x)
  {
    LessOrder(x, x, x);
  }

  lemma {:induction false} SameOfRankSameSequence(s: seq<Finding>, t: seq<Finding>)
    requires Sorted(s) && Sorted(t) && forall r :: OfRank(s, r) == OfRank(t, r)
    ensures s == t
    decreases |s| + |t|
  {
    if s == [] && t != [] {
      assert OfRank(s, Rank(t[|t| - 1])) == [];
      OfRankEmpty(t, Rank(t[|t| - 1]));
    } else if t == [] && s != [] {
      assert OfRank(t, Rank(s[|s| - 1])) == [];
      OfRankEmpty(s, Rank(s[|s| - 1]));
    } else if s != [] {
      var s0, t0 := s[..|s| - 1], t[..|t| - 1];
      var x := s[|s| - 1];
      SameLast(s, t);
      forall r
        ensures OfRank(s0, r) == OfRank(t0, r)
      {
        OfRankLast(s0, x, r);
        OfRankLast(t0, x, r);
        assert s == s0 + [x] && t == t0 + [x];
        DropLast(OfRank(s0, r), OfRank(t0, r), if Rank(x) == r then [x] else []);
      }
      SameOfRankSameSequence(s0, t0);
      assert s == s0 + [x] && t == t0 + [x];
    }
  }

  lemma DropLast<T>(a: seq<T>, b: seq<T>, c: seq<T>)
    requires a + c == b + c
    ensures a == b
  {
    assert |a| == |b|;
    assert (a + c)[..|a|] == a && (b + c)[..|b|] == b;
  }

  /** There is exactly one stable sort, whatever algorithm the library uses. */
  lemma StableSortIsUnique(s: seq<Finding>, fs: seq<Finding>)
    ensures IsStableSort(s, fs) <==> s == Sort(fs)
  {
    SortIsStable(fs);
    if IsStableSort(s, fs) {
      assert forall r :: OfRank(s, r) == OfRank(Sort(fs), r);
      SameOfRankSameSequence(s, Sort(fs));
    }
  }

  lemma SortOfSorted(s: seq<Finding>)
    requires Sorted(s)
    ensures Sort(s) == s
  {
    StableSortIsUnique(s, s);
  }

  lemma {:induction false} InsertAllConcat(s: seq<Finding>, a: seq<Finding>, b: seq<Finding>)
    ensures InsertAll(s, a + b) == InsertAll(InsertAll(s, a), b)
    decreases b
  {
    if b == [] {
      ConcatNil(a);
    } else {
      var init, last := b[..|b| - 1], b[|b| - 1];
      assert (a + b)[..|a + b| - 1] == a + init;
      InsertAllConcat(s, a, init);
    }
  }

  /** Sorting a part first makes no difference. */
  lemma SortPrefix(a: seq<Finding>, b: seq<Finding>)
    ensures Sort(Sort(a) + b) == Sort(a + b)
  {
    InsertAllConcat([], a, b);
    InsertAllConcat([], Sort(a), b);
    SortIsStable(a);
    SortOfSorted(Sort(a));
  }

  // ----- first occurrences -----

  function Keys(fs: seq<Finding>): set<string> {
    if fs == [] then {} else Keys(fs[..|fs| - 1]) + {Key(fs[|fs| - 1])}
  }

  lemma {:induction false} KeysConcat(a: seq<Finding>, b: seq<Finding>)
    ensures Keys(a + b) == Keys(a) + Keys(b)
  {
    if b == [] {
      ConcatNil(a);
    } else {
      assert (a + b)[..|a + b| - 1] == a + b[..|b| - 1];
      KeysConcat(a, b[..|b| - 1]);
    }
  }

  /** The findings whose key is neither in `seen` nor carried by an earlier one. */
  function FirstsAfter(seen: set<string>, fs: seq<Finding>): seq<Finding> {
    if fs == [] then []
    else
      var init, last := fs[..|fs| - 1], fs[|fs| - 1];
      FirstsAfter(seen, init) + if Key(last) in seen + Keys(init) then [] else [last]
  }

  function Firsts(fs: seq<Finding>): seq<Finding> {
    FirstsAfter({}, fs)
  }

  /** The meaning of the deduplication. */
  function Dedupe(fs: seq<Finding>): seq<Finding> {
    Sort(Firsts(fs))
  }

  lemma FirstsNext(fs: seq<Finding>, i: nat)
    requires i < |fs|
    ensures Keys(fs[..i + 1]) == Keys(fs[..i]) + {Key(fs[i])}
    ensures Key(fs[i]) in Keys(fs[..i]) ==> Keys(fs[..i + 1]) == Keys(fs[..i]) && Firsts(fs[..i + 1]) == Firsts(fs[..i])
    ensures Key(fs[i]) !in Keys(fs[..i]) ==> Firsts(fs[..i + 1]) == Firsts(fs[..i]) + [fs[i]]
  {
    assert fs[..i + 1][..i] == fs[..i];
    ConcatNil(Firsts(fs[..i]));
  }

  method DedupeFindings(findings: seq<Finding>) returns (r: seq<Finding>)
    ensures r == Dedupe(findings)
  {
    var seen: set<string> := {};
    var out: seq<Finding> := [];
    for i := 0 to |findings|
      invariant seen == Keys(findings[..i])
      invariant out == Firsts(findings[..i])
    {
      FirstsNext(findings, i);
      var key := Key(findings[i]);
      if key in seen {
        continue;
      }
      seen := seen + {key};
      out := out + [findings[i]];
    }
    assert findings[..|findings|] == findings;
    r := Sort(out);
  }

  // ----- laws of the deduplication -----

  /** As many keys as findings: no two share one. */
  predicate Distinct(fs: seq<Finding>) {
    |Keys(fs)| == |fs|
  }

  lemma {:induction false} KeysBound(fs: seq<Finding>)
    ensures |Keys(fs)| <= |fs|
  {
    if fs != [] {
      KeysBound(fs[..|fs| - 1]);
    }
  }

  lemma DistinctLast(fs: seq<Finding>)
    requires fs != []
    ensures Distinct(fs) <==> Distinct(fs[..|fs| - 1]) && Key(fs[|fs| - 1]) !in Keys(fs[..|fs| - 1])
  {
    KeysBound(fs[..|fs| - 1]);
  }

  lemma {:induction false} KeyOfMember(fs: seq<Finding>, i: nat)
    requires i < |fs|
    ensures Key(fs[i]) in Keys(fs)
  {
    if i < |fs| - 1 {
      KeyOfMember(fs[..|fs| - 1], i);
    }
  }

  lemma {:induction false} DistinctPairs(fs: seq<Finding>, i: nat, j: nat)
    requires Distinct(fs) && i < j < |fs|
    ensures Key(fs[i]) != Key(fs[j])
  {
    var init := fs[..|fs| - 1];
    DistinctLast(fs);
    if j == |fs| - 1 {
      KeyOfMember(init, i);
    } else {
      DistinctPairs(init, i, j);
    }
  }

  lemma SnocKeys(fs: seq<Finding>, f: Finding)
    ensures Keys(fs + [f]) == Keys(fs) + {Key(f)}
    ensures Distinct(fs) && Key(f) !in Keys(fs) ==> Distinct(fs + [f])
  {
    assert (fs + [f])[..|fs|] == fs;
    DistinctLast(fs + [f]);
  }

  lemma {:induction false} FirstsKeys(seen: set<string>, fs: seq<Finding>)
    ensures Keys(FirstsAfter(seen, fs)) == Keys(fs) - seen
    ensures Distinct(FirstsAfter(seen, fs))
  {
    if fs != [] {
      var init, last := fs[..|fs| - 1], fs[|fs| - 1];
      FirstsKeys(seen, init);
      var r := FirstsAfter(seen, init);
      if Key(last) in seen + Keys(init) {
        ConcatNil(r);
      } else {
        assert (r + [last])[..|r|] == r;
        DistinctLast(r + [last]);
      }
    }
  }

  lemma {:induction false} FirstsConcat(seen: set<string>, a: seq<Finding>, b: seq<Finding>)
    ensures FirstsAfter(seen, a + b) == FirstsAfter(seen, a) + FirstsAfter(seen + Keys(a), b)
  {
    if b == [] {
      ConcatNil(a);
      ConcatNil(FirstsAfter(seen, a));
    } else {
      var init, last := b[..|b| - 1], b[|b| - 1];
      assert (a + b)[..|a + b| - 1] == a + init;
      KeysConcat(a, init);
      FirstsConcat(seen, a, init);
      assert seen + (Keys(a) + Keys(init)) == seen + Keys(a) + Keys(init);
      ConcatAssoc(FirstsAfter(seen, a), FirstsAfter(seen + Keys(a), init),
                  if Key(last) in seen + Keys(a) + Keys(init) then [] else [last]);
    }
  }

  lemma {:induction false} FirstsFull(seen: set<string>, fs: seq<Finding>)
    ensures |FirstsAfter(seen, fs)| <= |fs|
    ensures |FirstsAfter(seen, fs)| == |fs| ==> FirstsAfter(seen, fs) == fs
  {
    if fs != [] {
      var init, last := fs[..|fs| - 1], fs[|fs| - 1];
      FirstsFull(seen, init);
      LastSplits(fs);
      FirstsStep(seen, init, last, FirstsAfter(seen, init));
    }
  }

  lemma FirstsStep(seen: set<string>, init: seq<Finding>, last: Finding, r: seq<Finding>)
    requires r == FirstsAfter(seen, init)
    ensures FirstsAfter(seen, init + [last]) == r + [last] || FirstsAfter(seen, init + [last]) == r
  {
    assert (init + [last])[..|init|] == init;
    ConcatNil(r);
  }

  lemma FirstsOfDistinct(fs: seq<Finding>)
    requires Distinct(fs)
    ensures Firsts(fs) == fs
  {
    FirstsKeys({}, fs);
    FirstsFull({}, fs);
  }

  lemma {:induction false} FirstsOfSeen(seen: set<string>, fs: seq<Finding>)
    requires Keys(fs) <= seen
    ensures FirstsAfter(seen, fs) == []
  {
    if fs != [] {
      FirstsOfSeen(seen, fs[..|fs| - 1]);
    }
  }

  lemma {:induction false} InsertKeys(s: seq<Finding>, f: Finding)
    ensures Keys(InsertStable(s, f)) == Keys(s) + {Key(f)}
  {
    if s == [] || !Less(f, s[|s| - 1]) {
      assert (s + [f])[..|s|] == s;
    } else {
      var r := InsertStable(s[..|s| - 1], f);
      InsertKeys(s[..|s| - 1], f);
      assert (r + [s[|s| - 1]])[..|r|] == r;
    }
  }

  lemma {:induction false} InsertAllKeys(s: seq<Finding>, fs: seq<Finding>)
    ensures Keys(InsertAll(s, fs)) == Keys(s) + Keys(fs)
    decreases fs
  {
    if fs != [] {
      InsertAllKeys(s, fs[..|fs| - 1]);
      InsertKeys(InsertAll(s, fs[..|fs| - 1]), fs[|fs| - 1]);
    }
  }

  lemma {:induction false} InsertMembers(s: seq<Finding>, f: Finding)
    ensures forall x :: x in InsertStable(s, f) <==> x in s || x == f
  {
    if s != [] && Less(f, s[|s| - 1]) {
      InsertMembers(s[..|s| - 1], f);
      assert s == s[..|s| - 1] + [s[|s| - 1]];
    }
  }

  lemma {:induction false} InsertAllMembers(s: seq<Finding>, fs: seq<Finding>)
    ensures forall x :: x in InsertAll(s, fs) <==> x in s || x in fs
    decreases fs
  {
    if fs != [] {
      InsertAllMembers(s, fs[..|fs| - 1]);
      InsertMembers(InsertAll(s, fs[..|fs| - 1]), fs[|fs| - 1]);
      assert fs == fs[..|fs| - 1] + [fs[|fs| - 1]];
    }
  }

  lemma DedupeKeys(fs: seq<Finding>)
    ensures Keys(Dedupe(fs)) == Keys(fs) && Distinct(Dedupe(fs))
  {
    FirstsKeys({}, fs);
    InsertAllKeys([], Firsts(fs));
  }

  /** f stands in fs before every other finding with its key. */
  ghost predicate IsFirst(fs: seq<Finding>, f: Finding) {
    exists i :: FirstAt(fs, f, i)
  }

  predicate FirstAt(fs: seq<Finding>, f: Finding, i: int) {
    0 <= i < |fs| && fs[i] == f && Key(f) !in Keys(fs[..i])
  }

  lemma FirstAtLonger(init: seq<Finding>, last: Finding, f: Finding, i: int)
    ensures FirstAt(init + [last], f, i) <==> FirstAt(init, f, i)
                                              || (i == |init| && last == f && Key(f) !in Keys(init))
  {
    var fs := init + [last];
    if 0 <= i <= |init| {
      assert fs[..i] == init[..i];
      assert i < |init| ==> fs[i] == init[i];
      assert init[..|init|] == init;
    }
  }

  lemma {:induction false} FirstsMembers(fs: seq<Finding>, f: Finding)
    ensures f in Firsts(fs) <==> IsFirst(fs, f)
  {
    if fs != [] {
      var init, last := fs[..|fs| - 1], fs[|fs| - 1];
      FirstsMembers(init, f);
      forall i
        ensures FirstAt(fs, f, i) <==> FirstAt(init, f, i) || (i == |fs| - 1 && last == f && Key(f) !in Keys(init))
      {
        FirstAtLonger(init, last, f, i);
        assert init + [last] == fs;
      }
      if f == last && Key(last) !in Keys(init) {
        assert FirstAt(fs, f, |fs| - 1);
      }
    }
  }

  /** What every deduplicated list is: no two findings share a key, no key is lost, every finding is the
      first of its key, and the list is sorted, stably with regard to the first occurrences. */
  lemma DedupeIs(fs: seq<Finding>)
    ensures forall i, j :: 0 <= i < j < |Dedupe(fs)| ==> Key(Dedupe(fs)[i]) != Key(Dedupe(fs)[j])
    ensures Keys(Dedupe(fs)) == Keys(fs)
    ensures forall f :: f in Dedupe(fs) <==> IsFirst(fs, f)
    ensures IsStableSort(Dedupe(fs), Firsts(fs))
  {
    var r := Dedupe(fs);
    DedupeKeys(fs);
    forall i, j | 0 <= i < j < |r|
      ensures Key(r[i]) != Key(r[j])
    {
      DistinctPairs(r, i, j);
    }
    InsertAllMembers([], Firsts(fs));
    forall f
      ensures f in r <==> IsFirst(fs, f)
    {
      FirstsMembers(fs, f);
    }
    SortIsStable(Firsts(fs));
  }

  /** A deduplicated part may stand for the part itself. */
  lemma DedupeAbsorbs(x: seq<Finding>, y: seq<Finding>)
    ensures Dedupe(Dedupe(x) + y) == Dedupe(x + y)
  {
    DedupeKeys(x);
    FirstsConcat({}, Dedupe(x), y);
    FirstsConcat({}, x, y);
    FirstsOfDistinct(Dedupe(x));
    assert {} + Keys(Dedupe(x)) == {} + Keys(x);
    SortPrefix(Firsts(x), FirstsAfter({} + Keys(x), y));
  }

  lemma DedupeIdempotent(x: seq<Finding>)
    ensures Dedupe(Dedupe(x)) == Dedupe(x)
  {
    DedupeAbsorbs(x, []);
    ConcatNil(Dedupe(x));
    ConcatNil(x);
  }

  /** Findings whose keys are all there already add nothing. */
  lemma DedupeSeen(x: seq<Finding>, y: seq<Finding>)
    requires Keys(y) <= Keys(x)
    ensures Dedupe(x + y) == Dedupe(x)
  {
    FirstsConcat({}, x, y);
    FirstsOfSeen({} + Keys(x), y);
    ConcatNil(Firsts(x));
  }

  lemma DedupeTwice(x: seq<Finding>)
    ensures Dedupe(Dedupe(x) + x) == Dedupe(x)
  {
    DedupeAbsorbs(x, x);
    DedupeSeen(x, x);
  }
}
