/** The hunk texts the Skill's checker builds before it scans, and the part of them it has seen when it
    comes to an added line. */
module HunkIndex {
  import opened Text
  import opened SkillScan
  import opened Readers

  /** strings.Join(parts, "\n") */
  function JoinLines(parts: seq<string>): string {
    if parts == [] then ""
    else if |parts| == 1 then parts[0]
    else parts[0] + "\n" + JoinLines(parts[1..])
  }

  /** Joined lines are taken apart again by splitting at newlines. */
  lemma {:induction false} JoinSplits(parts: seq<string>)
    requires parts != [] && AllOneLine(parts)
    ensures Split(JoinLines(parts)) == parts
  {
    if |parts| == 1 {
      FirstLineUnique(parts[0], |parts[0]|);
      assert parts == [parts[0]] && parts[0][..|parts[0]|] == parts[0];
    } else {
      JoinSplits(parts[1..]);
      SplitStep(parts[0], JoinLines(parts[1..]));
      assert parts == [parts[0]] + parts[1..];
    }
  }

  function Piece(t: Token): seq<string> {
    if t.AddLine? || t.ContextLine? then [t.text] else []
  }

  /** The texts of all added and context lines. */
  function Pieces(ts: seq<Token>): seq<string> {
    if ts == [] then [] else Pieces(ts[..|ts| - 1]) + Piece(ts[|ts| - 1])
  }

  /** The index behind the last hunk mark before i. */
  function RegionStart(ts: seq<Token>, i: nat): (a: nat)
    requires i <= |ts|
    ensures a <= i
  {
    if i == 0 || ts[i - 1].HunkMark? then i else RegionStart(ts, i - 1)
  }

  /** The index of the first hunk mark from i on, or the end. */
  function RegionEnd(ts: seq<Token>, i: nat): (b: nat)
    requires i <= |ts|
    ensures i <= b <= |ts|
    decreases |ts| - i
  {
    if i == |ts| || ts[i].HunkMark? then i else RegionEnd(ts, i + 1)
  }

  /** The hunk around line i: the texts of all added and context lines between the nearest marks. */
  function HunkLines(ts: seq<Token>, i: nat): seq<string>
    requires i <= |ts|
  {
    if i > 0 && !ts[i - 1].HunkMark? then HunkLines(ts, i - 1) else Pieces(ts[i..RegionEnd(ts, i)])
  }

  predicate IsAdd(ts: seq<Token>, i: int) {
    0 <= i < |ts| && ts[i].AddLine?
  }

  // ----- building the index -----

  lemma PiecesStep(ts: seq<Token>, a: nat, i: nat)
    requires a <= i < |ts|
    ensures Pieces(ts[a..i + 1]) == Pieces(ts[a..i]) + Piece(ts[i])
  {
    var s := ts[a..i + 1];
    assert s[..|s| - 1] == ts[a..i];
  }

  lemma {:induction false} RegionClosed(ts: seq<Token>, i: nat, b: nat)
    requires b <= |ts| && RegionStart(ts, b) <= i <= b && (b == |ts| || ts[b].HunkMark?)
    ensures RegionEnd(ts, i) == b
    decreases b - i
  {
    if i < b {
      StartBetween(ts, i, b);
      RegionClosed(ts, i + 1, b);
    }
  }

  /** Within a region there is no mark, and the region start is the same throughout. */
  lemma {:induction false} StartBetween(ts: seq<Token>, i: nat, b: nat)
    requires b <= |ts| && RegionStart(ts, b) <= i <= b
    ensures RegionStart(ts, i) == RegionStart(ts, b)
    ensures i < b ==> !ts[i].HunkMark?
    decreases b - i
  {
    if i < b {
      StartBetween(ts, i, b - 1);
    }
  }

  /** Every line of a region has the texts of the whole region around it. */
  lemma {:induction false} RegionLines(ts: seq<Token>, i: nat, b: nat)
    requires b <= |ts| && RegionStart(ts, b) <= i <= b && (b == |ts| || ts[b].HunkMark?)
    ensures HunkLines(ts, i) == Pieces(ts[RegionStart(ts, b)..b])
    decreases i
  {
    StartBetween(ts, i, b);
    if i > RegionStart(ts, b) {
      StartBetween(ts, i - 1, b);
      RegionLines(ts, i - 1, b);
    } else {
      RegionClosed(ts, i, b);
      StartStops(ts, b);
    }
  }

  lemma {:induction false} StartStops(ts: seq<Token>, b: nat)
    requires b <= |ts|
    ensures RegionStart(ts, b) > 0 ==> ts[RegionStart(ts, b) - 1].HunkMark?
  {
    if b > 0 && !ts[b - 1].HunkMark? {
      StartStops(ts, b - 1);
    }
  }

  /** The index of the added lines before `done`. */
  function IndexTo(ts: seq<Token>, done: nat): map<int, string>
    requires done <= |ts|
  {
    map i | 0 <= i < done && ts[i].AddLine? :: JoinLines(HunkLines(ts, i))
  }

  function AddIndexes(ts: seq<Token>, a: nat, b: nat): (r: seq<int>)
    requires a <= b <= |ts|
    ensures forall i :: i in r <==> a <= i < b && ts[i].AddLine?
  {
    if a == b then [] else AddIndexes(ts, a, b - 1) + if ts[b - 1].AddLine? then [b - 1] else []
  }

  /** The text of a hunk that is complete is stored for each of its added lines. */
  method Flush(ghost ts: seq<Token>, out: map<int, string>, ghost b: nat,
               hunkLines: seq<string>, hunkIndexes: seq<int>) returns (out': map<int, string>)
    requires b <= |ts| && (b == |ts| || ts[b].HunkMark?)
    requires Collecting(ts, out, b, hunkLines, hunkIndexes)
    ensures out' == IndexTo(ts, b)
  {
    out' := out;
    ghost var a := RegionStart(ts, b);
    var text := JoinLines(hunkLines);
    for k := 0 to |hunkIndexes|
      invariant forall i :: i in out' <==> i in out || i in hunkIndexes[..k]
      invariant forall i :: i in out && i !in hunkIndexes[..k] ==> out'[i] == out[i]
      invariant forall i :: i in hunkIndexes[..k] ==> out'[i] == text
    {
      assert hunkIndexes[..k + 1] == hunkIndexes[..k] + [hunkIndexes[k]];
      out' := out'[hunkIndexes[k] := text];
    }
    assert hunkIndexes[..|hunkIndexes|] == hunkIndexes;
    IndexGrows(ts, b, out');
  }

  lemma IndexGrows(ts: seq<Token>, b: nat, out: map<int, string>)
    requires b <= |ts| && (b == |ts| || ts[b].HunkMark?)
    requires var a := RegionStart(ts, b);
             var added := AddIndexes(ts, a, b);
             && (forall i :: i in out <==> i in IndexTo(ts, a) || i in added)
             && (forall i :: i in IndexTo(ts, a) && i !in added ==> out[i] == IndexTo(ts, a)[i])
             && forall i :: i in added ==> out[i] == JoinLines(Pieces(ts[a..b]))
    ensures out == IndexTo(ts, b)
  {
    forall i | i in AddIndexes(ts, RegionStart(ts, b), b)
      ensures HunkLines(ts, i) == Pieces(ts[RegionStart(ts, b)..b])
    {
      RegionLines(ts, i, b);
    }
  }

  /** The state of the loop: the index is complete before the open hunk, whose texts and added lines so far
      are collected. */
  predicate Collecting(ts: seq<Token>, out: map<int, string>, index: nat,
                       hunkLines: seq<string>, hunkIndexes: seq<int>)
    requires index <= |ts|
  {
    var a := RegionStart(ts, index);
    out == IndexTo(ts, a) && hunkLines == Pieces(ts[a..index]) && hunkIndexes == AddIndexes(ts, a, index)
  }

  lemma CollectStep(ts: seq<Token>, out: map<int, string>, index: nat,
                    hunkLines: seq<string>, hunkIndexes: seq<int>)
    requires index < |ts| && !ts[index].HunkMark? && Collecting(ts, out, index, hunkLines, hunkIndexes)
    ensures Collecting(ts, out, index + 1, hunkLines + Piece(ts[index]),
                       hunkIndexes + if ts[index].AddLine? then [index] else [])
  {
    PiecesStep(ts, RegionStart(ts, index), index);
  }

  lemma IndexSkips(ts: seq<Token>, i: nat)
    requires i < |ts| && !ts[i].AddLine?
    ensures IndexTo(ts, i + 1) == IndexTo(ts, i)
  {}

  lemma CollectNew(ts: seq<Token>, out: map<int, string>, index: nat)
    requires index < |ts| && ts[index].HunkMark? && out == IndexTo(ts, index)
    ensures Collecting(ts, out, index + 1, [], [])
  {
    assert ts[index + 1..index + 1] == [];
    IndexSkips(ts, index);
  }

  /** The index holds exactly the added lines, each with the text of the hunk around it. */
  method BuildHunkTexts(data: string) returns (out: map<int, string>)
    ensures out == IndexTo(Tokens(Split(ReplaceCRLF(data))), |Split(ReplaceCRLF(data))|)
  {
    var lines := Split(ReplaceCRLF(data));
    ghost var ts := Tokens(lines);
    var hunkLines: seq<string> := [];
    var hunkIndexes: seq<int> := [];
    out := map[];
    for index := 0 to |lines|
      invariant Collecting(ts, out, index, hunkLines, hunkIndexes)
    {
      TokenAt(lines, index);
      var token := TokenOf(lines[index]);
      if token.HunkMark? {
        out := Flush(ts, out, index, hunkLines, hunkIndexes);
        hunkLines := [];
        hunkIndexes := [];
        CollectNew(ts, out, index);
        continue;
      }
      CollectStep(ts, out, index, hunkLines, hunkIndexes);
      ConcatNil(hunkLines);
      ConcatNil(hunkIndexes);
      if token.AddLine? {
        hunkLines := hunkLines + [token.text];
        hunkIndexes := hunkIndexes + [index];
      } else if token.ContextLine? {
        hunkLines := hunkLines + [token.text];
      }
    }
    out := Flush(ts, out, |lines|, hunkLines, hunkIndexes);
  }

  lemma {:induction false} TokenAt(lines: seq<string>, i: nat)
    requires i < |lines|
    ensures Tokens(lines)[i] == TokenOf(lines[i])
  {
    if i > 0 {
      TokenAt(lines[1..], i - 1);
    }
  }

  // ----- the index and the scanner cut the text in two ways -----

  lemma {:induction false} EndWithIgnored(ts: seq<Token>, i: nat)
    requires i <= |ts|
    ensures var us := ts + [Ignored];
            RegionEnd(us, i) == RegionEnd(ts, i) + if RegionEnd(ts, i) == |ts| then 1 else 0
    decreases |ts| - i
  {
    if i < |ts| && !ts[i].HunkMark? {
      EndWithIgnored(ts, i + 1);
    }
  }

  lemma {:induction false} LinesWithIgnored(ts: seq<Token>, i: nat)
    requires i <= |ts|
    ensures HunkLines(ts + [Ignored], i) == HunkLines(ts, i)
  {
    var us := ts + [Ignored];
    if i > 0 && !ts[i - 1].HunkMark? {
      LinesWithIgnored(ts, i - 1);
    } else {
      var b := RegionEnd(ts, i);
      EndWithIgnored(ts, i);
      assert us[i..b] == ts[i..b];
      if b == |ts| {
        PiecesStep(us, i, b);
        ConcatNil(Pieces(ts[i..b]));
      }
    }
  }

  lemma IndexWithIgnored(ts: seq<Token>)
    ensures IndexTo(ts + [Ignored], |ts| + 1) == IndexTo(ts, |ts|)
  {
    forall i | 0 <= i < |ts|
      ensures (ts + [Ignored])[i] == ts[i] && HunkLines(ts + [Ignored], i) == HunkLines(ts, i)
    {
      LinesWithIgnored(ts, i);
    }
  }

  /** The index is that of the lines the scanner reads, and so has the right text at the scanner's indices. */
  lemma IndexOfScannedLines(data: string)
    requires !EndsInCR(data)
    ensures IndexTo(Tokens(Split(ReplaceCRLF(data))), |Split(ReplaceCRLF(data))|)
         == IndexTo(Tokens(Lines(data)), |Lines(data)|)
  {
    SplitIsLines(data);
    TokensConcat(Lines(data), Rest(data));
    if Rest(data) == [] {
      ConcatNil(Lines(data));
    } else {
      assert Tokens([""]) == [TokenOf("")] + Tokens([""][1..]);
      assert Tokens([""]) == [Ignored];
      IndexWithIgnored(Tokens(Lines(data)));
    }
  }

  // ----- the part seen so far -----

  /** The counter the hunk at region start a begins with; before any hunk it is 0. */
  function CounterAt(ts: seq<Token>, a: nat): int
    requires a <= |ts|
  {
    if a == 0 || !ts[a - 1].HunkMark? then 0 else ts[a - 1].counter
  }

  /** The counter the scanner would have at position i if it counted added lines only. */
  function Reached(ts: seq<Token>, i: nat): int
    requires i <= |ts|
  {
    if i == 0 then 0
    else if ts[i - 1].HunkMark? then ts[i - 1].counter
    else Reached(ts, i - 1) + if ts[i - 1].AddLine? then 1 else 0
  }

  /** A context line the scanner passes over: too few lines are added before it to make its counter positive. */
  predicate Skipped(ts: seq<Token>, i: nat)
    requires i < |ts|
  {
    ts[i].ContextLine? && Reached(ts, i) <= 0
  }

  /** The texts of the hunk so far, without the skipped ones. */
  function Kept(ts: seq<Token>, i: nat): seq<string>
    requires i <= |ts|
  {
    if i == 0 || ts[i - 1].HunkMark? then []
    else Kept(ts, i - 1) + if Skipped(ts, i - 1) then [] else Piece(ts[i - 1])
  }

  /** There is an added line from i on before the next hunk begins. */
  predicate AddAhead(ts: seq<Token>, i: nat)
    requires i <= |ts|
    decreases |ts| - i
  {
    i < |ts| && !ts[i].HunkMark? && (ts[i].AddLine? || AddAhead(ts, i + 1))
  }

  /** An int can count every hunk that adds lines. */
  predicate CountersInRange(ts: seq<Token>) {
    forall i :: 0 <= i < |ts| && ts[i].HunkMark? && AddAhead(ts, i + 1) ==> ts[i].counter <= MAX_INT - |ts|
  }

  /** At position i the scanner holds what it kept of the hunk. */
  predicate Holds(s: ScanState, ts: seq<Token>, i: nat) {
    && i <= |ts| && s.hunk == Kept(ts, i)
    && (if Reached(ts, i) > 0 then s.newLine > 0 else s.newLine == Reached(ts, i))
    && s.newLine + |ts| - i <= MAX_INT
  }

  lemma HoldsStep(s: ScanState, ts: seq<Token>, i: nat)
    requires i < |ts| && CountersInRange(ts) && AddAhead(ts, i + 1)
    requires AddAhead(ts, i) ==> Holds(s, ts, i)
    ensures Holds(ScanStep(s, ts[i]), ts, i + 1)
  {
    if !ts[i].HunkMark? {
      ConcatNil(Kept(ts, i));
    }
  }

  /** What an emission shows: an added line, and before it what the scanner kept of its hunk. */
  predicate SeesKept(e: Emission, ts: seq<Token>) {
    IsAdd(ts, e.index) && e.text == ts[e.index].text && e.before == Kept(ts, e.index)
  }

  lemma {:induction false} EmissionsSeeKept(s: ScanState, ts: seq<Token>, i: nat)
    requires i <= |ts| && CountersInRange(ts)
    requires AddAhead(ts, i) ==> Holds(s, ts, i)
    ensures forall k :: 0 <= k < |Scan(s, i, ts[i..])| ==> SeesKept(Scan(s, i, ts[i..])[k], ts)
    decreases |ts| - i
  {
    if i < |ts| {
      if AddAhead(ts, i + 1) {
        HoldsStep(s, ts, i);
      }
      assert ts[i..][1..] == ts[i + 1..];
      EmissionsSeeKept(ScanStep(s, ts[i]), ts, i + 1);
    }
  }

  /** An emission shows, with its own line, a contiguous piece of the hunk, preceded only by context. */
  ghost predicate SeesPiece(e: Emission, ts: seq<Token>)
    requires IsAdd(ts, e.index)
  {
    exists m: nat :: StartsAt(e, ts, m)
  }

  predicate StartsAt(e: Emission, ts: seq<Token>, m: nat)
    requires IsAdd(ts, e.index)
  {
    var a := RegionStart(ts, e.index);
    && a <= m <= e.index
    && (forall j :: a <= j < m ==> !ts[j].AddLine?)
    && (CounterAt(ts, a) > 0 ==> m == a)
    && e.before + [e.text] == Pieces(ts[m..e.index + 1])
  }

  /** Line p of the hunk was skipped although line f of it, an added one, comes before it. */
  predicate GapAt(ts: seq<Token>, i: nat, f: nat, p: nat)
    requires i <= |ts|
  {
    RegionStart(ts, i) <= f < p < i && ts[f].AddLine? && Skipped(ts, p)
  }

  ghost predicate Gap(ts: seq<Token>, i: nat)
    requires i <= |ts|
  {
    exists f: nat, p: nat :: GapAt(ts, i, f, p)
  }

  lemma {:induction false} ReachedGrows(ts: seq<Token>, p: nat, i: nat)
    requires i <= |ts| && RegionStart(ts, i) <= p <= i
    ensures Reached(ts, p) <= Reached(ts, i)
    ensures p < i && ts[p].AddLine? ==> Reached(ts, p) < Reached(ts, i)
  {
    if p < i {
      ReachedGrows(ts, p, i - 1);
    }
  }

  lemma ReachedAtStart(ts: seq<Token>, i: nat)
    requires i <= |ts|
    ensures Reached(ts, RegionStart(ts, i)) == CounterAt(ts, RegionStart(ts, i)) && Kept(ts, RegionStart(ts, i)) == []
  {
    StartStops(ts, i);
  }

  /** Leading context is skipped when the counter does not start positive. */
  lemma {:induction false} LeadingSkipped(ts: seq<Token>, f: nat)
    requires f <= |ts| && CounterAt(ts, RegionStart(ts, f)) <= 0
    requires forall j :: RegionStart(ts, f) <= j < f ==> !ts[j].AddLine?
    ensures Kept(ts, f) == [] && Reached(ts, f) == CounterAt(ts, RegionStart(ts, f))
  {
    if f > 0 && !ts[f - 1].HunkMark? {
      LeadingSkipped(ts, f - 1);
    }
  }

  lemma {:induction false} KeptWhole(ts: seq<Token>, m: nat, i: nat)
    requires i <= |ts| && RegionStart(ts, i) <= m <= i && Kept(ts, m) == []
    requires forall p :: m <= p < i ==> !Skipped(ts, p)
    ensures Kept(ts, i) == Pieces(ts[m..i])
  {
    if m < i {
      KeptWhole(ts, m, i - 1);
      PiecesStep(ts, m, i - 1);
    }
  }

  lemma {:induction false} KeptAtMost(ts: seq<Token>, m: nat, i: nat)
    requires i <= |ts| && RegionStart(ts, i) <= m <= i && Kept(ts, m) == []
    ensures |Kept(ts, i)| <= |Pieces(ts[m..i])|
    ensures (exists p :: m <= p < i && Skipped(ts, p)) ==> |Kept(ts, i)| < |Pieces(ts[m..i])|
  {
    if m < i {
      KeptAtMost(ts, m, i - 1);
      PiecesStep(ts, m, i - 1);
    }
  }

  lemma {:induction false} FirstAdd(ts: seq<Token>, a: nat, i: nat) returns (f: nat)
    requires a <= i < |ts| && ts[i].AddLine?
    ensures a <= f <= i && ts[f].AddLine? && forall j :: a <= j < f ==> !ts[j].AddLine?
    decreases i - a
  {
    if ts[a].AddLine? {
      f := a;
    } else {
      f := FirstAdd(ts, a + 1, i);
    }
  }

  lemma StaysInRegion(ts: seq<Token>, i: nat, p: nat)
    requires i <= |ts| && RegionStart(ts, i) <= p <= i
    ensures RegionStart(ts, p) == RegionStart(ts, i)
  {
    StartBetween(ts, p, i);
  }

  lemma NothingSkipped(ts: seq<Token>, i: nat)
    requires i <= |ts| && CounterAt(ts, RegionStart(ts, i)) > 0
    ensures forall p :: RegionStart(ts, i) <= p < i ==> !Skipped(ts, p)
  {
    forall p | RegionStart(ts, i) <= p < i
      ensures !Skipped(ts, p)
    {
      StaysInRegion(ts, i, p);
      ReachedAtStart(ts, i);
      ReachedGrows(ts, RegionStart(ts, i), p);
    }
  }

  lemma NoGapIsPiece(e: Emission, ts: seq<Token>) returns (m: nat)
    requires SeesKept(e, ts) && !Gap(ts, e.index)
    ensures StartsAt(e, ts, m)
  {
    var i := e.index;
    var a := RegionStart(ts, i);
    ReachedAtStart(ts, i);
    if CounterAt(ts, a) > 0 {
      m := a;
      NothingSkipped(ts, i);
    } else {
      m := FirstAdd(ts, a, i);
      StaysInRegion(ts, i, m);
      LeadingSkipped(ts, m);
      forall p | m <= p < i
        ensures !Skipped(ts, p)
      {
        assert m < p ==> !GapAt(ts, i, m, p);
      }
    }
    KeptWhole(ts, m, i);
    PiecesStep(ts, m, i);
  }

  /** With a gap every candidate for the piece is longer than what was kept. */
  lemma GapIsLonger(ts: seq<Token>, i: nat, m: nat)
    requires IsAdd(ts, i) && Gap(ts, i) && RegionStart(ts, i) <= m <= i
    requires forall j :: RegionStart(ts, i) <= j < m ==> !ts[j].AddLine?
    ensures |Kept(ts, i)| + 1 < |Pieces(ts[m..i + 1])|
  {
    GapInHunk(ts, i, m);
    PiecesStep(ts, m, i);
  }

  lemma GapNotPositive(ts: seq<Token>, i: nat, f: nat, p: nat)
    requires i <= |ts| && GapAt(ts, i, f, p)
    ensures CounterAt(ts, RegionStart(ts, i)) <= 0
  {
    StaysInRegion(ts, i, p);
    ReachedAtStart(ts, i);
    ReachedGrows(ts, RegionStart(ts, i), p);
  }

  lemma GapInHunk(ts: seq<Token>, i: nat, m: nat)
    requires i <= |ts| && Gap(ts, i) && RegionStart(ts, i) <= m <= i
    requires forall j :: RegionStart(ts, i) <= j < m ==> !ts[j].AddLine?
    ensures |Kept(ts, i)| < |Pieces(ts[m..i])|
  {
    var f: nat, p: nat :| GapAt(ts, i, f, p);
    GapNotPositive(ts, i, f, p);
    StaysInRegion(ts, i, m);
    LeadingSkipped(ts, m);
    assert m <= p;
    KeptAtMost(ts, m, i);
  }

  lemma GapIsNoPiece(e: Emission, ts: seq<Token>, m: nat)
    requires SeesKept(e, ts) && Gap(ts, e.index)
    ensures !StartsAt(e, ts, m)
  {
    var a := RegionStart(ts, e.index);
    if a <= m <= e.index && forall j :: a <= j < m ==> !ts[j].AddLine? {
      GapIsLonger(ts, e.index, m);
    }
  }

  /** At every added line, what the scanner shows with the line itself is a contiguous piece of the indexed hunk text,
      preceded only by context, exactly when no context was skipped between two added lines before it. */
  lemma StreamIsPieceExactly(lines: seq<string>)
    requires CountersInRange(Tokens(lines)) && |lines| <= MAX_INT
    ensures var es, ts := Scan(Initial, 0, Tokens(lines)), Tokens(lines);
            forall k :: 0 <= k < |es| ==> SeesKept(es[k], ts) && (SeesPiece(es[k], ts) <==> !Gap(ts, es[k].index))
  {
    var ts := Tokens(lines);
    assert ts[0..] == ts;
    EmissionsSeeKept(Initial, ts, 0);
    var es := Scan(Initial, 0, ts);
    forall k | 0 <= k < |es|
      ensures SeesPiece(es[k], ts) <==> !Gap(ts, es[k].index)
    {
      if !Gap(ts, es[k].index) {
        var m := NoGapIsPiece(es[k], ts);
      } else {
        forall m: nat
          ensures !StartsAt(es[k], ts, m)
        {
          GapIsNoPiece(es[k], ts, m);
        }
      }
    }
  }

  /** Only a hunk with start 0 can have a gap, and there it is context between its first and second added line. */
  lemma GapsAre(lines: seq<string>, i: nat, f: nat, p: nat)
    requires i <= |lines| && GapAt(Tokens(lines), i, f, p)
    ensures CounterAt(Tokens(lines), RegionStart(Tokens(lines), i)) == -1
    ensures forall j :: RegionStart(Tokens(lines), i) <= j < p && Tokens(lines)[j].AddLine? ==> j == f
  {
    var ts := Tokens(lines);
    var a := RegionStart(ts, i);
    ReachedAtStart(ts, i);
    StaysInRegion(ts, i, p);
    StaysInRegion(ts, i, f);
    ReachedGrows(ts, a, f);
    ReachedGrows(ts, f, p);
    CounterBound(lines, a);
    forall j | a <= j < p && ts[j].AddLine?
      ensures j == f
    {
      TwoAdds(ts, i, j, f, p);
    }
  }

  lemma TwoAdds(ts: seq<Token>, i: nat, j: nat, f: nat, p: nat)
    requires i <= |ts| && RegionStart(ts, i) <= j < p <= i && RegionStart(ts, i) <= f < p
    requires ts[j].AddLine? && ts[f].AddLine? && Reached(ts, p) <= CounterAt(ts, RegionStart(ts, i)) + 1
    ensures j == f
  {
    var lo, hi := if j < f then j else f, if j < f then f else j;
    ReachedAtStart(ts, i);
    StaysInRegion(ts, i, p);
    StaysInRegion(ts, i, hi);
    StaysInRegion(ts, i, lo);
    ReachedGrows(ts, RegionStart(ts, i), lo);
    ReachedGrows(ts, hi, p);
    if lo < hi {
      ReachedGrows(ts, lo, hi);
    }
  }

  lemma CounterBound(lines: seq<string>, a: nat)
    requires a <= |lines|
    ensures CounterAt(Tokens(lines), a) >= -1
  {
    if a > 0 {
      TokenAt(lines, a - 1);
      if TokenOf(lines[a - 1]).HunkMark? {
        TokenCounter(lines[a - 1]);
      }
    }
  }

  lemma {:induction false} PiecesConcat(a: seq<Token>, b: seq<Token>)
    ensures Pieces(a + b) == Pieces(a) + Pieces(b)
  {
    if b == [] {
      ConcatNil(a);
      ConcatNil(Pieces(a));
    } else {
      var c := b[..|b| - 1];
      assert (a + b)[..|a + b| - 1] == a + c;
      PiecesConcat(a, c);
      ConcatAssoc(Pieces(a), Pieces(c), Piece(b[|b| - 1]));
    }
  }

  /** Spelled out: the indexed lines are the skipped context, what was seen, and the rest of the hunk. */
  lemma IndexedLinesSplit(e: Emission, ts: seq<Token>, m: nat)
    requires IsAdd(ts, e.index) && StartsAt(e, ts, m)
    ensures RegionEnd(ts, e.index) >= e.index + 1
    ensures HunkLines(ts, e.index)
         == Pieces(ts[RegionStart(ts, e.index)..m]) + (e.before + [e.text])
            + Pieces(ts[e.index + 1..RegionEnd(ts, e.index)])
  {
    IndexedSplit(ts, e.index, m, e.before + [e.text]);
  }

  lemma IndexedSplit(ts: seq<Token>, i: nat, m: nat, seen: seq<string>)
    requires IsAdd(ts, i) && RegionStart(ts, i) <= m <= i && seen == Pieces(ts[m..i + 1])
    ensures RegionEnd(ts, i) >= i + 1
    ensures HunkLines(ts, i) == Pieces(ts[RegionStart(ts, i)..m]) + seen + Pieces(ts[i + 1..RegionEnd(ts, i)])
  {
    HunkLinesAre(ts, i);
    SplitAround(ts, RegionStart(ts, i), m, i, RegionEnd(ts, i), seen);
  }

  lemma SplitAround(ts: seq<Token>, a: nat, m: nat, i: nat, b: nat, seen: seq<string>)
    requires a <= m <= i < b <= |ts| && seen == Pieces(ts[m..i + 1])
    ensures Pieces(ts[a..b]) == Pieces(ts[a..m]) + seen + Pieces(ts[i + 1..b])
  {
    PiecesOfThree(ts, a, m, i + 1, b);
  }

  lemma HunkLinesAre(ts: seq<Token>, i: nat)
    requires i < |ts| && !ts[i].HunkMark?
    ensures i < RegionEnd(ts, i)
    ensures HunkLines(ts, i) == Pieces(ts[RegionStart(ts, i)..RegionEnd(ts, i)])
  {
    EndStops(ts, i);
    RegionLines(ts, i, RegionEnd(ts, i));
  }

  lemma {:induction false} EndStops(ts: seq<Token>, i: nat)
    requires i <= |ts|
    ensures var b := RegionEnd(ts, i);
            (b == |ts| || ts[b].HunkMark?) && RegionStart(ts, b) == RegionStart(ts, i)
    decreases |ts| - i
  {
    if i < |ts| && !ts[i].HunkMark? {
      EndStops(ts, i + 1);
    }
  }

  lemma PiecesOfThree(ts: seq<Token>, a: nat, m: nat, i: nat, b: nat)
    requires a <= m <= i <= b <= |ts|
    ensures Pieces(ts[a..b]) == Pieces(ts[a..m]) + Pieces(ts[m..i]) + Pieces(ts[i..b])
  {
    var x, y, z := ts[a..m], ts[m..i], ts[i..b];
    assert x + y + z == ts[a..b];
    PiecesConcat(x, y);
    PiecesConcat(x + y, z);
  }
}
