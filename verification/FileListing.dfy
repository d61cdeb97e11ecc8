/** The diff the agent writes itself for a list of new files, and what the parser reads back from it. */
module FileListing {
  import opened Wrappers
  import opened Text
  import opened UnifiedDiff
  import opened DiffPrinting

  function NonEmpty(lines: seq<string>): (r: seq<string>)
    ensures AllOneLine(lines) ==> AllOneLine(r)
  {
    if lines == [] then []
    else (if lines[0] == "" then [] else [lines[0]]) + NonEmpty(lines[1..])
  }

  /** The lines of a file that the listing shows. */
  function Shown(content: string): (r: seq<string>)
    ensures AllOneLine(r)
  {
    NonEmpty(Split(ReplaceCRLF(content)))
  }

  function Inserts(lines: seq<string>): (r: seq<Edit>)
    ensures |r| == |lines|
    ensures forall i :: 0 <= i < |lines| ==> r[i] == Insert(lines[i])
  {
    if lines == [] then [] else [Insert(lines[0])] + Inserts(lines[1..])
  }

  datatype NewFile = NewFile(display: string, content: string)

  function Listed(f: NewFile): PrintedFile {
    PrintedFile("a/" + f.display + " b/" + f.display, [], true, "/dev/null", "b/" + f.display,
                [PrintedHunk(0, Some(0), 1, Some(|Shown(f.content)|), "", Inserts(Shown(f.content)))])
  }

  function ListedAll(files: seq<NewFile>): (r: seq<PrintedFile>)
    ensures |r| == |files|
  {
    if files == [] then [] else [Listed(files[0])] + ListedAll(files[1..])
  }

  lemma {:induction false} ListedAt(files: seq<NewFile>, i: nat)
    requires i < |files|
    ensures ListedAll(files)[i] == Listed(files[i])
  {
    if i > 0 {
      ListedAt(files[1..], i - 1);
    }
  }

  // ----- writing -----

  /** strings.Builder */
  class Builder {
    var text: string

    constructor ()
      ensures text == ""
    {
      text := "";
    }

    method Write(s: string)
      modifies this
      ensures text == old(text) + s
    {
      text := text + s;
    }
  }

  method NonEmptyLineCount(lines: seq<string>) returns (count: nat)
    ensures count == |NonEmpty(lines)|
  {
    count := 0;
    for i := 0 to |lines|
      invariant count + |NonEmpty(lines[i..])| == |NonEmpty(lines)|
    {
      if lines[i] != "" {
        count := count + 1;
      }
    }
  }

  lemma NonEmptyStep(lines: seq<string>, i: nat)
    requires i < |lines|
    ensures NonEmpty(lines[..i + 1]) == NonEmpty(lines[..i]) + if lines[i] == "" then [] else [lines[i]]
  {
    NonEmptyConcat(lines[..i], [lines[i]]);
    assert lines[..i + 1] == lines[..i] + [lines[i]];
    assert [lines[i]][1..] == [];
  }

  lemma {:induction false} NonEmptyConcat(a: seq<string>, b: seq<string>)
    ensures NonEmpty(a + b) == NonEmpty(a) + NonEmpty(b)
  {
    if a == [] {
      assert a + b == b;
    } else {
      assert (a + b)[1..] == a[1..] + b;
      NonEmptyConcat(a[1..], b);
    }
  }

  lemma {:induction false} BodyLinesConcat(a: seq<string>, b: seq<string>)
    ensures BodyLines(Inserts(a + b)) == BodyLines(Inserts(a)) + BodyLines(Inserts(b))
  {
    if a == [] {
      assert a + b == b;
    } else {
      assert (a + b)[1..] == a[1..] + b;
      BodyLinesConcat(a[1..], b);
    }
  }

  function PlusLines(lines: seq<string>): string {
    Unlines(BodyLines(Inserts(NonEmpty(lines))))
  }

  lemma PlusLinesStep(lines: seq<string>, i: nat)
    requires i < |lines|
    ensures PlusLines(lines[..i + 1]) == PlusLines(lines[..i]) + if lines[i] == "" then "" else "+" + lines[i] + "\n"
  {
    NonEmptyStep(lines, i);
    var last := if lines[i] == "" then [] else [lines[i]];
    BodyLinesConcat(NonEmpty(lines[..i]), last);
    UnlinesConcat(BodyLines(Inserts(NonEmpty(lines[..i]))), BodyLines(Inserts(last)));
    if lines[i] != "" {
      assert last[1..] == [];
      assert BodyLines(Inserts(last)) == ["+" + lines[i]];
      assert Unlines(["+" + lines[i]]) == "+" + lines[i] + "\n";
    }
  }

  function GitText(f: NewFile): string {
    "diff --git a/" + f.display + " b/" + f.display + "\n"
  }

  function NamesText(f: NewFile): string {
    "--- /dev/null\n+++ b/" + f.display + "\n"
  }

  function RangeText(count: nat): string {
    "@@ -0,0 +1," + Decimal(count) + " @@\n"
  }

  lemma PreambleText(f: NewFile)
    ensures Unlines(Preamble(Listed(f))) == GitText(f) + NamesText(f)
  {
    var p := Listed(f);
    var git := "diff --git " + p.names;
    ConcatNil([git]);
    UnlinesThree(git, "--- " + p.oldName, "+++ " + p.newName);
    assert Preamble(p) == [git, "--- " + p.oldName, "+++ " + p.newName];
    GitTextIs(f);
    NamesTextIs(f);
  }

  lemma GitTextIs(f: NewFile)
    ensures "diff --git " + ("a/" + f.display + " b/" + f.display) + "\n" == GitText(f)
  {}

  lemma NamesTextIs(f: NewFile)
    ensures "--- " + "/dev/null" + "\n" + ("+++ " + ("b/" + f.display) + "\n") == NamesText(f)
  {}

  lemma RangeTextIs(count: nat, edits: seq<Edit>)
    ensures HeaderLine(PrintedHunk(0, Some(0), 1, Some(count), "", edits)) + "\n" == RangeText(count)
  {
    assert Decimal(0) == "0" && Decimal(1) == "1";
    assert Count(Some(0)) == ",0" && Count(Some(count)) == "," + Decimal(count);
    assert "@@ -" + ("0" + (",0" + (" +" + ("1" + ("," + Decimal(count) + (" @@" + "")))))) + "\n"
        == RangeText(count);
  }

  lemma ListedText(f: NewFile)
    ensures Unlines(FileLines(Listed(f)))
         == GitText(f) + NamesText(f) + RangeText(|Shown(f.content)|) + PlusLines(Split(ReplaceCRLF(f.content)))
  {
    var p := Listed(f);
    var h := p.hunks[0];
    assert AllHunkLines(p.hunks) == HunkLines(h) by { assert p.hunks[1..] == []; ConcatNil(HunkLines(h)); }
    UnlinesConcat(Preamble(p), HunkLines(h));
    UnlinesConcat([HeaderLine(h)], BodyLines(h.edits));
    assert Unlines([HeaderLine(h)]) == HeaderLine(h) + "\n" by { assert [HeaderLine(h)][1..] == []; }
    PreambleText(f);
    RangeTextIs(|Shown(f.content)|, h.edits);
    ConcatAssoc(GitText(f) + NamesText(f), RangeText(|Shown(f.content)|), Unlines(BodyLines(h.edits)));
  }

  lemma UnlinesThree(a: string, b: string, c: string)
    ensures Unlines([a, b, c]) == a + "\n" + b + "\n" + c + "\n"
  {
    assert [a, b, c][1..] == [b, c] && [b, c][1..] == [c] && [c][1..] == [];
    assert Unlines([c]) == c + "\n";
    assert Unlines([b, c]) == b + "\n" + (c + "\n");
  }

  method DiffForNewFile(b: Builder, f: NewFile)
    modifies b
    ensures b.text == old(b.text) + Unlines(FileLines(Listed(f)))
  {
    var lines := Split(ReplaceCRLF(f.content));
    b.Write(GitText(f));
    b.Write(NamesText(f));
    var count := NonEmptyLineCount(lines);
    b.Write(RangeText(count));
    ghost var header := GitText(f) + NamesText(f) + RangeText(count);
    Concat4(old(b.text), GitText(f), NamesText(f), RangeText(count));
    ConcatNil(header);
    for i := 0 to |lines|
      invariant b.text == old(b.text) + (header + PlusLines(lines[..i]))
    {
      PlusLinesStep(lines, i);
      if lines[i] == "" {
        ConcatNil(PlusLines(lines[..i]));
        continue;
      }
      b.Write("+" + lines[i] + "\n");
      ConcatAssoc(header, PlusLines(lines[..i]), "+" + lines[i] + "\n");
      ConcatAssoc(old(b.text), header + PlusLines(lines[..i]), "+" + lines[i] + "\n");
    }
    assert lines[..|lines|] == lines;
    ListedText(f);
  }

  lemma Concat4(a: string, b: string, c: string, d: string)
    ensures a + b + c + d == a + (b + c + d)
  {}

  lemma {:induction false} PrintConcat(a: seq<PrintedFile>, b: seq<PrintedFile>)
    ensures Print(a + b) == Print(a) + Print(b)
  {
    if a == [] {
      assert a + b == b;
    } else {
      assert (a + b)[1..] == a[1..] + b;
      PrintConcat(a[1..], b);
    }
  }

  lemma PrintStep(fs: seq<PrintedFile>, i: nat)
    requires i < |fs|
    ensures Print(fs[..i + 1]) == Print(fs[..i]) + Unlines(FileLines(fs[i]))
  {
    assert fs[..i + 1] == fs[..i] + [fs[i]];
    PrintConcat(fs[..i], [fs[i]]);
    assert [fs[i]][1..] == [];
    ConcatNil(Unlines(FileLines(fs[i])));
  }

  method DiffFromFileList(files: seq<NewFile>) returns (diff: string)
    ensures diff == Print(ListedAll(files))
  {
    var b := new Builder();
    ghost var all := ListedAll(files);
    for i := 0 to |files|
      invariant b.text == Print(all[..i])
    {
      DiffForNewFile(b, files[i]);
      ListedAt(files, i);
      PrintStep(all, i);
    }
    assert all[..|files|] == all;
    diff := b.text;
  }

  // ----- reading back -----

  /** A shown line "++ ..." is read as a file header. */
  predicate Misread(f: NewFile) {
    exists i :: 0 <= i < |Shown(f.content)| && "++ " <= Shown(f.content)[i]
  }

  lemma ListedTraps(f: NewFile)
    ensures TrapFree(Inserts(Shown(f.content))) <==> !Misread(f)
  {
    var edits := Inserts(Shown(f.content));
    assert forall i :: 0 <= i < |edits| ==> (Trap(edits[i]) <==> "++ " <= Shown(f.content)[i]);
  }

  lemma ListedNames(display: string)
    requires OneLine(display)
    ensures OneLine("a/" + display + " b/" + display) && OneLine("/dev/null") && OneLine("b/" + display)
  {}

  lemma ListedPrintable(f: NewFile)
    requires OneLine(f.display)
    ensures Printable(Listed(f)) && (FileTrapFree(Listed(f)) <==> !Misread(f))
  {
    ListedNames(f.display);
    ListedTraps(f);
    var p := Listed(f);
    assert PrintableHunk(p.hunks[0]);
    assert |p.hunks| == 1;
    assert FileTrapFree(p) <==> TrapFree(p.hunks[0].edits);
  }

  /** The diff written for any list of files is read back as exactly those files, unless a shown line is
      misread as a header. */
  lemma {:induction false} ListingReadsBackExactly(files: seq<NewFile>)
    requires forall i :: 0 <= i < |files| ==> OneLine(files[i].display)
    ensures Parse(Print(ListedAll(files))) == Parsed(ExpectedFiles(CleanFiles(ListedAll(files))))
       <==> forall i :: 0 <= i < |files| ==> !Misread(files[i])
  {
    var fs := ListedAll(files);
    forall i | 0 <= i < |files|
      ensures Printable(fs[i]) && (FileTrapFree(fs[i]) <==> !Misread(files[i]))
    {
      ListedAt(files, i);
      ListedPrintable(files[i]);
    }
    ParsingUndoesPrinting(fs);
  }

  /** A file as read back: one hunk at new line 1 whose lines are the shown lines, added and numbered from 1
      to the count the header prints. */
  lemma ListedFileIs(f: NewFile)
    requires |Shown(f.content)| <= MAX_INT
    ensures var e := ExpectedFile(CleanFile(Listed(f)));
            && |e.hunks| == 1 && e.hunks[0].oldStart == 0 && e.hunks[0].newStart == 1
            && |e.hunks[0].lines| == |Shown(f.content)|
            && forall k :: 0 <= k < |Shown(f.content)| ==>
                 e.hunks[0].lines[k] == Line(0, k + 1, Added, StripCR(Shown(f.content)[k]))
  {
    InsertsNumbered(Shown(f.content), 0, 1);
  }

  lemma {:induction false} InsertsNumbered(lines: seq<string>, o: int, n: int)
    requires n + |lines| <= MAX_INT + 1
    ensures forall k :: 0 <= k < |lines| ==>
              Numbered(CleanEdits(Inserts(lines)), o, n)[k] == Line(0, n + k, Added, StripCR(lines[k]))
  {
    if lines != [] {
      if n < MAX_INT {
        InsertsNumbered(lines[1..], o, n + 1);
      }
      assert Inserts(lines)[1..] == Inserts(lines[1..]);
      assert CleanEdits(Inserts(lines))[1..] == CleanEdits(Inserts(lines[1..]));
    }
  }

  lemma NameKept(d: string)
    ensures TrimSpace(TrimPrefix(StripCR(d), "a/")) == d <==> Trimmed(d) && !("a/" <= d)
  {
    var p := TrimPrefix(StripCR(d), "a/");
    TrimSpaceIs(p);
    if Trimmed(d) && !("a/" <= d) {
      assert p == d;
      TrimSpaceOfTrimmed(d);
    }
  }

  lemma ReadPathOf(d: string)
    ensures ReadPath("+++ " + ("b/" + d)) == TrimSpace(TrimPrefix(d, "a/"))
  {
    assert TrimPrefix("+++ " + ("b/" + d), "+++ ") == "b/" + d;
    assert TrimPrefix("b/" + d, "b/") == d;
  }

  /** The file keeps its name exactly when the name is trimmed, is not /dev/null and does not start with
      "a/", which the parser takes off as well as "b/". */
  lemma ListedPathIs(f: NewFile)
    ensures ExpectedFile(CleanFile(Listed(f))).path == f.display
       <==> Trimmed(f.display) && !("a/" <= f.display) && f.display != "/dev/null"
  {
    StripCROfConcat("b/", f.display);
    ReadPathOf(StripCR(f.display));
    NameKept(f.display);
  }
}
