/** How the Skill's two scripts cut a text into lines. The Go script does it twice, in two ways, and expects the
    indices to agree; the Python script, which runs first where it can, knows more line ends. */
module Readers {
  import opened Text

  // ----- strings.Split(strings.ReplaceAll(data, "\r\n", "\n"), "\n") -----

  predicate EndsInCR(s: string) {
    s != "" && s[|s| - 1] == '\r'
  }

  /** What a split leaves behind the last newline. */
  function Rest(s: string): seq<string> {
    if s == "" || s[|s| - 1] == '\n' then [""] else []
  }

  lemma {:induction false} ReplaceLine(line: string, tail: string)
    requires OneLine(line)
    ensures ReplaceCRLF(line + "\n" + tail) == StripCR(line) + "\n" + ReplaceCRLF(tail)
  {
    var s := line + "\n" + tail;
    if line == "" {
      assert s[1..] == tail;
    } else if line == "\r" {
      assert s[2..] == tail;
    } else {
      ReplaceLine(line[1..], tail);
      LineTail(line, tail);
      ReplaceOther(s);
      StripTail(line);
      LineTail([line[0]] + StripCR(line[1..]), ReplaceCRLF(tail));
    }
  }

  lemma LineTail(line: string, tail: string)
    requires line != ""
    ensures var s := line + "\n" + tail;
            s[0] == line[0] && s[1..] == line[1..] + "\n" + tail && (|line| > 1 ==> s[1] == line[1])
  {}

  lemma ReplaceOther(s: string)
    requires s != "" && (s[0] == '\r' && |s| > 1 ==> s[1] != '\n')
    ensures ReplaceCRLF(s) == [s[0]] + ReplaceCRLF(s[1..])
  {
    assert "\r\n"[0] == '\r' && "\r\n"[1] == '\n';
  }

  lemma StripTail(line: string)
    requires line != "" && line != "\r"
    ensures StripCR(line) == [line[0]] + StripCR(line[1..])
  {}

  lemma {:induction false} ReplaceNothing(line: string)
    requires OneLine(line)
    ensures ReplaceCRLF(line) == line
  {
    if line != "" {
      assert "\r\n"[1] == '\n';
      ReplaceNothing(line[1..]);
    }
  }

  lemma SplitStep(line: string, tail: string)
    requires OneLine(line)
    ensures Split(line + "\n" + tail) == [line] + Split(tail)
  {
    var s := line + "\n" + tail;
    assert s[..|line|] == line;
    FirstLineUnique(s, |line|);
    assert s[|line| + 1..] == tail;
  }

  lemma LastLine(data: string)
    requires data != "" && OneLine(data)
    ensures Split(ReplaceCRLF(data)) == [data] && Lines(data) + Rest(data) == [StripCR(data)]
  {
    ReplaceNothing(data);
    FirstLineUnique(data, |data|);
    assert data[..|data|] == data;
    ConcatNil([StripCR(data)]);
  }

  lemma EndsInTail(line: string, tail: string)
    requires tail != ""
    ensures EndsInCR(line + "\n" + tail) <==> EndsInCR(tail)
    ensures Rest(line + "\n" + tail) == Rest(tail)
  {}

  lemma SplitMore(line: string, tail: string)
    requires OneLine(line)
    requires Split(ReplaceCRLF(tail)) == Lines(tail) + Rest(tail) <==> !EndsInCR(tail)
    ensures var data := line + "\n" + tail;
            Split(ReplaceCRLF(data)) == Lines(data) + Rest(data) <==> !EndsInCR(data)
  {
    var split, lines := Split(ReplaceCRLF(tail)), Lines(tail);
    ReplaceLine(line, tail);
    SplitStep(StripCR(line), ReplaceCRLF(tail));
    LinesStep(line, tail);
    ConcatAssoc([StripCR(line)], lines, Rest(tail));
    ConsSame(StripCR(line), StripCR(line), split, lines + Rest(tail));
    EndOfTail(line, tail);
  }

  lemma EndOfTail(line: string, tail: string)
    ensures EndsInCR(line + "\n" + tail) <==> EndsInCR(tail)
    ensures Rest(line + "\n" + tail) == Rest(tail)
  {
    if tail != "" {
      EndsInTail(line, tail);
    }
  }

  /** The two ways to cut agree at every index exactly when the text does not end in a carriage return, which the
      split keeps; the split has an empty piece more when the text is empty or ends in a newline. */
  lemma {:induction false} SplitIsLines(data: string)
    ensures Split(ReplaceCRLF(data)) == Lines(data) + Rest(data) <==> !EndsInCR(data)
    decreases |data|
  {
    var n := FirstLine(data);
    if n < |data| {
      var line, tail := data[..n], data[n + 1..];
      assert data == line + "\n" + tail;
      SplitIsLines(tail);
      SplitMore(line, tail);
    } else {
      assert data[..n] == data;
      SplitOne(data);
    }
  }

  lemma SplitOne(data: string)
    requires OneLine(data)
    ensures Split(ReplaceCRLF(data)) == Lines(data) + Rest(data) <==> !EndsInCR(data)
  {
    if data != "" {
      LastLine(data);
    }
  }

  // ----- open(path).read().splitlines() -----

  /** Universal newlines: "\r\n" and "\r" are read as "\n". */
  function Universal(s: string): string {
    if s == "" then ""
    else if "\r\n" <= s then "\n" + Universal(s[2..])
    else if s[0] == '\r' then "\n" + Universal(s[1..])
    else [s[0]] + Universal(s[1..])
  }

  /** Where str.splitlines() ends a line. */
  predicate EndsLine(c: char) {
    0x0A <= c as int <= 0x0D || 0x1C <= c as int <= 0x1E || c as int in {0x85, 0x2028, 0x2029}
  }

  predicate Whole(line: string) {
    forall i :: 0 <= i < |line| ==> !EndsLine(line[i])
  }

  function FirstWhole(s: string): (n: nat)
    ensures n <= |s| && Whole(s[..n])
    ensures n < |s| ==> EndsLine(s[n])
  {
    if s == "" || EndsLine(s[0]) then 0 else 1 + FirstWhole(s[1..])
  }

  function SplitLines(s: string): (r: seq<string>)
    ensures forall i :: 0 <= i < |r| ==> Whole(r[i])
  {
    if s == "" then []
    else
      var n := FirstWhole(s);
      assert n == |s| ==> s[..n] == s;
      if n < |s| then [s[..n]] + SplitLines(s[n + 1..]) else [s]
  }

  function PythonLines(data: string): (r: seq<string>)
    ensures forall i :: 0 <= i < |r| ==> Whole(r[i])
  {
    SplitLines(Universal(data))
  }

  /** A character ends a line for Python only if it does so for Go, alone or as the carriage return before it. */
  predicate PlainEnd(data: string, i: nat)
    requires i < |data|
  {
    EndsLine(data[i]) ==> data[i] == '\n' || (data[i] == '\r' && (i + 1 == |data| || data[i + 1] == '\n'))
  }

  predicate PlainEnds(data: string) {
    forall i :: 0 <= i < |data| ==> PlainEnd(data, i)
  }

  /** Nothing in the line ends it, a carriage return at its end aside. */
  predicate WholeButCR(line: string) {
    forall i :: 0 <= i < |line| ==> EndsLine(line[i]) ==> i == |line| - 1 && line[i] == '\r'
  }

  lemma WholeStripped(line: string)
    ensures Whole(StripCR(line)) <==> WholeButCR(line)
  {
    var t := StripCR(line);
    assert t <= line && |t| >= |line| - 1;
    assert forall i :: 0 <= i < |t| ==> t[i] == line[i];
  }

  lemma PlainEndsStep(line: string, tail: string)
    requires OneLine(line)
    ensures PlainEnds(line + "\n" + tail) <==> Whole(StripCR(line)) && PlainEnds(tail)
  {
    var s := line + "\n" + tail;
    WholeStripped(line);
    forall i | 0 <= i < |line|
      ensures PlainEnd(s, i) <==> EndsLine(line[i]) ==> i == |line| - 1 && line[i] == '\r'
    {
      assert s[i] == line[i] && s[i + 1] == if i + 1 < |line| then line[i + 1] else '\n';
    }
    assert PlainEnd(s, |line|);
    forall i | |line| + 1 <= i < |s|
      ensures PlainEnd(s, i) <==> PlainEnd(tail, i - |line| - 1)
    {
      assert s[i] == tail[i - |line| - 1];
      assert i + 1 < |s| ==> s[i + 1] == tail[i - |line|];
    }
    if PlainEnds(s) {
      forall i | 0 <= i < |tail|
        ensures PlainEnd(tail, i)
      {
        assert PlainEnd(s, |line| + 1 + i);
      }
    }
  }

  lemma PlainEndsLast(line: string)
    requires OneLine(line)
    ensures PlainEnds(line) <==> Whole(StripCR(line))
  {
    WholeStripped(line);
    forall i | 0 <= i < |line|
      ensures PlainEnd(line, i) <==> EndsLine(line[i]) ==> i == |line| - 1 && line[i] == '\r'
    {}
  }

  lemma WholeTail(line: string)
    requires line != "" && line != "\r" && Whole(StripCR(line))
    ensures Whole(StripCR(line[1..])) && !EndsLine(line[0])
  {
    WholeStripped(line);
    WholeStripped(line[1..]);
    assert forall i :: 0 <= i < |line| - 1 ==> line[1..][i] == line[i + 1];
  }

  lemma {:induction false} UniversalLine(line: string, tail: string)
    requires OneLine(line) && Whole(StripCR(line))
    ensures Universal(line + "\n" + tail) == StripCR(line) + "\n" + Universal(tail)
  {
    var s := line + "\n" + tail;
    if line == "" {
      assert s[1..] == tail;
    } else if line == "\r" {
      assert s[2..] == tail;
    } else {
      StripTail(line);
      WholeTail(line);
      UniversalLine(line[1..], tail);
      LineTail(line, tail);
      UniversalOther(s);
      LineTail([line[0]] + StripCR(line[1..]), Universal(tail));
    }
  }

  lemma UniversalOther(s: string)
    requires s != "" && s[0] != '\r'
    ensures Universal(s) == [s[0]] + Universal(s[1..])
  {}

  lemma {:induction false} UniversalWhole(line: string)
    requires Whole(line)
    ensures Universal(line) == line && Universal(line + "\r") == line + "\n"
  {
    if line == "" {
      assert Universal("\r"[1..]) == "";
    } else {
      var s := line + "\r";
      assert s[1..] == line[1..] + "\r" && s[0] == line[0];
      UniversalWhole(line[1..]);
    }
  }

  lemma {:induction false} FirstWholeIs(line: string, rest: string)
    requires Whole(line) && (rest != "" ==> EndsLine(rest[0]))
    ensures FirstWhole(line + rest) == |line|
  {
    if line == "" {
      assert line + rest == rest;
    } else {
      assert (line + rest)[1..] == line[1..] + rest;
      FirstWholeIs(line[1..], rest);
    }
  }

  lemma SplitLinesStep(line: string, tail: string)
    requires Whole(line)
    ensures SplitLines(line + "\n" + tail) == [line] + SplitLines(tail)
  {
    var s := line + "\n" + tail;
    assert s == line + ("\n" + tail);
    FirstWholeIs(line, "\n" + tail);
    assert s[..|line|] == line && s[|line| + 1..] == tail;
  }

  lemma PythonLast(line: string)
    requires line != "" && OneLine(line) && Whole(StripCR(line))
    ensures PythonLines(line) == [StripCR(line)]
  {
    var t := StripCR(line);
    if t == line {
      PythonWhole(line);
    } else {
      assert line == t + "\r";
      PythonWithCR(t);
    }
  }

  lemma PythonWhole(line: string)
    requires line != "" && Whole(line)
    ensures PythonLines(line) == [line]
  {
    UniversalWhole(line);
    FirstWholeIs(line, "");
    ConcatNil(line);
  }

  lemma PythonWithCR(line: string)
    requires Whole(line)
    ensures PythonLines(line + "\r") == [line]
  {
    UniversalWhole(line);
    SplitLinesStep(line, "");
    ConcatNil(line + "\n");
    ConcatNil([line]);
  }

  lemma {:induction false} PlainLines(data: string)
    ensures PlainEnds(data) ==> PythonLines(data) == Lines(data)
    ensures (forall i :: 0 <= i < |Lines(data)| ==> Whole(Lines(data)[i])) ==> PlainEnds(data)
    decreases |data|
  {
    var n := FirstLine(data);
    if n < |data| {
      var line, tail := data[..n], data[n + 1..];
      assert data == line + "\n" + tail;
      LinesStep(line, tail);
      PlainEndsStep(line, tail);
      PlainLines(tail);
      assert Lines(data)[0] == StripCR(line);
      assert forall i :: 0 <= i < |Lines(tail)| ==> Lines(tail)[i] == Lines(data)[i + 1];
      if Whole(StripCR(line)) {
        UniversalLine(line, tail);
        SplitLinesStep(StripCR(line), Universal(tail));
      }
    } else if data != "" {
      assert data[..n] == data;
      PlainEndsLast(data);
      assert Lines(data)[0] == StripCR(data);
      if Whole(StripCR(data)) {
        PythonLast(data);
      }
    }
  }

  /** The Python script reads the lines the Go script reads exactly when every character that ends a line for
      Python is a newline or a carriage return in front of one. */
  lemma PythonReadsExactly(data: string)
    ensures PythonLines(data) == Lines(data) <==> PlainEnds(data)
  {
    PlainLines(data);
  }
}
