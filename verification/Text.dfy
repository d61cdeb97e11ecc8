/** Text operations of the Go standard library that the review agent relies on, over sequences of
    Unicode characters. */
module Text {
  /** Largest and smallest value of Go's int on the 64-bit platforms the agent targets. */
  const MAX_INT: int := 0x7FFF_FFFF_FFFF_FFFF
  const MIN_INT: int := -0x8000_0000_0000_0000

  /** x++ on a Go int, including wrap-around. */
  function Next(x: int): int {
    if x == MAX_INT then MIN_INT else x + 1
  }

  // ----- prefixes, suffixes, trimming -----

  predicate HasSuffix(s: string, suffix: string) {
    |suffix| <= |s| && s[|s| - |suffix|..] == suffix
  }

  function TrimPrefix(s: string, prefix: string): string {
    if prefix <= s then s[|prefix|..] else s
  }

  /** unicode.IsSpace */
  predicate IsSpace(c: char) {
    var n := c as int;
    || 0x09 <= n <= 0x0D || n == 0x20 || n == 0x85 || n == 0xA0 || n == 0x1680
    || 0x2000 <= n <= 0x200A || n == 0x2028 || n == 0x2029 || n == 0x202F || n == 0x205F || n == 0x3000
  }

  function TrimLeft(s: string): string {
    if s != "" && IsSpace(s[0]) then TrimLeft(s[1..]) else s
  }

  function TrimRight(s: string): string {
    if s != "" && IsSpace(s[|s| - 1]) then TrimRight(s[..|s| - 1]) else s
  }

  /** strings.TrimSpace */
  function TrimSpace(s: string): string {
    TrimRight(TrimLeft(s))
  }

  predicate Trimmed(s: string) {
    s == "" || (!IsSpace(s[0]) && !IsSpace(s[|s| - 1]))
  }

  lemma {:induction false} TrimLeftIs(s: string)
    ensures exists k :: 0 <= k <= |s| && TrimLeft(s) == s[k..]
    ensures TrimLeft(s) != "" ==> !IsSpace(TrimLeft(s)[0])
  {
    if s != "" && IsSpace(s[0]) {
      TrimLeftIs(s[1..]);
      var k :| 0 <= k <= |s| - 1 && TrimLeft(s[1..]) == s[1..][k..];
      assert s[1..][k..] == s[k + 1..];
    } else {
      assert s == s[0..];
    }
  }

  lemma {:induction false} TrimRightIs(s: string)
    ensures TrimRight(s) <= s
    ensures TrimRight(s) != "" ==> !IsSpace(TrimRight(s)[|TrimRight(s)| - 1])
  {
    if s != "" && IsSpace(s[|s| - 1]) {
      TrimRightIs(s[..|s| - 1]);
    }
  }

  /** Trimming keeps a piece of the text, and what it keeps is trimmed. */
  lemma TrimSpaceIs(s: string)
    ensures Trimmed(TrimSpace(s)) && |TrimSpace(s)| <= |s|
    ensures exists k :: 0 <= k <= |s| && TrimSpace(s) <= s[k..]
  {
    TrimLeftIs(s);
    TrimRightIs(TrimLeft(s));
    var k :| 0 <= k <= |s| && TrimLeft(s) == s[k..];
    assert TrimSpace(s) <= s[k..];
  }

  lemma TrimSpaceOfTrimmed(s: string)
    requires Trimmed(s)
    ensures TrimSpace(s) == s
  {}

  predicate AllSpace(s: string) {
    forall i :: 0 <= i < |s| ==> IsSpace(s[i])
  }

  lemma {:induction false} TrimLeftSplits(s: string) returns (a: string)
    ensures s == a + TrimLeft(s) && AllSpace(a)
    ensures TrimLeft(s) == "" || !IsSpace(TrimLeft(s)[0])
  {
    if s != "" && IsSpace(s[0]) {
      var b := TrimLeftSplits(s[1..]);
      a := [s[0]] + b;
    } else {
      a := "";
    }
  }

  lemma {:induction false} TrimRightSplits(s: string) returns (b: string)
    ensures s == TrimRight(s) + b && AllSpace(b)
  {
    if s != "" && IsSpace(s[|s| - 1]) {
      var c := TrimRightSplits(s[..|s| - 1]);
      b := c + [s[|s| - 1]];
    } else {
      b := "";
    }
  }

  /** Trimming takes off white space at either end and nothing else. */
  lemma TrimSplits(s: string) returns (a: string, b: string)
    ensures s == a + TrimSpace(s) + b && AllSpace(a) && AllSpace(b) && Trimmed(TrimSpace(s))
  {
    TrimSpaceIs(s);
    a := TrimLeftSplits(s);
    b := TrimRightSplits(TrimLeft(s));
    ConcatAssoc(a, TrimSpace(s), b);
  }

  lemma {:induction false} TrimLeftOff(a: string, t: string)
    requires AllSpace(a)
    ensures TrimLeft(a + t) == TrimLeft(t)
  {
    if a == "" {
      ConcatNil(t);
    } else {
      assert (a + t)[1..] == a[1..] + t;
      TrimLeftOff(a[1..], t);
    }
  }

  lemma {:induction false} TrimRightOff(t: string, b: string)
    requires AllSpace(b)
    ensures TrimRight(t + b) == TrimRight(t)
  {
    if b == "" {
      ConcatNil(t);
    } else {
      assert (t + b)[..|t + b| - 1] == t + b[..|b| - 1];
      TrimRightOff(t, b[..|b| - 1]);
    }
  }

  /** There is only one such piece: a trimmed text between white space is what trimming gives. */
  lemma TrimUnique(a: string, t: string, b: string)
    requires AllSpace(a) && AllSpace(b) && Trimmed(t)
    ensures TrimSpace(a + t + b) == t
  {
    ConcatAssoc(a, t, b);
    TrimLeftOff(a, t + b);
    if t == "" {
      ConcatNil(b);
      TrimLeftOff(b, "");
      ConcatNil(b);
    } else {
      assert (t + b)[0] == t[0];
      TrimRightOff(t, b);
    }
  }

  /** x is trimmed, and there is only white space around it in s. */
  ghost predicate IsTrimOf(x: string, s: string) {
    Trimmed(x) && exists a, b :: s == a + x + b && AllSpace(a) && AllSpace(b)
  }

  lemma TrimExactly(s: string, x: string)
    ensures x == TrimSpace(s) <==> IsTrimOf(x, s)
  {
    var a, b := TrimSplits(s);
    if IsTrimOf(x, s) {
      var c, d :| s == c + x + d && AllSpace(c) && AllSpace(d);
      TrimUnique(c, x, d);
    }
  }

  // ----- searching -----

  /** sub occurs in s at position k. */
  predicate OccursAt(s: string, sub: string, k: int) {
    0 <= k && k + |sub| <= |s| && s[k..k + |sub|] == sub
  }

  lemma OccursInTail(s: string, sub: string, k: int)
    requires s != "" && 1 <= k
    ensures OccursAt(s, sub, k) == OccursAt(s[1..], sub, k - 1)
  {
    if k + |sub| <= |s| {
      var here, there := s[k..k + |sub|], s[1..][k - 1..k - 1 + |sub|];
      assert forall i :: 0 <= i < |sub| ==> here[i] == s[k + i] && there[i] == s[1..][k - 1 + i];
      assert here == there;
    }
  }

  /** strings.Index: the first position of sub in s, or -1. */
  function Index(s: string, sub: string): (i: int)
    ensures -1 <= i
    ensures i >= 0 ==> OccursAt(s, sub, i)
    ensures forall k :: OccursAt(s, sub, k) ==> 0 <= i <= k
  {
    if sub <= s then assert OccursAt(s, sub, 0); 0
    else if s == "" then -1
    else
      var j := Index(s[1..], sub);
      assert forall k :: 1 <= k ==> OccursAt(s, sub, k) == OccursAt(s[1..], sub, k - 1) by {
        forall k | 1 <= k ensures OccursAt(s, sub, k) == OccursAt(s[1..], sub, k - 1) { OccursInTail(s, sub, k); }
      }
      if j < 0 then -1 else assert OccursAt(s, sub, j + 1); j + 1
  }

  /** strings.Contains */
  predicate Contains(s: string, sub: string) {
    Index(s, sub) >= 0
  }

  /** An occurrence in one part is an occurrence in the whole. */
  lemma ContainsInPart(a: string, b: string, c: string, sub: string)
    requires Contains(b, sub)
    ensures Contains(a + b + c, sub)
  {
    var i := Index(b, sub);
    assert (a + b + c)[|a| + i..|a| + i + |sub|] == b[i..i + |sub|];
    assert OccursAt(a + b + c, sub, |a| + i);
  }

  // ----- case and numbers -----

  function LowerChar(c: char): char {
    if 'A' <= c <= 'Z' then (c as int + 32) as char else c
  }

  /** strings.ToLower on ASCII letters. */
  function Lower(s: string): string {
    seq(|s|, i requires 0 <= i < |s| => LowerChar(s[i]))
  }

  /** The same letter, in either case. */
  predicate SameLetter(c: char, d: char) {
    || c == d
    || ('a' <= c <= 'z' && d as int == c as int - 32)
    || ('A' <= c <= 'Z' && d as int == c as int + 32)
  }

  /** strings.EqualFold on ASCII letters. */
  predicate EqualFold(s: string, t: string) {
    |s| == |t| && forall i :: 0 <= i < |s| ==> SameLetter(s[i], t[i])
  }

  /** Lower-casing forgets the case of letters and nothing else. */
  lemma LowerForgetsCase(s: string, t: string)
    ensures Lower(s) == Lower(t) <==> EqualFold(s, t)
  {
    if Lower(s) == Lower(t) {
      forall i | 0 <= i < |s|
        ensures SameLetter(s[i], t[i])
      {
        assert Lower(s)[i] == Lower(t)[i];
        SameLower(s[i], t[i]);
      }
    }
    if EqualFold(s, t) {
      forall i | 0 <= i < |s|
        ensures Lower(s)[i] == Lower(t)[i]
      {
        SameLower(s[i], t[i]);
      }
    }
  }

  lemma SameLower(c: char, d: char)
    ensures LowerChar(c) == LowerChar(d) <==> SameLetter(c, d)
  {}

  /** A word without capitals is what lower-casing makes of its spellings. */
  lemma LowerIsWord(s: string, word: string)
    requires forall i :: 0 <= i < |word| ==> !('A' <= word[i] <= 'Z')
    ensures Lower(s) == word <==> EqualFold(s, word)
  {
    assert Lower(word) == word;
    LowerForgetsCase(s, word);
  }

  predicate IsDigit(c: char) {
    '0' <= c <= '9'
  }

  predicate AllDigits(s: string) {
    forall i :: 0 <= i < |s| ==> IsDigit(s[i])
  }

  function Decimal(n: nat): (s: string)
    ensures s != "" && AllDigits(s)
  {
    var last := ('0' as int + n % 10) as char;
    if n < 10 then [last] else Decimal(n / 10) + [last]
  }

  /** fmt's %d */
  function Itoa(n: int): string {
    if n < 0 then "-" + Decimal(-n) else Decimal(n)
  }

  function DigitsValue(s: string): nat
    requires AllDigits(s)
  {
    if s == "" then 0 else DigitsValue(s[..|s| - 1]) * 10 + (s[|s| - 1] as int - '0' as int)
  }

  /** strconv.Atoi on a run of digits: out-of-range values are clamped, the error is discarded. */
  function AtoiClamped(s: string): int
    requires AllDigits(s)
  {
    if DigitsValue(s) <= MAX_INT then DigitsValue(s) else MAX_INT
  }

  lemma {:induction false} DecimalRoundTrip(n: nat)
    ensures DigitsValue(Decimal(n)) == n
  {
    if n >= 10 {
      DecimalRoundTrip(n / 10);
      assert Decimal(n)[..|Decimal(n)| - 1] == Decimal(n / 10);
    }
  }

  lemma ItoaInjective(a: int, b: int)
    requires Itoa(a) == Itoa(b)
    ensures a == b
  {
    if a < 0 { DecimalRoundTrip(-a); assert Itoa(a)[0] == '-'; assert Itoa(a)[1..] == Decimal(-a); }
    else { DecimalRoundTrip(a); assert IsDigit(Itoa(a)[0]); }
    if b < 0 { DecimalRoundTrip(-b); assert Itoa(b)[0] == '-'; assert Itoa(b)[1..] == Decimal(-b); }
    else { DecimalRoundTrip(b); assert IsDigit(Itoa(b)[0]); }
  }

  // ----- lines -----

  /** strings.TrimSuffix(line, "\r") */
  function StripCR(line: string): string {
    if line != "" && line[|line| - 1] == '\r' then line[..|line| - 1] else line
  }

  lemma StripCROfCons(c: char, t: string)
    requires c != '\r'
    ensures StripCR([c] + t) == [c] + StripCR(t)
  {
  }

  lemma StripCROfConcat(body: string, t: string)
    requires body != "" && body[|body| - 1] != '\r'
    ensures StripCR(body + t) == body + StripCR(t)
  {
  }

  predicate OneLine(s: string) {
    forall i :: 0 <= i < |s| ==> s[i] != '\n'
  }

  /** The lines both readers of a diff work on: the pieces between newlines, the last one only when it is
      not empty, each without one trailing carriage return. */
  function Lines(s: string): seq<string> {
    if s == "" then []
    else
      var n := FirstLine(s);
      if n < |s| then [StripCR(s[..n])] + Lines(s[n + 1..]) else [StripCR(s)]
  }

  function StripAll(ls: seq<string>): (r: seq<string>)
    ensures |r| == |ls|
  {
    if ls == [] then [] else [StripCR(ls[0])] + StripAll(ls[1..])
  }

  /** What follows the first line and its newline. */
  function AfterFirstLine(s: string): string {
    if FirstLine(s) < |s| then s[FirstLine(s) + 1..] else ""
  }

  lemma LinesHead(s: string)
    requires s != ""
    ensures Lines(s) == [StripCR(s[..FirstLine(s)])] + Lines(AfterFirstLine(s))
  {
    if FirstLine(s) == |s| {
      assert s[..|s|] == s;
    }
  }

  /** Length of the first line. */
  function FirstLine(s: string): (n: nat)
    ensures n <= |s| && OneLine(s[..n])
    ensures n < |s| ==> s[n] == '\n'
  {
    if s == "" || s[0] == '\n' then 0 else 1 + FirstLine(s[1..])
  }

  /** strings.ReplaceAll(s, "\r\n", "\n") */
  function ReplaceCRLF(s: string): string {
    if s == "" then ""
    else if "\r\n" <= s then "\n" + ReplaceCRLF(s[2..])
    else [s[0]] + ReplaceCRLF(s[1..])
  }

  /** strings.Split(s, "\n"): one piece more than there are newlines. */
  function Split(s: string): (r: seq<string>)
    ensures r != [] && AllOneLine(r)
  {
    var n := FirstLine(s);
    if n < |s| then [s[..n]] + Split(s[n + 1..]) else [s[..n]]
  }

  /** Every line followed by a newline. */
  function Unlines(ls: seq<string>): string {
    if ls == [] then "" else ls[0] + "\n" + Unlines(ls[1..])
  }

  predicate AllOneLine(ls: seq<string>) {
    forall i :: 0 <= i < |ls| ==> OneLine(ls[i])
  }

  lemma {:induction false} FirstLineUnique(s: string, n: nat)
    requires n <= |s| && OneLine(s[..n]) && (n < |s| ==> s[n] == '\n')
    ensures FirstLine(s) == n
  {
    if n > 0 {
      assert s[0] == s[..n][0];
      assert forall i :: 0 <= i < n - 1 ==> s[1..][i] == s[..n][i + 1];
      FirstLineUnique(s[1..], n - 1);
    }
  }

  lemma LinesStep(line: string, tail: string)
    requires OneLine(line)
    ensures Lines(line + "\n" + tail) == [StripCR(line)] + Lines(tail)
  {
    var s := line + "\n" + tail;
    assert s[..|line|] == line;
    FirstLineUnique(s, |line|);
    assert s[|line| + 1..] == tail;
  }

  lemma UnlinesStep(ls: seq<string>, rest: string)
    requires ls != []
    ensures Unlines(ls) + rest == ls[0] + "\n" + (Unlines(ls[1..]) + rest)
  {}

  lemma ConcatAssoc<T>(a: seq<T>, b: seq<T>, c: seq<T>)
    ensures a + b + c == a + (b + c)
  {}

  lemma ConcatNil<T>(a: seq<T>)
    ensures a + [] == a && [] + a == a
  {}

  lemma ConsSame<T>(a: T, b: T, s: seq<T>, t: seq<T>)
    ensures [a] + s == [b] + t <==> a == b && s == t
  {
    assert ([a] + s)[1..] == s && ([b] + t)[1..] == t;
    assert ([a] + s)[0] == a && ([b] + t)[0] == b;
  }

  lemma {:induction false} LinesOfUnlines(ls: seq<string>, rest: string)
    requires AllOneLine(ls)
    ensures Lines(Unlines(ls) + rest) == StripAll(ls) + Lines(rest)
  {
    if ls == [] {
      assert Unlines(ls) + rest == rest;
    } else {
      UnlinesStep(ls, rest);
      LinesStep(ls[0], Unlines(ls[1..]) + rest);
      LinesOfUnlines(ls[1..], rest);
      ConcatAssoc([StripCR(ls[0])], StripAll(ls[1..]), Lines(rest));
    }
  }

  lemma {:induction false} UnlinesConcat(a: seq<string>, b: seq<string>)
    ensures Unlines(a + b) == Unlines(a) + Unlines(b)
  {
    if a == [] {
      assert a + b == b;
    } else {
      assert (a + b)[1..] == a[1..] + b;
      UnlinesConcat(a[1..], b);
    }
  }

  lemma LastSplits<T>(s: seq<T>)
    requires s != []
    ensures s[..|s| - 1] + [s[|s| - 1]] == s
  {}

  lemma {:induction false} StripAllConcat(a: seq<string>, b: seq<string>)
    ensures StripAll(a + b) == StripAll(a) + StripAll(b)
  {
    if a == [] {
      ConcatNil(b);
    } else {
      assert (a + b)[1..] == a[1..] + b;
      StripAllConcat(a[1..], b);
    }
  }

  lemma FirstLineSplits(x: string) returns (line: string, tail: string)
    requires x != "" && x[|x| - 1] == '\n'
    ensures OneLine(line) && x == line + "\n" + tail && (tail == "" || tail[|tail| - 1] == '\n')
  {
    var n := FirstLine(x);
    line := x[..n];
    assert n < |x|;
    tail := x[n + 1..];
  }

  /** A text that is empty or ends in a newline splits off cleanly. */
  lemma {:induction false} LinesConcat(x: string, y: string)
    requires x == "" || x[|x| - 1] == '\n'
    ensures Lines(x + y) == Lines(x) + Lines(y)
    decreases |x|
  {
    if x == "" {
      ConcatNil(y);
      ConcatNil(Lines(y));
    } else {
      var line, tail := FirstLineSplits(x);
      ConcatAssoc(line + "\n", tail, y);
      LinesStep(line, tail);
      LinesStep(line, tail + y);
      LinesConcat(tail, y);
      ConcatAssoc([StripCR(line)], Lines(tail), Lines(y));
    }
  }
}
