/** Cutting a command's output to a number of bytes without breaking a UTF-8 character. */
module Truncation {

  type Byte = b: int | 0 <= b < 0x100

  type Bytes = seq<Byte>

  predicate Tail(b: Byte) {
    0x80 <= b <= 0xBF
  }

  /** Length of the character a text starts with, by the grammar of section 4 of RFC 3629; 0 if there is none. */
  function CharLength(s: Bytes): (n: nat)
    ensures n <= |s| && n <= 4
  {
    if s == [] then 0
    else
      var b := s[0];
      if b <= 0x7F then 1
      else if 0xC2 <= b <= 0xDF then (if |s| >= 2 && Tail(s[1]) then 2 else 0)
      else if 0xE0 <= b <= 0xEF then
        if && |s| >= 3 && Tail(s[1]) && Tail(s[2])
           && (b == 0xE0 ==> s[1] >= 0xA0) && (b == 0xED ==> s[1] <= 0x9F) then 3 else 0
      else if 0xF0 <= b <= 0xF4 then
        if && |s| >= 4 && Tail(s[1]) && Tail(s[2]) && Tail(s[3])
           && (b == 0xF0 ==> s[1] >= 0x90) && (b == 0xF4 ==> s[1] <= 0x8F) then 4 else 0
      else 0
  }

  /** utf8.ValidString */
  predicate Valid(s: Bytes) {
    s == [] || (CharLength(s) > 0 && Valid(s[CharLength(s)..]))
  }

  /** The part of a text that is kept: all of it within the limit or without one, else the longest valid prefix
      within the limit. */
  predicate Kept(text: Bytes, limit: int, r: Bytes) {
    if limit <= 0 || |text| <= limit then r == text
    else
      && |r| <= limit && r == text[..|r|] && Valid(r)
      && forall n :: |r| < n <= limit ==> !Valid(text[..n])
  }

  method SandboxRunOutput(raw: Bytes, limit: int, redact: Bytes -> Bytes) returns (text: Bytes)
    ensures Kept(redact(raw), limit, text)
  {
    text := redact(raw);
    ghost var full := text;
    if limit > 0 && |text| > limit {
      text := text[..limit];
      while !Valid(text)
        invariant |text| <= limit && text == full[..|text|]
        invariant forall n :: |text| < n <= limit ==> !Valid(full[..n])
        decreases |text|
      {
        assert full[..|text|][..|text| - 1] == full[..|text| - 1];
        text := text[..|text| - 1];
      }
    }
  }

  /** A character is as long in every prefix that holds all of it. */
  lemma CharLengthOfPrefix(s: Bytes, n: nat)
    requires CharLength(s) > 0 && CharLength(s) <= n <= |s|
    ensures CharLength(s[..n]) == CharLength(s)
  {}

  /** Near every position of a valid text, at most three bytes before it, a character ends. */
  lemma {:induction false} BoundaryNear(text: Bytes, limit: nat) returns (n: nat)
    requires Valid(text) && limit <= |text|
    ensures n <= limit <= n + 3 && Valid(text[..n])
  {
    if limit == 0 {
      return 0;
    }
    var k := CharLength(text);
    if limit < k {
      return 0;
    }
    var m := BoundaryNear(text[k..], limit - k);
    n := k + m;
    CharLengthOfPrefix(text, n);
    assert text[..n][k..] == text[k..][..m];
  }

  /** Of a valid text at most three bytes below the limit are dropped. */
  lemma AtMostThreeLost(text: Bytes, limit: int, r: Bytes)
    requires Valid(text) && Kept(text, limit, r)
    ensures limit > 0 && |text| > limit ==> limit - 3 <= |r| <= limit
    ensures Valid(r)
  {
    if limit > 0 && |text| > limit {
      var n := BoundaryNear(text, limit);
      assert n <= |r|;
    }
  }

  lemma {:induction false} ValidConcat(a: Bytes, b: Bytes)
    requires Valid(a)
    ensures Valid(a + b) <==> Valid(b)
  {
    if a == [] {
      assert a + b == b;
    } else {
      var k := CharLength(a);
      assert (a + b)[..|a|] == a;
      PrefixFirst(a, b);
      assert (a + b)[k..] == a[k..] + b;
      ValidConcat(a[k..], b);
    }
  }

  lemma PrefixFirst(a: Bytes, b: Bytes)
    requires CharLength(a) > 0
    ensures CharLength(a + b) == CharLength(a)
  {}

  /** What is kept determines what was cut off: kept and rest are both valid exactly when the text was. */
  lemma CutSplits(text: Bytes, limit: int, r: Bytes)
    requires Kept(text, limit, r) && limit > 0 && |text| > limit
    ensures Valid(text) <==> Valid(text[|r|..])
  {
    assert text == r + text[|r|..];
    ValidConcat(r, text[|r|..]);
  }

  /** A smaller limit keeps no more. */
  lemma Monotone(text: Bytes, small: int, large: int, r: Bytes, q: Bytes)
    requires 0 < small <= large && Kept(text, small, r) && Kept(text, large, q)
    ensures r <= q
  {
    if |text| > small {
      assert Valid(text[..|r|]);
      assert |r| <= |q| && r == q[..|r|];
    }
  }
}
