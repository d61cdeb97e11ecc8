/** UTF-8 as section 3 of RFC 3629 defines it, and what the validity of a text means. */
module Utf8 {
  import opened Text
  import opened Truncation

  /** The Unicode scalar values. */
  predicate Scalar(c: int) {
    0 <= c <= 0x10FFFF && !(0xD800 <= c <= 0xDFFF)
  }

  function Last(c: nat): Byte {
    0x80 + c % 0x40
  }

  function Encode(c: int): Bytes
    requires Scalar(c)
  {
    if c < 0x80 then [c]
    else if c < 0x800 then [0xC0 + c / 0x40, Last(c)]
    else if c < 0x1_0000 then [0xE0 + c / 0x1000, Last(c / 0x40), Last(c)]
    else [0xF0 + c / 0x4_0000, Last(c / 0x1000), Last(c / 0x40), Last(c)]
  }

  /** The encoding of a scalar value, whatever follows it, is one character. */
  lemma EncodedIsOne(c: int, rest: Bytes)
    requires Scalar(c)
    ensures CharLength(Encode(c) + rest) == |Encode(c)| > 0
  {
    var s := Encode(c) + rest;
    assert forall i :: 0 <= i < |Encode(c)| ==> s[i] == Encode(c)[i];
    if c >= 0x1_0000 {
      assert c / 0x1000 < 0x110;
      assert (c / 0x1000) / 0x40 == c / 0x4_0000;
    } else if c >= 0x800 {
      assert (c / 0x40) / 0x40 == c / 0x1000;
    }
  }

  lemma TwoBytes(b0: int, b1: int) returns (c: int)
    requires 0xC2 <= b0 <= 0xDF && 0x80 <= b1 <= 0xBF
    ensures Scalar(c) && Encode(c) == [b0, b1]
  {
    c := (b0 - 0xC0) * 0x40 + (b1 - 0x80);
    assert c / 0x40 == b0 - 0xC0 && c % 0x40 == b1 - 0x80;
  }

  lemma ThreeBytes(b0: int, b1: int, b2: int) returns (c: int)
    requires 0xE0 <= b0 <= 0xEF && 0x80 <= b1 <= 0xBF && 0x80 <= b2 <= 0xBF
    requires (b0 == 0xE0 ==> b1 >= 0xA0) && (b0 == 0xED ==> b1 <= 0x9F)
    ensures Scalar(c) && Encode(c) == [b0, b1, b2]
  {
    var high := (b0 - 0xE0) * 0x40 + (b1 - 0x80);
    c := high * 0x40 + (b2 - 0x80);
    assert c / 0x40 == high && c % 0x40 == b2 - 0x80;
    assert high / 0x40 == b0 - 0xE0 && high % 0x40 == b1 - 0x80;
    assert c / 0x1000 == high / 0x40;
  }

  lemma FourBytes(b0: int, b1: int, b2: int, b3: int) returns (c: int)
    requires 0xF0 <= b0 <= 0xF4 && 0x80 <= b1 <= 0xBF && 0x80 <= b2 <= 0xBF && 0x80 <= b3 <= 0xBF
    requires (b0 == 0xF0 ==> b1 >= 0x90) && (b0 == 0xF4 ==> b1 <= 0x8F)
    ensures Scalar(c) && Encode(c) == [b0, b1, b2, b3]
  {
    var top := (b0 - 0xF0) * 0x40 + (b1 - 0x80);
    var high := top * 0x40 + (b2 - 0x80);
    c := high * 0x40 + (b3 - 0x80);
    assert c / 0x40 == high && c % 0x40 == b3 - 0x80;
    assert high / 0x40 == top && high % 0x40 == b2 - 0x80;
    assert top / 0x40 == b0 - 0xF0 && top % 0x40 == b1 - 0x80;
    assert c / 0x1000 == top && c / 0x4_0000 == top / 0x40;
  }

  /** Every character is the encoding of a scalar value. */
  lemma OneIsEncoded(s: Bytes) returns (c: int)
    requires CharLength(s) > 0
    ensures Scalar(c) && Encode(c) == s[..CharLength(s)]
  {
    var n := CharLength(s);
    if n == 1 {
      c := s[0];
    } else if n == 2 {
      c := TwoBytes(s[0], s[1]);
    } else if n == 3 {
      c := ThreeBytes(s[0], s[1], s[2]);
    } else {
      c := FourBytes(s[0], s[1], s[2], s[3]);
    }
  }

  predicate AllScalar(cs: seq<int>) {
    forall i :: 0 <= i < |cs| ==> Scalar(cs[i])
  }

  function EncodeAll(cs: seq<int>): Bytes
    requires AllScalar(cs)
  {
    if cs == [] then [] else Encode(cs[0]) + EncodeAll(cs[1..])
  }

  lemma {:induction false} EncodedIsValid(cs: seq<int>)
    requires AllScalar(cs)
    ensures Valid(EncodeAll(cs))
  {
    if cs != [] {
      EncodedIsOne(cs[0], EncodeAll(cs[1..]));
      assert EncodeAll(cs)[|Encode(cs[0])|..] == EncodeAll(cs[1..]);
      EncodedIsValid(cs[1..]);
    }
  }

  lemma {:induction false} ValidIsEncoded(s: Bytes) returns (cs: seq<int>)
    requires Valid(s)
    ensures AllScalar(cs) && EncodeAll(cs) == s
  {
    if s == [] {
      cs := [];
    } else {
      var n := CharLength(s);
      var c := OneIsEncoded(s);
      var rest := ValidIsEncoded(s[n..]);
      cs := [c] + rest;
      assert cs[1..] == rest && s == s[..n] + s[n..];
    }
  }

  /** A text is valid exactly when it is a sequence of encoded scalar values. */
  lemma ValidExactly(s: Bytes)
    ensures Valid(s) <==> exists cs :: AllScalar(cs) && EncodeAll(cs) == s
  {
    if Valid(s) {
      var cs := ValidIsEncoded(s);
    }
    if cs :| AllScalar(cs) && EncodeAll(cs) == s {
      EncodedIsValid(cs);
    }
  }
}
