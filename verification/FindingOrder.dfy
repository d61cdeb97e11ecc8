/** What keys ignore and how sorted findings are ordered, told by the characters of their texts. */
module FindingOrder {
  import opened Text
  import opened Findings

  /** A key ignores outer white space and the case of letters, and nothing else. */
  lemma NormalExactly(s: string, t: string)
    ensures Normal(s) == Normal(t) <==> exists x, y :: IsTrimOf(x, s) && IsTrimOf(y, t) && EqualFold(x, y)
  {
    LowerForgetsCase(TrimSpace(s), TrimSpace(t));
    TrimExactly(s, TrimSpace(s));
    TrimExactly(t, TrimSpace(t));
    forall x, y
      ensures IsTrimOf(x, s) ==> x == TrimSpace(s)
      ensures IsTrimOf(y, t) ==> y == TrimSpace(t)
    {
      TrimExactly(s, x);
      TrimExactly(t, y);
    }
  }

  /** Text a is smaller at k: the texts are the same before k, where a ends or has the smaller character. */
  predicate SmallerAt(a: string, b: string, k: int) {
    0 <= k <= |a| && k < |b| && a[..k] == b[..k] && (k == |a| || a[k] < b[k])
  }

  lemma SmallerLater(a: string, b: string, k: int)
    requires a != "" && b != "" && a[0] == b[0] && 0 < k
    ensures SmallerAt(a, b, k) <==> SmallerAt(a[1..], b[1..], k - 1)
  {
    if k <= |a| && k < |b| {
      assert a[..k] == [a[0]] + a[1..][..k - 1] && b[..k] == [b[0]] + b[1..][..k - 1];
      assert a[1..][..k - 1] == a[..k][1..] && b[1..][..k - 1] == b[..k][1..];
    }
  }

  lemma SmallerAtOnce(a: string, b: string, k: int)
    requires a == "" || b == "" || a[0] != b[0]
    ensures SmallerAt(a, b, k) ==> k == 0
  {
    if 0 < k <= |a| && k < |b| {
      assert a[..k][0] == a[0] && b[..k][0] == b[0];
    }
  }

  /** Texts compare by the first character in which they differ, and a prefix comes first. */
  lemma {:induction false} LessStringIs(a: string, b: string)
    ensures LessString(a, b) <==> exists k :: SmallerAt(a, b, k)
  {
    if b != "" && a != "" && a[0] == b[0] {
      LessStringIs(a[1..], b[1..]);
      assert !SmallerAt(a, b, 0);
      forall k | 0 < k
        ensures SmallerAt(a, b, k) <==> SmallerAt(a[1..], b[1..], k - 1)
      {
        SmallerLater(a, b, k);
      }
      if k :| SmallerAt(a[1..], b[1..], k) {
        assert SmallerAt(a, b, k + 1);
      }
    } else {
      forall k
        ensures SmallerAt(a, b, k) ==> k == 0
      {
        SmallerAtOnce(a, b, k);
      }
      assert LessString(a, b) ==> SmallerAt(a, b, 0);
    }
  }

  /** In a sorted list files ascend, in one file lines ascend, and in one line rules do. */
  lemma SortedMeans(s: seq<Finding>, i: nat, j: nat)
    requires Sorted(s) && i < j < |s|
    ensures !exists k :: SmallerAt(s[j].file, s[i].file, k)
    ensures s[i].file == s[j].file ==> s[i].line <= s[j].line
    ensures s[i].file == s[j].file && s[i].line == s[j].line ==> !exists k :: SmallerAt(s[j].ruleId, s[i].ruleId, k)
  {
    LessStringIs(s[j].file, s[i].file);
    LessStringIs(s[j].ruleId, s[i].ruleId);
    SmallerDiffers(s[j].file, s[i].file);
  }

  lemma SmallerDiffers(a: string, b: string)
    ensures (exists k :: SmallerAt(a, b, k)) ==> a != b
  {}
}
