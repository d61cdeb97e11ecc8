/** Lists that keep some elements of another, in order and each changed in some way. */
module Picking {
  import opened Text

  /** Position k of `out` is position at[k] of `xs`, and these are all positions that are kept. */
  ghost predicate PicksAt<A, B>(xs: seq<A>, keep: A -> bool, change: A -> B, out: seq<B>, at: seq<int>) {
    && |at| == |out|
    && (forall k :: 0 <= k < |at| ==> 0 <= at[k] < |xs| && keep(xs[at[k]]) && out[k] == change(xs[at[k]]))
    && (forall j, k :: 0 <= j < k < |at| ==> at[j] < at[k])
    && forall i :: 0 <= i < |xs| && keep(xs[i]) ==> i in at
  }

  /** `out` lists the kept elements of `xs`, each changed, in order, once, and nothing else. */
  ghost predicate Picks<A, B>(xs: seq<A>, keep: A -> bool, change: A -> B, out: seq<B>) {
    exists at: seq<int> :: PicksAt(xs, keep, change, out, at)
  }

  lemma PicksNone<A, B>(keep: A -> bool, change: A -> B)
    ensures Picks([], keep, change, [])
  {
    assert PicksAt([], keep, change, [], []);
  }

  lemma KeepsOneMore<A, B>(xs: seq<A>, keep: A -> bool, change: A -> B, out: seq<B>, at: seq<int>, x: A)
    requires PicksAt(xs, keep, change, out, at) && keep(x)
    ensures PicksAt(xs + [x], keep, change, out + [change(x)], at + [|xs|])
  {
    var all, at2 := xs + [x], at + [|xs|];
    forall i | 0 <= i < |all| && keep(all[i])
      ensures i in at2
    {
      if i < |xs| {
        assert keep(xs[i]);
        assert i in at;
      } else {
        assert at2[|at|] == i;
      }
    }
  }

  lemma DropsOneMore<A, B>(xs: seq<A>, keep: A -> bool, change: A -> B, out: seq<B>, at: seq<int>, x: A)
    requires PicksAt(xs, keep, change, out, at) && !keep(x)
    ensures PicksAt(xs + [x], keep, change, out, at)
  {
    var all := xs + [x];
    forall i | 0 <= i < |all| && keep(all[i])
      ensures i in at
    {
      assert keep(xs[i]);
    }
  }

  lemma PicksSnoc<A, B>(xs: seq<A>, keep: A -> bool, change: A -> B, out: seq<B>, x: A)
    requires Picks(xs, keep, change, out)
    ensures Picks(xs + [x], keep, change, if keep(x) then out + [change(x)] else out)
  {
    var at :| PicksAt(xs, keep, change, out, at);
    if keep(x) {
      KeepsOneMore(xs, keep, change, out, at, x);
    } else {
      DropsOneMore(xs, keep, change, out, at, x);
    }
  }

  /** The list is determined: kept elements leave no choice. */
  lemma PicksOnce<A, B>(xs: seq<A>, keep: A -> bool, change: A -> B, out: seq<B>, other: seq<B>)
    requires Picks(xs, keep, change, out) && Picks(xs, keep, change, other)
    ensures out == other
  {
    var at :| PicksAt(xs, keep, change, out, at);
    var bt :| PicksAt(xs, keep, change, other, bt);
    SameAscending(at, bt);
  }

  lemma FirstIsMember(a: seq<int>)
    ensures a == [] || exists i :: i in a
  {
    if a != [] {
      var i := a[0];
      assert i in a;
    }
  }

  lemma {:induction false} SameAscending(a: seq<int>, b: seq<int>)
    requires forall j, k :: 0 <= j < k < |a| ==> a[j] < a[k]
    requires forall j, k :: 0 <= j < k < |b| ==> b[j] < b[k]
    requires forall i :: i in a <==> i in b
    ensures a == b
  {
    FirstIsMember(a);
    FirstIsMember(b);
    if a != [] && b != [] {
      var x, y := a[|a| - 1], b[|b| - 1];
      assert x in a && y in b;
      assert x in b && y in a;
      assert x == y;
      var a1, b1 := a[..|a| - 1], b[..|b| - 1];
      LastSplits(a);
      LastSplits(b);
      forall i
        ensures i in a1 <==> i in a && i != x
        ensures i in b1 <==> i in b && i != x
      {}
      SameAscending(a1, b1);
    }
  }
}
