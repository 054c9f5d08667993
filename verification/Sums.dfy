/** Sums over a sequence, and how they change when one element does. */
module Sums {

  function Sum<T>(xs: seq<T>, f: T -> int): int {
    if xs == [] then 0 else f(xs[0]) + Sum(xs[1..], f)
  }

  lemma {:induction false} SumUpdate<T>(xs: seq<T>, i: nat, x: T, f: T -> int)
    requires i < |xs|
    ensures Sum(xs[i := x], f) == Sum(xs, f) - f(xs[i]) + f(x)
  {
    var ys := xs[i := x];
    if i == 0 {
      assert ys[1..] == xs[1..];
    } else {
      assert ys[1..] == xs[1..][i - 1 := x];
      SumUpdate(xs[1..], i - 1, x, f);
    }
  }

  lemma {:induction false} SumSame<T, U>(xs: seq<T>, f: T -> int, ys: seq<U>, g: U -> int)
    requires |xs| == |ys| && forall i :: 0 <= i < |xs| ==> f(xs[i]) == g(ys[i])
    ensures Sum(xs, f) == Sum(ys, g)
  {
    if xs != [] {
      forall i | 0 <= i < |xs[1..]| ensures f(xs[1..][i]) == g(ys[1..][i]) {
        assert xs[1..][i] == xs[i + 1] && ys[1..][i] == ys[i + 1];
      }
      SumSame(xs[1..], f, ys[1..], g);
    }
  }

  /** A sum of non-negative terms is at least each of them. */
  lemma {:induction false} SumAtLeast<T>(xs: seq<T>, i: nat, f: T -> int)
    requires i < |xs| && forall k :: 0 <= k < |xs| ==> f(xs[k]) >= 0
    ensures Sum(xs, f) >= f(xs[i])
  {
    SumNonNegative(xs[1..], f);
    if i > 0 {
      SumAtLeast(xs[1..], i - 1, f);
    }
  }

  lemma {:induction false} SumNonNegative<T>(xs: seq<T>, f: T -> int)
    requires forall k :: 0 <= k < |xs| ==> f(xs[k]) >= 0
    ensures Sum(xs, f) >= 0
  {
    if xs != [] {
      SumNonNegative(xs[1..], f);
    }
  }

  /** A sum of non-negative terms is positive exactly when one of them is. */
  lemma {:induction false} SumPositive<T>(xs: seq<T>, f: T -> int)
    requires forall k :: 0 <= k < |xs| ==> f(xs[k]) >= 0
    ensures Sum(xs, f) > 0 <==> exists k :: 0 <= k < |xs| && f(xs[k]) > 0
  {
    if xs != [] {
      var rest := xs[1..];
      SumNonNegative(rest, f);
      SumPositive(rest, f);
      if exists k :: 0 <= k < |rest| && f(rest[k]) > 0 {
        var k :| 0 <= k < |rest| && f(rest[k]) > 0;
        assert f(xs[k + 1]) > 0;
      }
      if exists k :: 0 <= k < |xs| && f(xs[k]) > 0 {
        var k :| 0 <= k < |xs| && f(xs[k]) > 0;
        if k > 0 { assert f(rest[k - 1]) > 0; }
      }
      if f(xs[0]) > 0 { assert f(xs[0]) > 0; }
    }
  }

  lemma {:induction false} SumZero<T>(xs: seq<T>, f: T -> int)
    requires forall k :: 0 <= k < |xs| ==> f(xs[k]) == 0
    ensures Sum(xs, f) == 0
  {
    if xs != [] {
      assert forall k :: 0 <= k < |xs[1..]| ==> xs[1..][k] == xs[k + 1];
      SumZero(xs[1..], f);
    }
  }
}
