/** Pigeonhole facts about sequences of distinct small numbers. */
module Counting {

  ghost predicate Distinct<T>(a: seq<T>) {
    forall i, j :: 0 <= i < j < |a| ==> a[i] != a[j]
  }

  lemma TailMembers<T>(a: seq<T>)
    requires a != [] && Distinct(a)
    ensures Distinct(a[1..])
    ensures forall h :: h in a[1..] <==> h in a && h != a[0]
  {
    forall h ensures h in a[1..] <==> h in a && h != a[0] {
      if h in a[1..] {
        var i :| 0 <= i < |a| - 1 && a[1..][i] == h;
        assert a[i + 1] == h;
      }
      if h in a && h != a[0] {
        var i :| 0 <= i < |a| && a[i] == h;
        assert a[1..][i - 1] == h;
      }
    }
  }

  function UpTo(n: nat): (r: set<nat>)
    ensures forall x: nat :: x in r <==> x < n
  {
    if n == 0 then {} else UpTo(n - 1) + {n - 1}
  }

  lemma {:induction false} UpToSize(n: nat)
    ensures |UpTo(n)| == n
  {
    if n > 0 {
      UpToSize(n - 1);
    }
  }

  lemma {:induction false} DistinctFits<T>(a: seq<T>, bound: set<T>)
    requires Distinct(a)
    requires forall i :: 0 <= i < |a| ==> a[i] in bound
    ensures |a| <= |bound|
  {
    if a != [] {
      DistinctFits(a[1..], bound - {a[0]});
    }
  }

  /** Distinct numbers below n, none of them `spare`, are fewer than n. */
  lemma FewerThan(a: seq<nat>, n: nat, spare: nat)
    requires Distinct(a) && spare < n
    requires forall i :: 0 <= i < |a| ==> a[i] < n && a[i] != spare
    ensures |a| < n
  {
    DistinctFits(a, UpTo(n) - {spare});
    UpToSize(n);
  }

  lemma NoMoreThan(a: seq<nat>, n: nat)
    requires Distinct(a)
    requires forall i :: 0 <= i < |a| ==> a[i] < n
    ensures |a| <= n
  {
    DistinctFits(a, UpTo(n));
    UpToSize(n);
  }
}
