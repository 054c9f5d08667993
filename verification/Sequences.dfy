/** How often an element occurs in a sequence, and sequences with one occurrence taken out. */
module Sequences {

  function One(b: bool): nat {
    if b then 1 else 0
  }

  function Occ<T(==)>(xs: seq<T>, x: T): nat {
    if xs == [] then 0 else One(xs[0] == x) + Occ(xs[1..], x)
  }

  lemma OccCons<T>(xs: seq<T>, y: T, x: T)
    ensures Occ([y] + xs, x) == Occ(xs, x) + One(x == y)
  {
    assert ([y] + xs)[1..] == xs;
  }

  lemma OccTail<T>(xs: seq<T>, x: T)
    requires xs != []
    ensures Occ(xs[1..], x) == Occ(xs, x) - One(x == xs[0])
  {}

  lemma {:induction false} OccConcat<T>(xs: seq<T>, ys: seq<T>, x: T)
    ensures Occ(xs + ys, x) == Occ(xs, x) + Occ(ys, x)
  {
    if xs == [] {
      assert xs + ys == ys;
    } else {
      assert (xs + ys)[1..] == xs[1..] + ys;
      OccConcat(xs[1..], ys, x);
    }
  }

  lemma OccAppend<T>(xs: seq<T>, y: T, x: T)
    ensures Occ(xs + [y], x) == Occ(xs, x) + One(x == y)
  {
    OccConcat(xs, [y], x);
  }

  lemma {:induction false} OccAt<T>(xs: seq<T>, i: nat)
    requires i < |xs|
    ensures Occ(xs, xs[i]) >= 1
  {
    if i > 0 { OccAt(xs[1..], i - 1); }
  }

  lemma {:induction false} OccSome<T>(xs: seq<T>, x: T) returns (i: nat)
    requires Occ(xs, x) >= 1
    ensures i < |xs| && xs[i] == x
  {
    if xs[0] == x {
      i := 0;
    } else {
      var j := OccSome(xs[1..], x);
      i := j + 1;
    }
  }

  function RemovedAt<T>(xs: seq<T>, i: nat): seq<T>
    requires i < |xs|
  {
    xs[..i] + xs[i + 1..]
  }

  lemma OccRemovedAt<T>(xs: seq<T>, i: nat, x: T)
    requires i < |xs|
    ensures Occ(RemovedAt(xs, i), x) == Occ(xs, x) - One(x == xs[i])
  {
    OccConcat(xs[..i], xs[i + 1..], x);
    OccAppend(xs[..i], xs[i], x);
    OccConcat(xs[..i] + [xs[i]], xs[i + 1..], x);
    assert xs == xs[..i] + [xs[i]] + xs[i + 1..];
  }

  /** The first occurrence taken out. */
  function Without<T(==)>(xs: seq<T>, x: T): seq<T> {
    if xs == [] then [] else if xs[0] == x then xs[1..] else [xs[0]] + Without(xs[1..], x)
  }
}
