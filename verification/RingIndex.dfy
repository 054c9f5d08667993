/** Free-running 16-bit ring indices and the slots they name. */
module RingIndex {

  const WRAP: nat := 65536

  /** Largest split virtqueue. */
  const VIRTQ_SIZE_MAX: nat := 32768

  /** A 16-bit index: every index the driver and the device exchange is one. */
  function Idx(x: int): nat {
    x % WRAP
  }

  /** A power of two up to 32768: exactly the sizes that divide the index space. */
  predicate RingSize(n: nat) {
    0 < n <= VIRTQ_SIZE_MAX && WRAP % n == 0
  }

  /** The ring slot an index names. */
  function Slot(x: int, n: nat): (r: nat)
    requires 0 < n
    ensures r < n
  {
    x % n
  }

  lemma MulMod(n: nat, k: int, r: int)
    requires 0 < n
    ensures (n * k + r) % n == r % n
  {
    var q := r / n;
    assert r == n * q + r % n;
    assert n * k + r == n * (k + q) + r % n by { assert n * (k + q) == n * k + n * q; }
    DivModUnique(n * k + r, n, k + q, r % n);
  }

  lemma DivModUnique(x: int, n: nat, q: int, r: int)
    requires 0 < n && x == n * q + r && 0 <= r < n
    ensures x / n == q && x % n == r
  {
    var d := x / n - q;
    assert n * d == r - x % n by { assert n * d == n * (x / n) - n * q; }
    assert d >= 1 ==> n * d >= n;
    assert d <= -1 ==> n * d <= 0 - n;
  }

  /** Truncating the index to 16 bits does not move its slot. */
  lemma SlotOfIdx(x: int, n: nat)
    requires RingSize(n)
    ensures Slot(Idx(x), n) == Slot(x, n)
  {
    var q := WRAP / n;
    assert WRAP == n * q;
    var a := x / WRAP;
    assert x == WRAP * a + Idx(x);
    assert WRAP * a == n * (q * a);
    MulMod(n, q * a, Idx(x));
  }

  /** Positions less than a ring apart use different slots. */
  lemma SlotsDiffer(x: int, y: int, n: nat)
    requires 0 < n && x < y < x + n
    ensures Slot(x, n) != Slot(y, n)
  {
    var q, r := x / n, x % n + (y - x);
    assert y == n * q + r;
    if r < n {
      DivModUnique(y, n, q, r);
    } else {
      assert n * q + r == n * (q + 1) + (r - n);
      DivModUnique(y, n, q + 1, r - n);
    }
  }

  /** Indices of positions less than 65536 apart are equal only for equal positions. */
  lemma IdxInjective(x: int, y: int)
    requires x <= y < x + WRAP
    ensures Idx(x) == Idx(y) <==> x == y
  {
    if x != y { SlotsDiffer(x, y, WRAP); }
  }
}
