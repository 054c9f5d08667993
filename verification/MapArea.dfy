/**
 * Placing a region in the address space: reserve more than is needed, map the region at a huge page
 * boundary inside it, and give back all but one guard page on each side.
 */
module MapArea {

  const PAGE_SIZE := 4096
  const HUGE_PAGE_SIZE := 0x200000

  function AlignUp(x: nat, a: nat): nat
    requires a > 0
  {
    (x + a - 1) / a * a
  }

  lemma AlignBounds(x: nat, a: nat)
    requires a > 0
    ensures x <= AlignUp(x, a) < x + a && AlignUp(x, a) % a == 0
  {
    var q := (x + a - 1) / a;
    Multiple(q, a);
    assert x + a - 1 == q * a + (x + a - 1) % a;
  }

  lemma Multiple(q: nat, a: nat)
    requires a > 0
    ensures q * a % a == 0
  {
    assert (q * a) / a == q by { DivMul(q, a); }
  }

  lemma {:induction false} DivMul(q: nat, a: nat)
    requires a > 0
    ensures q * a / a == q
  {
    if q > 0 {
      DivMul(q - 1, a);
      assert q * a == (q - 1) * a + a;
      assert ((q - 1) * a + a) / a == (q - 1) * a / a + 1;
    }
  }

  // ----- the numbers map_memory computes, for the base the first reservation is given

  function PageLen(len: nat): nat {
    AlignUp(len, PAGE_SIZE)
  }

  function HugeLen(len: nat): nat {
    AlignUp(PageLen(len), HUGE_PAGE_SIZE)
  }

  function ReserveLen(len: nat): nat {
    HugeLen(len) + HUGE_PAGE_SIZE + PAGE_SIZE
  }

  function RegionAddr(base: nat): nat {
    AlignUp(base + PAGE_SIZE, HUGE_PAGE_SIZE)
  }

  function KeepStart(base: nat): int {
    RegionAddr(base) - PAGE_SIZE
  }

  function KeepEnd(base: nat, len: nat): nat {
    RegionAddr(base) + HugeLen(len) + PAGE_SIZE
  }

  lemma Least(x: nat, a: nat, k: nat)
    requires a > 0 && x <= k * a
    ensures AlignUp(x, a) <= k * a
  {
    var q := (x + a - 1) / a;
    assert q * a <= x + a - 1 < (k + 1) * a;
    Cancel(q, k + 1, a);
    assert q * a <= k * a;
  }

  lemma Cancel(p: nat, q: nat, a: nat)
    requires p * a < q * a
    ensures p < q
  {}

  /** Huge page alignment of the length needs no page alignment first. */
  lemma AlignTwice(len: nat)
    ensures HugeLen(len) == AlignUp(len, HUGE_PAGE_SIZE)
  {
    AlignBounds(len, PAGE_SIZE);
    AlignBounds(PageLen(len), HUGE_PAGE_SIZE);
    AlignBounds(len, HUGE_PAGE_SIZE);
    var y, z := AlignUp(len, HUGE_PAGE_SIZE) / HUGE_PAGE_SIZE, HugeLen(len) / HUGE_PAGE_SIZE;
    Least(len, PAGE_SIZE, 512 * y);
    Least(PageLen(len), HUGE_PAGE_SIZE, y);
    Least(len, HUGE_PAGE_SIZE, z);
  }

  /** Both trims have non-negative length; what is left is aligned, big enough and guarded. */
  lemma TrimsFit(base: nat, len: nat)
    requires base % PAGE_SIZE == 0
    ensures base <= KeepStart(base) && KeepEnd(base, len) <= base + ReserveLen(len)
    ensures RegionAddr(base) % HUGE_PAGE_SIZE == 0 && KeepStart(base) % PAGE_SIZE == 0
    ensures KeepEnd(base, len) % PAGE_SIZE == 0
    ensures len <= PageLen(len) <= HugeLen(len)
  {
    AlignBounds(base + PAGE_SIZE, HUGE_PAGE_SIZE);
    AlignBounds(len, PAGE_SIZE);
    AlignBounds(PageLen(len), HUGE_PAGE_SIZE);
    hide AlignUp;
    var b, q, h := base / PAGE_SIZE, RegionAddr(base) / HUGE_PAGE_SIZE, HugeLen(len) / HUGE_PAGE_SIZE;
    assert base == PAGE_SIZE * b && RegionAddr(base) == HUGE_PAGE_SIZE * q && HugeLen(len) == HUGE_PAGE_SIZE * h;
    Multiple(512 * q - 1, PAGE_SIZE);
    Multiple(512 * q + 512 * h + 1, PAGE_SIZE);
  }

  // ----- the address space

  /** The pages of an interval with page-aligned ends. */
  function Pages(lo: nat, hi: nat): set<nat> {
    set p: nat | p < hi / PAGE_SIZE && From(p, lo)
  }

  predicate From(p: nat, lo: nat) {
    lo / PAGE_SIZE <= p
  }

  /** Reserve, then trim. */
  function Mapped(space: set<nat>, base: nat, len: nat): set<nat>
    requires base % PAGE_SIZE == 0
  {
    TrimsFit(base, len);
    space + Pages(base, base + ReserveLen(len)) - Pages(base, KeepStart(base))
    - Pages(KeepEnd(base, len), base + ReserveLen(len))
  }

  function Unmapped(space: set<nat>, addr: nat, len: nat): set<nat>
    requires addr >= PAGE_SIZE
  {
    var base := addr - PAGE_SIZE;
    space - Pages(base, base + AlignUp(len, HUGE_PAGE_SIZE) + 2 * PAGE_SIZE)
  }

  /** What stays mapped is the region with a guard page on each side. */
  lemma MappedIs(space: set<nat>, base: nat, len: nat)
    requires base % PAGE_SIZE == 0 && space !! Pages(base, base + ReserveLen(len))
    ensures Mapped(space, base, len)
            == space + Pages(RegionAddr(base) - PAGE_SIZE, RegionAddr(base) + HugeLen(len) + PAGE_SIZE)
  {
    TrimsFit(base, len);
  }

  /** Unmapping a region releases exactly the pages that mapping it left mapped. */
  lemma UnmapUndoesMap(space: set<nat>, base: nat, len: nat)
    requires base % PAGE_SIZE == 0 && space !! Pages(base, base + ReserveLen(len))
    ensures RegionAddr(base) >= PAGE_SIZE && Unmapped(Mapped(space, base, len), RegionAddr(base), len) == space
  {
    TrimsFit(base, len);
    AlignTwice(len);
    MappedIs(space, base, len);
    var kept := Pages(RegionAddr(base) - PAGE_SIZE, RegionAddr(base) + HugeLen(len) + PAGE_SIZE);
    assert kept <= Pages(base, base + ReserveLen(len));
  }
}
