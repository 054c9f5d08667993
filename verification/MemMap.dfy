/**
 * The slots of a memory map, which ascend in guest address, and the translations between guest
 * addresses and pointers they define.
 */
module MemMap {
  import opened Sequences

  const SLOTS_MAX := 32
  const U64 := 0x1_0000_0000_0000_0000
  const SIZE_MAX := 0x8000_0000_0000_0000
  const TRANSLATION_FAILED := U64 - 1

  datatype Option<T> = None | Found(value: T)

  /** `key` stands for the file, offset and callbacks a region is cached under. */
  datatype Region = Region(gpa: nat, uva: nat, size: nat, ptr: nat, key: nat)

  // ----- translation

  predicate HasGpa(r: Region, gpa: nat) {
    r.gpa <= gpa && gpa - r.gpa < r.size
  }

  predicate HasPtr(r: Region, ptr: nat) {
    r.ptr <= ptr < r.ptr + r.size
  }

  /** The first region of the map that holds the address decides, whether or not the range fits it. */
  function GpaToPtr(rs: seq<Region>, gpa: nat, len: nat): Option<nat> {
    if rs == [] then None
    else if HasGpa(rs[0], gpa) then
      if len > rs[0].size || gpa - rs[0].gpa + len > rs[0].size then None else Found(rs[0].ptr + (gpa - rs[0].gpa))
    else GpaToPtr(rs[1..], gpa, len)
  }

  function PtrToGpa(rs: seq<Region>, ptr: nat): nat {
    if rs == [] then TRANSLATION_FAILED
    else if HasPtr(rs[0], ptr) then ptr - rs[0].ptr + rs[0].gpa
    else PtrToGpa(rs[1..], ptr)
  }

  predicate PtrsApart(a: Region, b: Region) {
    a.ptr + a.size <= b.ptr || b.ptr + b.size <= a.ptr
  }

  /** Regions of one map: distinct mappings, none reaching the end of the address space. */
  ghost predicate Laid(rs: seq<Region>) {
    && (forall i :: 0 <= i < |rs| ==> 0 < rs[i].size < SIZE_MAX && rs[i].gpa + rs[i].size < U64)
    && (forall i, j :: 0 <= i < j < |rs| ==> PtrsApart(rs[i], rs[j]))
  }

  lemma {:induction false} PtrFound(rs: seq<Region>, k: nat, ptr: nat)
    requires Laid(rs) && k < |rs| && HasPtr(rs[k], ptr)
    ensures PtrToGpa(rs, ptr) == ptr - rs[k].ptr + rs[k].gpa
  {
    if k > 0 {
      assert PtrsApart(rs[0], rs[k]);
      PtrFound(rs[1..], k - 1, ptr);
    }
  }

  /** The region the search for a guest address ends at. */
  lemma {:induction false} GpaFound(rs: seq<Region>, gpa: nat, len: nat) returns (k: nat)
    requires GpaToPtr(rs, gpa, len).Found?
    ensures k < |rs| && HasGpa(rs[k], gpa) && GpaToPtr(rs, gpa, len) == Found(rs[k].ptr + (gpa - rs[k].gpa))
    ensures gpa - rs[k].gpa + len <= rs[k].size
    ensures forall i :: 0 <= i < k ==> !HasGpa(rs[i], gpa)
  {
    if HasGpa(rs[0], gpa) {
      k := 0;
    } else {
      var j := GpaFound(rs[1..], gpa, len);
      k := j + 1;
    }
  }

  /** Regions in the order of their guest addresses. */
  ghost predicate Ascends(rs: seq<Region>) {
    forall i, j :: 0 <= i < j < |rs| ==> rs[i].gpa <= rs[j].gpa
  }

  /** What holds part of a translated range holds it at the same distance from the range's start. */
  lemma PartFound(rs: seq<Region>, gpa: nat, len: nat, o: nat, n: nat)
    requires Ascends(rs) && GpaToPtr(rs, gpa, len).Found? && o + n <= len && o < len
    ensures GpaToPtr(rs, gpa + o, n) == Found(GpaToPtr(rs, gpa, len).value + o)
  {
    var k := GpaFound(rs, gpa, len);
    GpaAt(rs, k, gpa + o, n);
  }

  /** Back from the pointer of every byte of a translated range to the guest address it was named by. */
  lemma RoundTrip(rs: seq<Region>, gpa: nat, len: nat, o: nat)
    requires Laid(rs) && GpaToPtr(rs, gpa, len).Found? && o < len
    ensures PtrToGpa(rs, GpaToPtr(rs, gpa, len).value + o) == gpa + o != TRANSLATION_FAILED
  {
    var k := GpaFound(rs, gpa, len);
    PtrFound(rs, k, rs[k].ptr + (gpa - rs[k].gpa) + o);
  }

  /** A pointer fails to translate exactly when no region of the map holds it. */
  lemma {:induction false} FailsIff(rs: seq<Region>, ptr: nat)
    requires Laid(rs)
    ensures PtrToGpa(rs, ptr) == TRANSLATION_FAILED <==> forall i :: 0 <= i < |rs| ==> !HasPtr(rs[i], ptr)
  {
    if rs != [] {
      FailsIff(rs[1..], ptr);
      assert forall i :: 0 < i < |rs| ==> rs[i] == rs[1..][i - 1];
    }
  }

  lemma {:induction false} GpaAt(rs: seq<Region>, k: nat, gpa: nat, len: nat)
    requires k < |rs| && HasGpa(rs[k], gpa) && forall i :: 0 <= i < k ==> !HasGpa(rs[i], gpa)
    requires gpa - rs[k].gpa + len <= rs[k].size
    ensures GpaToPtr(rs, gpa, len) == Found(rs[k].ptr + (gpa - rs[k].gpa))
  {
    if k > 0 { GpaAt(rs[1..], k - 1, gpa, len); }
  }

  /**
   * A range inside a slot, at addresses no earlier slot reaches, translates to the slot's pointer
   * plus the offset.
   */
  lemma InsideTranslates(rs: seq<Region>, k: nat, gpa: nat, len: nat)
    requires k < |rs| && rs[k].gpa <= gpa < rs[k].gpa + rs[k].size && gpa + len <= rs[k].gpa + rs[k].size
    requires forall i :: 0 <= i < k ==> gpa < rs[i].gpa || rs[i].gpa + rs[i].size <= gpa
    ensures GpaToPtr(rs, gpa, len) == Found(rs[k].ptr + (gpa - rs[k].gpa))
  {
    GpaAt(rs, k, gpa, len);
  }

  /**
   * The other way round, a pointer comes back exactly if no earlier slot holds the same guest
   * address: slots are only kept from overlapping in both address spaces at once.
   */
  lemma PtrRoundTripIff(rs: seq<Region>, k: nat, ptr: nat)
    requires Laid(rs) && k < |rs| && HasPtr(rs[k], ptr)
    ensures var gpa := PtrToGpa(rs, ptr);
            GpaToPtr(rs, gpa, 1) == Found(ptr) <==> forall i :: 0 <= i < k ==> !HasGpa(rs[i], gpa)
  {
    PtrFound(rs, k, ptr);
    var gpa := PtrToGpa(rs, ptr);
    if forall i :: 0 <= i < k ==> !HasGpa(rs[i], gpa) {
      GpaAt(rs, k, gpa, 1);
    } else {
      var j := FirstGpa(rs, gpa);
      assert j < k && PtrsApart(rs[j], rs[k]);
      GpaAt(rs, j, gpa, 1);
    }
  }

  lemma {:induction false} FirstGpa(rs: seq<Region>, gpa: nat) returns (j: nat)
    requires exists i :: 0 <= i < |rs| && HasGpa(rs[i], gpa)
    ensures j < |rs| && HasGpa(rs[j], gpa) && forall i :: 0 <= i < j ==> !HasGpa(rs[i], gpa)
  {
    if HasGpa(rs[0], gpa) {
      j := 0;
    } else {
      var i :| 0 <= i < |rs| && HasGpa(rs[i], gpa);
      assert HasGpa(rs[1..][i - 1], gpa);
      var k := FirstGpa(rs[1..], gpa);
      j := k + 1;
    }
  }

  // ----- slots

  /** The check for wrap-around, as it is made on 64-bit integers. */
  predicate Wraps(a: nat, size: nat) {
    (a + size) % U64 < a
  }

  predicate Apart(a: nat, aSize: nat, b: nat, bSize: nat) {
    a + aSize <= b || b + bSize <= a
  }

  /** A new slot collides with a region only if it overlaps it in both address spaces. */
  predicate Collides(r: Region, gpa: nat, uva: nat, size: nat) {
    !Apart(r.gpa, r.size, gpa, size) && !Apart(r.uva, r.size, uva, size)
  }

  ghost predicate InRange(slots: seq<nat>, n: nat) {
    forall i :: 0 <= i < |slots| ==> slots[i] < n
  }

  ghost predicate Accepts(regions: seq<Region>, slots: seq<nat>, gpa: nat, uva: nat, size: nat)
    requires InRange(slots, |regions|)
  {
    && !Wraps(gpa, size) && !Wraps(uva, size) && |slots| != SLOTS_MAX
    && (forall i :: 0 <= i < |slots| ==> !Collides(regions[slots[i]], gpa, uva, size))
  }

  /** Where a slot goes, searching from the end. */
  ghost function Position(regions: seq<Region>, slots: seq<nat>, gpa: nat): (i: nat)
    requires InRange(slots, |regions|)
    ensures i <= |slots|
    decreases |slots|
  {
    if slots == [] || regions[slots[|slots| - 1]].gpa < gpa then |slots|
    else Position(regions, slots[..|slots| - 1], gpa)
  }

  function Inserted(slots: seq<nat>, i: nat, r: nat): seq<nat>
    requires i <= |slots|
  {
    slots[..i] + [r] + slots[i..]
  }

  ghost predicate Matches(r: Region, gpa: nat, uva: nat, size: nat) {
    r.gpa == gpa && r.uva == uva && r.size == size
  }

  /** The first slot with these addresses, or the number of slots. */
  ghost function Slot(regions: seq<Region>, slots: seq<nat>, gpa: nat, uva: nat, size: nat): (i: nat)
    requires InRange(slots, |regions|)
    ensures i <= |slots| && (i < |slots| ==> Matches(regions[slots[i]], gpa, uva, size))
  {
    if slots == [] || Matches(regions[slots[0]], gpa, uva, size) then 0
    else 1 + Slot(regions, slots[1..], gpa, uva, size)
  }

  /** Slots ascend in guest address and do not collide. */
  predicate Ordered(a: Region, b: Region) {
    a.gpa <= b.gpa && !Collides(a, b.gpa, b.uva, b.size)
  }

  ghost predicate SlotsOk(regions: seq<Region>, slots: seq<nat>) {
    && InRange(slots, |regions|) && |slots| <= SLOTS_MAX
    && (forall i, j :: 0 <= i < j < |slots| ==> Ordered(regions[slots[i]], regions[slots[j]]))
  }

  lemma NoWrapIff(a: nat, size: nat)
    requires a < U64 && size < U64
    ensures Wraps(a, size) <==> a + size >= U64
  {}

  lemma OccInserted(slots: seq<nat>, i: nat, x: nat, r: nat)
    requires i <= |slots|
    ensures Occ(Inserted(slots, i, x), r) == Occ(slots, r) + One(r == x)
  {
    OccConcat(slots[..i] + [x], slots[i..], r);
    OccConcat(slots[..i], [x], r);
    OccConcat(slots[..i], slots[i..], r);
    assert slots[..i] + slots[i..] == slots;
  }

  lemma RemovedOk(regions: seq<Region>, slots: seq<nat>, i: nat)
    requires SlotsOk(regions, slots) && i < |slots|
    ensures SlotsOk(regions, RemovedAt(slots, i))
  {
    var t := RemovedAt(slots, i);
    assert forall j :: 0 <= j < |t| ==> t[j] == slots[if j < i then j else j + 1];
  }

  lemma {:induction false} PositionSorts(regions: seq<Region>, slots: seq<nat>, gpa: nat)
    requires SlotsOk(regions, slots)
    ensures var i := Position(regions, slots, gpa);
            && (forall j :: 0 <= j < i ==> regions[slots[j]].gpa < gpa)
            && (forall j :: i <= j < |slots| ==> gpa <= regions[slots[j]].gpa)
    decreases |slots|
  {
    var n := |slots|;
    if slots == [] {
    } else if regions[slots[n - 1]].gpa < gpa {
      forall j | 0 <= j < n ensures regions[slots[j]].gpa < gpa {
        if j < n - 1 { assert Ordered(regions[slots[j]], regions[slots[n - 1]]); }
      }
    } else {
      PositionSorts(regions, slots[..n - 1], gpa);
    }
  }

  lemma CollidesBoth(a: Region, b: Region)
    ensures Collides(a, b.gpa, b.uva, b.size) <==> Collides(b, a.gpa, a.uva, a.size)
  {}

  lemma InsertedOk(regions: seq<Region>, slots: seq<nat>, x: nat)
    requires SlotsOk(regions, slots) && x < |regions| && |slots| < SLOTS_MAX
    requires var r := regions[x]; forall i :: 0 <= i < |slots| ==> !Collides(regions[slots[i]], r.gpa, r.uva, r.size)
    ensures SlotsOk(regions, Inserted(slots, Position(regions, slots, regions[x].gpa), x))
  {
    hide Collides, Position, Inserted;
    var r := regions[x];
    PositionSorts(regions, slots, r.gpa);
    var p := Position(regions, slots, r.gpa);
    var t := Inserted(slots, p, x);
    InsertedSize(slots, p, x);
    forall k | 0 <= k < |t| ensures t[k] < |regions| {
      InsertedAt(slots, p, x, k);
    }
    forall i, j | 0 <= i < j < |t| ensures Ordered(regions[t[i]], regions[t[j]]) {
      InsertedAt(slots, p, x, i);
      InsertedAt(slots, p, x, j);
      if i == p {
        CollidesBoth(r, regions[slots[j - 1]]);
      } else if j != p {
        assert Ordered(regions[t[i]], regions[t[j]]);
      }
    }
  }

  lemma InsertedSize(slots: seq<nat>, p: nat, x: nat)
    requires p <= |slots|
    ensures |Inserted(slots, p, x)| == |slots| + 1
  {}

  lemma InsertedAt(slots: seq<nat>, p: nat, x: nat, k: nat)
    requires p <= |slots| && k < |Inserted(slots, p, x)|
    ensures Inserted(slots, p, x)[k] == if k < p then slots[k] else if k == p then x else slots[k - 1]
  {}

  lemma GrownOk(regions: seq<Region>, r: Region, slots: seq<nat>)
    requires SlotsOk(regions, slots)
    ensures SlotsOk(regions + [r], slots)
  {}

  lemma {:induction false} SamePosition(regions: seq<Region>, r: Region, slots: seq<nat>, gpa: nat)
    requires InRange(slots, |regions|)
    ensures InRange(slots, |regions + [r]|) && Position(regions + [r], slots, gpa) == Position(regions, slots, gpa)
    decreases |slots|
  {
    if slots != [] { SamePosition(regions, r, slots[..|slots| - 1], gpa); }
  }

  /** Guest byte `a` and user byte `v` are in both regions. */
  predicate BothIn(q: Region, r: Region, a: nat, v: nat) {
    && q.gpa <= a < q.gpa + q.size && r.gpa <= a < r.gpa + r.size
    && q.uva <= v < q.uva + q.size && r.uva <= v < r.uva + r.size
  }

  /** No two slots of a map share both a guest byte and a user byte. */
  lemma SlotsShareNoByte(regions: seq<Region>, slots: seq<nat>, i: nat, j: nat, a: nat, u: nat)
    requires SlotsOk(regions, slots) && i < j < |slots|
    ensures !BothIn(regions[slots[i]], regions[slots[j]], a, u)
  {
    assert Ordered(regions[slots[i]], regions[slots[j]]);
  }
}
