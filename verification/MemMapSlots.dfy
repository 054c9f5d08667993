/** The array of slots of one memory map, updated in place. */
module MemMapSlots {
  import opened Sequences
  import opened MemMap

  class MemoryMap {
    const slots: array<nat>
    var num: nat

    ghost predicate Valid()
      reads this
    {
      slots.Length == SLOTS_MAX && num <= SLOTS_MAX
    }

    ghost function Contents(): seq<nat>
      requires Valid()
      reads this, slots
    {
      slots[..num]
    }

    constructor ()
      ensures Valid() && fresh(slots) && Contents() == []
    {
      slots := new nat[SLOTS_MAX];
      num := 0;
    }

    /** Does a new slot collide with one of the map? */
    method Collision(regions: seq<Region>, gpa: nat, uva: nat, size: nat) returns (hit: bool)
      requires Valid() && InRange(Contents(), |regions|)
      ensures hit <==> exists i :: 0 <= i < num && Collides(regions[Contents()[i]], gpa, uva, size)
    {
      ghost var s := Contents();
      var i := 0;
      while i < num
        invariant i <= num && forall k :: 0 <= k < i ==> !Collides(regions[s[k]], gpa, uva, size)
      {
        assert slots[i] == s[i];
        if Collides(regions[slots[i]], gpa, uva, size) { return true; }
        i := i + 1;
      }
      return false;
    }

    method FindPosition(regions: seq<Region>, gpa: nat) returns (i: nat)
      requires Valid() && InRange(Contents(), |regions|)
      ensures i == Position(regions, Contents(), gpa)
    {
      ghost var s := Contents();
      i := num;
      assert s[..i] == s;
      while i > 0
        invariant i <= num && Position(regions, s[..i], gpa) == Position(regions, s, gpa)
      {
        assert slots[i - 1] == s[..i][i - 1];
        if regions[slots[i - 1]].gpa < gpa { break; }
        assert s[..i][..i - 1] == s[..i - 1];
        i := i - 1;
      }
    }

    /** Move the tail up and store. */
    method Insert(i: nat, r: nat)
      requires Valid() && i <= num < SLOTS_MAX
      modifies this, slots
      ensures Valid() && Contents() == Inserted(old(Contents()), i, r)
    {
      ghost var was, n := slots[..], num;
      var j := num;
      while j > i
        invariant num == n && i <= j <= num
        invariant forall k :: 0 <= k <= j && k < slots.Length ==> slots[k] == was[k]
        invariant forall k :: j < k <= num ==> slots[k] == was[k - 1]
      {
        slots[j] := slots[j - 1];
        j := j - 1;
      }
      slots[i] := r;
      num := num + 1;
      assert Contents() == Inserted(was[..num - 1], i, r);
    }

    /** Move the tail down. */
    method Remove(i: nat)
      requires Valid() && i < num
      modifies this, slots
      ensures Valid() && Contents() == RemovedAt(old(Contents()), i)
    {
      ghost var was, n := slots[..], num - 1;
      num := num - 1;
      var j := i;
      while j < num
        invariant num == n && i <= j <= num < slots.Length
        invariant forall k :: 0 <= k < i ==> slots[k] == was[k]
        invariant forall k :: i <= k < j ==> slots[k] == was[k + 1]
        invariant forall k :: j <= k <= num ==> slots[k] == was[k]
      {
        slots[j] := slots[j + 1];
        j := j + 1;
      }
      assert Contents() == RemovedAt(was[..num + 1], i);
    }

    /** Put region `r`, cached or newly mapped, in its place, unless the slot is not acceptable. */
    method AddSlot(regions: seq<Region>, gpa: nat, uva: nat, size: nat, r: nat) returns (ok: bool)
      requires Valid() && InRange(Contents(), |regions|)
      modifies this, slots
      ensures Valid() && (ok <==> Accepts(regions, old(Contents()), gpa, uva, size))
      ensures Contents() == if ok then Inserted(old(Contents()), Position(regions, old(Contents()), gpa), r)
                            else old(Contents())
    {
      if (gpa + size) % U64 < gpa || (uva + size) % U64 < uva || num == SLOTS_MAX {
        return false;
      }
      var hit := Collision(regions, gpa, uva, size);
      if hit { return false; }
      var i := FindPosition(regions, gpa);
      Insert(i, r);
      return true;
    }

    /** Drop the first slot with these addresses. */
    method DelSlot(regions: seq<Region>, gpa: nat, uva: nat, size: nat) returns (ok: bool)
      requires Valid() && InRange(Contents(), |regions|)
      modifies this, slots
      ensures Valid()
      ensures var i := Slot(regions, old(Contents()), gpa, uva, size);
              && (ok <==> i < |old(Contents())|)
              && Contents() == if ok then RemovedAt(old(Contents()), i) else old(Contents())
    {
      ghost var s := Contents();
      var i := 0;
      assert s[i..] == s;
      while i < num
        invariant i <= num && s == Contents() && InRange(s[i..], |regions|)
        invariant Slot(regions, s, gpa, uva, size) == i + Slot(regions, s[i..], gpa, uva, size)
      {
        assert slots[i] == s[i..][0];
        var reg := regions[slots[i]];
        if reg.gpa == gpa && reg.uva == uva && reg.size == size { break; }
        assert s[i..][1..] == s[i + 1..];
        i := i + 1;
      }
      if i == num { return false; }
      Remove(i);
      return true;
    }
  }
}
