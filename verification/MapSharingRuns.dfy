/** Runs that show what the sharing of regions allows. */
module MapSharingRuns {
  import opened Sequences
  import opened MemMap
  import opened MapSharing

  lemma {:induction false} RunOn(s0: State, ls: seq<Label>, s: State, l: Label)
    requires Run(s0, ls, s) && Enabled(s, l)
    ensures Run(s0, ls + [l], Apply(s, l))
    decreases |ls|
  {
    hide Enabled, Apply;
    if ls == [] {
      assert Run(Apply(s, l), [], Apply(s, l));
      assert (ls + [l])[1..] == [];
    } else {
      RunOn(Apply(s0, ls[0]), ls[1..], s, l);
      assert (ls + [l])[1..] == ls[1..] + [l];
    }
  }

  lemma Next(s: State, l: Label)
    requires Reachable(s) && Enabled(s, l)
    ensures Reachable(Apply(s, l))
  {
    hide Enabled, Apply, Run, Init;
    var s0, ls :| Init(s0) && Run(s0, ls, s);
    RunOn(s0, ls, s, l);
  }

  // ----- one device and one request queue

  const IDLE := Thread([], Between)

  function None0(): Map {
    Map([], 0, 0)
  }

  lemma Begins() returns (s: State)
    ensures Reachable(s)
    ensures s == State([], [], [None0(), Map([], 1, 0)], [IDLE, IDLE], [Device(0, 0, false)], [], Editing(0, 1, true))
  {
    s := State([], [], [None0()], [IDLE, IDLE], [Device(0, 0, false)], [], Rest);
    assert Init(s) && Run(s, [], s);
    Next(s, BeginNew(0));
    s := Apply(s, BeginNew(0));
  }

  const A := Region(0, 0, 0x1000, 0x10000, 0)

  lemma AddsFirst() returns (s: State)
    ensures Reachable(s)
    ensures s == State([A], [Cell(1, true, true)], [None0(), Map([0], 1, 0)], [IDLE, IDLE],
                       [Device(0, 0, false)], [], Editing(0, 1, true))
  {
    s := Begins();
    var l := Lookup(0, 0, 0x1000, 0, 0x10000);
    Next(s, l);
    assert [] + [A] == [A];
    assert WithSlot([A], Map([], 1, 0), 0).slots == [0];
    s := Apply(s, l);
    assert s.regions == [A] && s.cells == [Cell(1, true, true)];
    assert s.maps == [None0(), Map([0], 1, 0)];
  }

  /** Next to the first in both address spaces. */
  const B := Region(0x1000, 0x1000, 0x1000, 0x20000, 1)

  /** At the same guest addresses as the first. */
  const C := Region(0, 0x1000, 0x1000, 0x20000, 1)

  const MAPPED := Cell(1, true, true)

  lemma SecondGoes(b: Region)
    requires b == B || b == C
    ensures InRange([0], 1) && Accepts([A], [0], b.gpa, b.uva, b.size) && Mappable([A], [MAPPED], b.ptr, b.size)
    ensures Cached([A], [MAPPED], b.gpa, b.uva, b.size, b.key).None?
    ensures InRange([0], 2) && WithSlot([A, b], Map([0], 1, 0), 1) == Map(if b == B then [0, 1] else [1, 0], 1, 0)
  {
    CachedIs([A], [MAPPED], b.gpa, b.uva, b.size, b.key);
    assert [0][..0] == [];
    assert Position([A, b], [0], b.gpa) == if b == B then 1 else 0;
  }

  lemma AddsSecond(b: Region) returns (s: State)
    requires b == B || b == C
    ensures Reachable(s) && s.maps == [None0(), Map(if b == B then [0, 1] else [1, 0], 1, 0)]
    ensures s == State([A, b], [MAPPED, MAPPED], s.maps, [IDLE, IDLE], [Device(0, 0, false)], [], Editing(0, 1, true))
  {
    hide Reachable, Cached, Accepts, Mappable, WithSlot;
    s := AddsFirst();
    SecondGoes(b);
    var l := Lookup(b.gpa, b.uva, b.size, b.key, b.ptr);
    Next(s, l);
    assert [A] + [b] == [A, b];
    s := Apply(s, l);
    assert s.cells == [MAPPED, MAPPED];
    assert s.maps == [None0(), WithSlot([A, b], Map([0], 1, 0), 1)];
  }

  /**
   * Two slots of one map may lie at the same guest addresses, and then no pointer into the later one
   * comes back from its guest address.
   */
  lemma GpaOverlapHappens() returns (s: State)
    ensures Reachable(s) && Shape(s) && |s.maps| == 2
    ensures var rs := Resolved(s, 1);
            && |rs| == 2 && !Apart(rs[0].gpa, rs[0].size, rs[1].gpa, rs[1].size)
            && forall ptr: nat :: HasPtr(rs[1], ptr) ==> GpaToPtr(rs, PtrToGpa(rs, ptr), 1) != Found(ptr)
  {
    hide Inv, Reachable, GpaToPtr, PtrToGpa, Enabled, Apply;
    s := AddsSecond(C);
    ReachableInv(s);
    ShapeOf(s);
    assert Resolved(s, 1) == [C, A];
    forall ptr: nat | HasPtr(A, ptr) ensures GpaToPtr([C, A], PtrToGpa([C, A], ptr), 1) != Found(ptr) {
      Hidden(ptr);
    }
  }

  lemma Hidden(ptr: nat)
    requires HasPtr(A, ptr)
    ensures var rs := [C, A]; GpaToPtr(rs, PtrToGpa(rs, ptr), 1) != Found(ptr)
  {
    var rs := [C, A];
    assert PtrsApart(C, A) && Laid(rs);
    PtrFound(rs, 1, ptr);
    assert HasGpa(rs[0], PtrToGpa(rs, ptr));
    PtrRoundTripIff(rs, 1, ptr);
  }

  // ----- a region taken on after its count went to zero

  function Cells(a: int, b: int): seq<Cell> {
    [Cell(a, true, true), Cell(b, true, true)]
  }

  lemma Starts() returns (s: State)
    ensures Reachable(s)
    ensures s == State([A, B], Cells(1, 1), [None0(), Map([0, 1], 1, 0)], [IDLE, IDLE], [Device(1, 0, true)], [], Rest)
  {
    hide Reachable;
    s := AddsSecond(B);
    Next(s, Commit);
    s := Apply(s, Commit);
    Next(s, Start(0));
    s := Apply(s, Start(0));
  }

  /** The first map is shown, a ring started, and a request fetched on the second region. */
  lemma Fetches() returns (s: State)
    ensures Reachable(s)
    ensures s == State([A, B], Cells(1, 1), [None0(), Map([0, 1], 2, 0)], [IDLE, IDLE], [Device(1, 0, true)],
                       [Req(0, 1, 1, [1])], Rest)
  {
    hide Reachable;
    s := Starts();
    assert 1 in s.maps[1].slots by { assert s.maps[1].slots[1] == 1; }
    Next(s, Fetch(0, 1, 1, [1]));
    s := Apply(s, Fetch(0, 1, 1, [1]));
    assert s.reqs == [Req(0, 1, 1, [1])];
  }

  lemma FirstIsCached()
    ensures Cached([A, B], Cells(1, 1), 0, 0, 0x1000, 0) == Found(0)
  {
    CachedIs([A, B], Cells(1, 1), 0, 0, 0x1000, 0);
  }

  /** A new table lists the first region alone. */
  lemma Retables() returns (s: State)
    ensures Reachable(s)
    ensures s == State([A, B], Cells(1, 1), [None0(), Map([0, 1], 2, 0), Map([], 1, 0)], [IDLE, IDLE],
                       [Device(1, 0, true)],
                       [Req(0, 1, 1, [1])], Taking(0, 2, true, 0))
  {
    s := Fetches();
    hide Reachable, Cached, Mappable, Position, Inserted;
    Next(s, BeginNew(0));
    s := Apply(s, BeginNew(0));
    FirstIsCached();
    var l := Lookup(0, 0, 0x1000, 0, 0);
    Next(s, l);
    s := Apply(s, l);
  }

  lemma FirstGoes()
    ensures InRange([], 2) && WithSlot([A, B], Map([], 1, 0), 0) == Map([0], 1, 0)
  {}

  lemma Supersedes() returns (s: State)
    ensures Reachable(s)
    ensures s == State([A, B], Cells(2, 1), [None0(), Map([0, 1], 1, 0), Map([0], 1, 0)], [IDLE, IDLE],
                       [Device(2, 0, true)],
                       [Req(0, 1, 1, [1])], Rest)
  {
    s := Retables();
    hide Reachable, WithSlot;
    Next(s, Take);
    FirstGoes();
    s := Apply(s, Take);
    assert s.cells == Cells(2, 1);
    Next(s, Commit);
    s := Apply(s, Commit);
    Next(s, DropOld(0));
    s := Apply(s, DropOld(0));
    assert s.threads == [IDLE, IDLE];
  }

  /** The request's free drops the first map, and with it the last reference to the second region. */
  lemma Frees() returns (s: State)
    ensures Reachable(s)
    ensures s == State([A, B], Cells(1, 0), [None0(), Map([], 0, 0), Map([0], 1, 0)], [IDLE, Thread([], Unlinking(1))],
                       [Device(2, 0, true)], [], Rest)
  {
    hide Reachable;
    s := DropsFirst();
    Next(s, Unref(1));
    assert [1][1..] == [];
    s := Apply(s, Unref(1));
    assert s.cells == Cells(1, 0);
  }

  lemma DropsMap() returns (s: State)
    ensures Reachable(s)
    ensures s == State([A, B], Cells(2, 1), [None0(), Map([], 0, 0), Map([0], 1, 0)], [IDLE, Thread([0, 1], Between)],
                       [Device(2, 0, true)], [], Rest)
  {
    hide Reachable;
    s := Supersedes();
    Next(s, Free(0));
    s := Apply(s, Free(0));
  }

  lemma DropsFirst() returns (s: State)
    ensures Reachable(s)
    ensures s == State([A, B], Cells(1, 1), [None0(), Map([], 0, 0), Map([0], 1, 0)], [IDLE, Thread([1], Between)],
                       [Device(2, 0, true)], [], Rest)
  {
    hide Reachable;
    s := DropsMap();
    Next(s, Unref(1));
    assert [0, 1][1..] == [1];
    s := Apply(s, Unref(1));
    assert s.cells == Cells(1, 1);
  }

  lemma SecondIsCached()
    ensures Cached([A, B], Cells(2, 0), B.gpa, B.uva, B.size, B.key) == Found(1)
    ensures InRange([0], 2) && Accepts([A, B], [0], B.gpa, B.uva, B.size)
  {
    CachedIs([A, B], Cells(2, 0), B.gpa, B.uva, B.size, B.key);
  }

  lemma Copies() returns (s: State)
    ensures Reachable(s)
    ensures s == State([A, B], Cells(2, 0), [None0(), Map([], 0, 0), Map([0], 1, 0), Map([0], 1, 0)],
                       [IDLE, Thread([], Unlinking(1))], [Device(2, 0, true)], [], Editing(0, 3, true))
  {
    hide Reachable, Counted;
    s := Frees();
    Next(s, BeginCopy(0));
    s := Apply(s, BeginCopy(0));
    CountedFirst();
  }

  lemma CountedFirst()
    ensures Counted(Cells(1, 0), [0]) == Cells(2, 0)
  {
    assert Occ<nat>([0], 0) == 1 && Occ<nat>([0], 1) == 0;
  }

  /** Meanwhile the second region is added again, and found. */
  lemma Finds() returns (s: State)
    ensures Reachable(s) && Revives(s, Take)
    ensures s == State([A, B], Cells(2, 0), [None0(), Map([], 0, 0), Map([0], 1, 0), Map([0], 1, 0)],
                       [IDLE, Thread([], Unlinking(1))], [Device(2, 0, true)], [], Taking(0, 3, true, 1))
  {
    hide Reachable, Cached, Accepts, Mappable;
    s := Copies();
    SecondIsCached();
    var l := Lookup(B.gpa, B.uva, B.size, B.key, B.ptr);
    Next(s, l);
    s := Apply(s, l);
  }

  lemma Takes() returns (s: State)
    ensures Reachable(s)
    ensures s == State([A, B], Cells(2, 1), [None0(), Map([], 0, 0), Map([0], 1, 0), Map([0, 1], 1, 0)],
                       [IDLE, Thread([], Unlinking(1))], [Device(3, 2, true)], [], Rest)
  {
    hide Reachable, WithSlot;
    s := Finds();
    Next(s, Take);
    SecondGoes(B);
    s := Apply(s, Take);
    assert s.cells == Cells(2, 1);
    Next(s, Commit);
    s := Apply(s, Commit);
  }

  /** The current map of a device whose rings are in flight holds a region that is unmapped. */
  lemma RevivalHappens() returns (s: State)
    ensures Reachable(s) && s.devs == [Device(3, 2, true)]
    ensures |s.maps| == 4 && s.maps[3] == Map([0, 1], 1, 0) && |s.cells| == 2 && !s.cells[1].mapped
  {
    hide Reachable;
    s := Takes();
    Next(s, Unlink(1));
    s := Apply(s, Unlink(1));
    Next(s, Unmap(1));
    s := Apply(s, Unmap(1));
  }
}
