/**
 * Memory maps of several devices over regions they share, while request queue threads drop the last
 * references to superseded maps.
 *
 * Dropping a region is three accesses without a lock: its count goes to zero, it leaves the list
 * lookups walk, its memory is unmapped.  A lookup is two: it finds a listed region, then takes a
 * reference without asking whether any is left.
 */
module MapSharing {
  import opened Sequences
  import opened MemMap

  // ----- data

  /** A region's count, whether lookups see it and whether its memory is mapped. */
  datatype Cell = Cell(refs: int, linked: bool, mapped: bool)

  /** A map of one device holds regions by number; one no longer referenced holds none. */
  datatype Map = Map(slots: seq<nat>, refs: int, owner: nat)

  /** Between two regions, or in the middle of releasing one. */
  datatype ReleasePc = Between | Unlinking(r: nat) | Unmapping(r: nat)

  /** A thread and the regions of a map it dropped that it has still to drop. */
  datatype Thread = Thread(todo: seq<nat>, pc: ReleasePc)

  /** Its current and its superseded map, 0 for none; `live` while rings are in flight. */
  datatype Device = Device(cur: nat, prev: nat, live: bool)

  /** A request of a device, the map it was fetched under, its thread and the regions of its buffers. */
  datatype Req = Req(d: nat, m: nat, t: nat, rs: seq<nat>)

  /**
   * The control loop edits a map of its own making (`own`) or the current map of a device in place;
   * in the middle of an addition it has found a region to share.
   */
  datatype Ctl = Rest | Editing(d: nat, m: nat, own: bool) | Taking(d: nat, m: nat, own: bool, r: nat)

  /** Thread 0 is the control loop's; maps are numbered from 1. */
  datatype State = State(
    regions: seq<Region>,
    cells: seq<Cell>,
    maps: seq<Map>,
    threads: seq<Thread>,
    devs: seq<Device>,
    reqs: seq<Req>,
    ctl: Ctl)

  // ----- steps

  datatype Label =
    | BeginNew(d: nat)
    | BeginCopy(d: nat)
    | BeginInPlace(d: nat)
    | Lookup(gpa: nat, uva: nat, size: nat, key: nat, ptr: nat)
    | Take
    | DelSlot(gpa: nat, uva: nat, size: nat)
    | Commit
    | Abort
    | EndInPlace
    | DropOld(d: nat)
    | Cleanup(d: nat)
    | Start(d: nat)
    | Drain(d: nat)
    | Fetch(d: nat, m: nat, t: nat, rs: seq<nat>)
    | Free(k: nat)
    | Unref(t: nat)
    | Unlink(t: nat)
    | Unmap(t: nat)

  predicate Idle(th: Thread) {
    th.todo == [] && th.pc.Between?
  }

  /** The control loop is not in the middle of a release. */
  predicate CtlFree(s: State) {
    |s.threads| > 0 && Idle(s.threads[0])
  }

  /** Nor in the middle of a message. */
  predicate AtRest(s: State) {
    CtlFree(s) && s.ctl.Rest?
  }

  predicate SameKey(r: Region, gpa: nat, uva: nat, size: nat, key: nat) {
    r.gpa == gpa && r.uva == uva && r.size == size && r.key == key
  }

  /** The newest listed region with the same identity. */
  function Cached(regions: seq<Region>, cells: seq<Cell>, gpa: nat, uva: nat, size: nat, key: nat): Option<nat>
    requires |cells| == |regions|
  {
    if regions == [] then None
    else
      var k := |regions| - 1;
      if cells[k].linked && SameKey(regions[k], gpa, uva, size, key) then Found(k)
      else Cached(regions[..k], cells[..k], gpa, uva, size, key)
  }

  /** What the operating system gives: a mapping apart from all others, of a size that fits. */
  ghost predicate Mappable(regions: seq<Region>, cells: seq<Cell>, ptr: nat, size: nat)
    requires |cells| == |regions|
  {
    && 0 < size < SIZE_MAX && ptr + size < U64
    && (forall r :: 0 <= r < |regions| && cells[r].mapped ==> Apart(regions[r].ptr, regions[r].size, ptr, size))
  }

  ghost predicate ThreadFits(th: Thread, n: nat) {
    InRange(th.todo, n) && (th.pc.Between? || th.pc.r < n)
  }

  predicate CtlFits(ctl: Ctl, devs: nat, maps: nat, regions: nat) {
    match ctl
    case Rest => true
    case Editing(d, m, _) => d < devs && m < maps
    case Taking(d, m, _, r) => d < devs && m < maps && r < regions
  }

  ghost predicate Shape(s: State) {
    && |s.cells| == |s.regions| && |s.threads| > 0 && |s.maps| > 0
    && (forall m :: 0 <= m < |s.maps| ==> InRange(s.maps[m].slots, |s.regions|))
    && (forall t :: 0 <= t < |s.threads| ==> ThreadFits(s.threads[t], |s.regions|))
    && (forall d :: 0 <= d < |s.devs| ==> s.devs[d].cur < |s.maps| && s.devs[d].prev < |s.maps|)
    && (forall k :: 0 <= k < |s.reqs| ==> s.reqs[k].m < |s.maps| && s.reqs[k].t < |s.threads|)
    && CtlFits(s.ctl, |s.devs|, |s.maps|, |s.regions|)
  }

  predicate CanBegin(s: State, d: nat) {
    AtRest(s) && d < |s.devs| && s.devs[d].prev == 0
  }

  /**
   * What Lifecycle proves of the device is used here: a message begins with no superseded map left,
   * rings fetch under the current or the superseded map, and rings leave flight with no request out.
   */
  ghost predicate Enabled(s: State, l: Label) {
    Shape(s) &&
    match l
    case BeginNew(d) => CanBegin(s, d)
    case BeginCopy(d) => CanBegin(s, d) && s.devs[d].cur != 0
    case BeginInPlace(d) => CanBegin(s, d) && s.devs[d].cur != 0 && !s.devs[d].live
    case Lookup(gpa, uva, size, key, ptr) =>
      && CtlFree(s) && s.ctl.Editing? && gpa < U64 && uva < U64 && size < U64
      && (Cached(s.regions, s.cells, gpa, uva, size, key).Found? || Mappable(s.regions, s.cells, ptr, size))
    case Take => s.ctl.Taking?
    case DelSlot(_, _, _) => CtlFree(s) && s.ctl.Editing? && s.ctl.own
    case Commit => CtlFree(s) && s.ctl.Editing? && s.ctl.own
    case Abort => CtlFree(s) && s.ctl.Editing? && s.ctl.own
    case EndInPlace => CtlFree(s) && s.ctl.Editing? && !s.ctl.own
    case DropOld(d) => AtRest(s) && d < |s.devs| && s.devs[d].prev != 0
    case Cleanup(d) => AtRest(s) && d < |s.devs| && s.devs[d].cur != 0 && !s.devs[d].live
    case Start(d) => AtRest(s) && d < |s.devs| && s.devs[d].cur != 0
    case Drain(d) => AtRest(s) && d < |s.devs| && forall k :: 0 <= k < |s.reqs| ==> s.reqs[k].d != d
    case Fetch(d, m, t, rs) =>
      && d < |s.devs| && s.devs[d].live && m != 0 && (m == s.devs[d].cur || m == s.devs[d].prev)
      && 0 < t < |s.threads| && Idle(s.threads[t])
      && (forall i :: 0 <= i < |rs| ==> rs[i] in s.maps[m].slots)
    case Free(k) => k < |s.reqs| && Idle(s.threads[s.reqs[k].t])
    case Unref(t) => t < |s.threads| && s.threads[t].pc.Between? && s.threads[t].todo != []
    case Unlink(t) => t < |s.threads| && s.threads[t].pc.Unlinking?
    case Unmap(t) => t < |s.threads| && s.threads[t].pc.Unmapping?
  }

  /** Count every region of a list once more for each time it occurs. */
  function Counted(cells: seq<Cell>, slots: seq<nat>): seq<Cell> {
    seq(|cells|, r requires 0 <= r < |cells| => cells[r].(refs := cells[r].refs + Occ<nat>(slots, r)))
  }

  /** The last reference to a map hands its regions to the thread that dropped it. */
  function Dropped(x: Map): Map {
    if x.refs == 1 then Map([], 0, x.owner) else x.(refs := x.refs - 1)
  }

  function Handed(x: Map): seq<nat> {
    if x.refs == 1 then x.slots else []
  }

  function PutMap(s: State, m: nat, t: nat): State
    requires m < |s.maps| && t < |s.threads|
  {
    s.(maps := s.maps[m := Dropped(s.maps[m])], threads := s.threads[t := s.threads[t].(todo := Handed(s.maps[m]))])
  }

  ghost function WithSlot(regions: seq<Region>, x: Map, r: nat): Map
    requires r < |regions| && InRange(x.slots, |regions|)
  {
    x.(slots := Inserted(x.slots, Position(regions, x.slots, regions[r].gpa), r))
  }

  /** Find a region to share, or map a new one and list it. */
  ghost function LookedUp(s: State, gpa: nat, uva: nat, size: nat, key: nat, ptr: nat): State
    requires Shape(s) && s.ctl.Editing?
  {
    var m := s.ctl.m;
    match Cached(s.regions, s.cells, gpa, uva, size, key)
    case Found(r) => s.(ctl := Taking(s.ctl.d, m, s.ctl.own, r))
    case None =>
      var regions := s.regions + [Region(gpa, uva, size, ptr, key)];
      s.(regions := regions, cells := s.cells + [Cell(1, true, true)],
         maps := s.maps[m := WithSlot(regions, s.maps[m], |s.regions|)])
  }

  ghost function Taken(s: State): State
    requires Shape(s) && s.ctl.Taking?
  {
    var m, r := s.ctl.m, s.ctl.r;
    s.(cells := s.cells[r := s.cells[r].(refs := s.cells[r].refs + 1)],
       maps := s.maps[m := WithSlot(s.regions, s.maps[m], r)],
       ctl := Editing(s.ctl.d, m, s.ctl.own))
  }

  ghost function Deleted(s: State, i: nat): State
    requires Shape(s) && s.ctl.Editing? && i < |s.maps[s.ctl.m].slots|
  {
    var x := s.maps[s.ctl.m];
    s.(maps := s.maps[s.ctl.m := x.(slots := RemovedAt(x.slots, i))],
       threads := s.threads[0 := s.threads[0].(todo := [x.slots[i]])])
  }

  function Unreffed(s: State, t: nat): State
    requires t < |s.threads| && s.threads[t].todo != [] && s.threads[t].todo[0] < |s.cells|
  {
    var r := s.threads[t].todo[0];
    var n := s.cells[r].refs - 1;
    s.(cells := s.cells[r := s.cells[r].(refs := n)],
       threads := s.threads[t := Thread(s.threads[t].todo[1..], if n == 0 then Unlinking(r) else Between)])
  }

  ghost function Apply(s: State, l: Label): State
    requires Enabled(s, l)
  {
    match l
    case BeginNew(d) => s.(maps := s.maps + [Map([], 1, d)], ctl := Editing(d, |s.maps|, true))
    case BeginCopy(d) =>
      var slots := s.maps[s.devs[d].cur].slots;
      s.(cells := Counted(s.cells, slots), maps := s.maps + [Map(slots, 1, d)], ctl := Editing(d, |s.maps|, true))
    case BeginInPlace(d) => s.(ctl := Editing(d, s.devs[d].cur, false))
    case Lookup(gpa, uva, size, key, ptr) =>
      if Accepts(s.regions, s.maps[s.ctl.m].slots, gpa, uva, size) then LookedUp(s, gpa, uva, size, key, ptr) else s
    case Take => Taken(s)
    case DelSlot(gpa, uva, size) =>
      var slots := s.maps[s.ctl.m].slots;
      var i := Slot(s.regions, slots, gpa, uva, size);
      if i < |slots| then Deleted(s, i) else s
    case Commit =>
      var d := s.ctl.d;
      s.(devs := s.devs[d := Device(s.ctl.m, s.devs[d].cur, s.devs[d].live)], ctl := Rest)
    case Abort => PutMap(s.(ctl := Rest), s.ctl.m, 0)
    case EndInPlace => s.(ctl := Rest)
    case DropOld(d) => PutMap(s.(devs := s.devs[d := s.devs[d].(prev := 0)]), s.devs[d].prev, 0)
    case Cleanup(d) => PutMap(s.(devs := s.devs[d := s.devs[d].(cur := 0)]), s.devs[d].cur, 0)
    case Start(d) => s.(devs := s.devs[d := s.devs[d].(live := true)])
    case Drain(d) => s.(devs := s.devs[d := s.devs[d].(live := false)])
    case Fetch(d, m, t, rs) =>
      s.(reqs := s.reqs + [Req(d, m, t, rs)], maps := s.maps[m := s.maps[m].(refs := s.maps[m].refs + 1)])
    case Free(k) => PutMap(s.(reqs := RemovedAt(s.reqs, k)), s.reqs[k].m, s.reqs[k].t)
    case Unref(t) => Unreffed(s, t)
    case Unlink(t) =>
      var r := s.threads[t].pc.r;
      s.(cells := s.cells[r := s.cells[r].(linked := false)],
         threads := s.threads[t := s.threads[t].(pc := Unmapping(r))])
    case Unmap(t) =>
      var r := s.threads[t].pc.r;
      s.(cells := s.cells[r := s.cells[r].(mapped := false)], threads := s.threads[t := s.threads[t].(pc := Between)])
  }

  ghost predicate Init(s: State) {
    && s.regions == [] && s.cells == [] && s.maps == [Map([], 0, 0)] && s.reqs == [] && s.ctl.Rest? && |s.threads| > 0
    && (forall t :: 0 <= t < |s.threads| ==> Idle(s.threads[t]))
    && (forall d :: 0 <= d < |s.devs| ==> s.devs[d] == Device(0, 0, false))
  }

  // ----- the invariant

  function Held(maps: seq<Map>, r: nat): nat {
    if maps == [] then 0 else Occ(maps[0].slots, r) + Held(maps[1..], r)
  }

  function Owed(threads: seq<Thread>, r: nat): nat {
    if threads == [] then 0 else Occ(threads[0].todo, r) + Owed(threads[1..], r)
  }

  /** A region's count is the slots of live maps and the drops threads still owe. */
  ghost predicate CountInv(cells: seq<Cell>, maps: seq<Map>, threads: seq<Thread>) {
    forall r: nat :: r < |cells| ==> cells[r].refs == Held(maps, r) + Owed(threads, r)
  }

  function MapsOf(reqs: seq<Req>): seq<nat> {
    seq(|reqs|, k requires 0 <= k < |reqs| => reqs[k].m)
  }

  predicate Builds(ctl: Ctl, m: nat) {
    !ctl.Rest? && ctl.own && ctl.m == m
  }

  /** A map's count is its device, its requests and the control loop while it builds it. */
  function Holders(m: nat, dev: Device, reqs: seq<Req>, ctl: Ctl): nat {
    One(dev.cur == m) + One(dev.prev == m) + Occ(MapsOf(reqs), m) + One(Builds(ctl, m))
  }

  ghost predicate MapOk(m: nat, x: Map, devs: seq<Device>, reqs: seq<Req>, ctl: Ctl) {
    && x.owner < |devs| && x.refs == Holders(m, devs[x.owner], reqs, ctl)
    && (x.refs == 0 ==> x.slots == [])
  }

  ghost predicate UseInv(maps: seq<Map>, devs: seq<Device>, reqs: seq<Req>, ctl: Ctl) {
    && |maps| > 0 && maps[0] == Map([], 0, 0)
    && (forall m: nat :: 0 < m < |maps| ==> MapOk(m, maps[m], devs, reqs, ctl))
  }

  ghost predicate DevOk(d: nat, dev: Device, maps: seq<Map>) {
    && (dev.cur != 0 ==> dev.cur < |maps| && maps[dev.cur].owner == d)
    && (dev.prev != 0 ==> dev.prev < |maps| && maps[dev.prev].owner == d && dev.prev != dev.cur)
  }

  ghost predicate DevInv(maps: seq<Map>, devs: seq<Device>) {
    forall d: nat :: d < |devs| ==> DevOk(d, devs[d], maps)
  }

  /** A request's device is in flight, and its regions are slots of its map, which nobody builds any more. */
  ghost predicate ReqOk(q: Req, maps: seq<Map>, devs: seq<Device>, ctl: Ctl, threads: nat) {
    && 0 < q.m < |maps| && maps[q.m].owner == q.d && q.d < |devs| && devs[q.d].live && 0 < q.t < threads
    && (forall i :: 0 <= i < |q.rs| ==> q.rs[i] in maps[q.m].slots)
    && !Builds(ctl, q.m)
  }

  ghost predicate ReqInv(maps: seq<Map>, devs: seq<Device>, reqs: seq<Req>, ctl: Ctl, threads: nat) {
    forall k :: 0 <= k < |reqs| ==> ReqOk(reqs[k], maps, devs, ctl, threads)
  }

  /** The map being edited: its own, not yet shown to anyone, or one of a device without requests. */
  ghost predicate CtlInv(regions: seq<Region>, maps: seq<Map>, devs: seq<Device>, ctl: Ctl) {
    CtlFits(ctl, |devs|, |maps|, |regions|) && (!ctl.Rest? ==>
      && ctl.m != 0 && maps[ctl.m].owner == ctl.d && devs[ctl.d].prev == 0
      && (if ctl.own then ctl.m != devs[ctl.d].cur else ctl.m == devs[ctl.d].cur && !devs[ctl.d].live)
      && (ctl.Taking? ==> Room(regions, maps[ctl.m].slots, ctl.r)))
  }

  /** A region would go into the slots. */
  ghost predicate Room(regions: seq<Region>, slots: seq<nat>, r: nat) {
    && r < |regions| && InRange(slots, |regions|) && |slots| < SLOTS_MAX
    && (forall i :: 0 <= i < |slots| ==> !Collides(regions[slots[i]], regions[r].gpa, regions[r].uva, regions[r].size))
  }

  predicate Sized(r: Region) {
    0 < r.size < SIZE_MAX && r.gpa + r.size < U64 && r.uva + r.size < U64
  }

  /** Mapped regions lie apart. */
  ghost predicate RegionsInv(regions: seq<Region>, cells: seq<Cell>) {
    && |cells| == |regions|
    && (forall r :: 0 <= r < |regions| ==> Sized(regions[r]))
    && (forall q, r :: 0 <= q < r < |regions| && cells[q].mapped && cells[r].mapped ==>
          PtrsApart(regions[q], regions[r]))
  }

  ghost predicate MapsInv(regions: seq<Region>, maps: seq<Map>) {
    forall m :: 0 <= m < |maps| ==> SlotsOk(regions, maps[m].slots)
  }

  ghost predicate ThreadsInv(threads: seq<Thread>, n: nat) {
    |threads| > 0 && forall t :: 0 <= t < |threads| ==> ThreadFits(threads[t], n)
  }

  predicate Releases(th: Thread, r: nat) {
    th.pc == Unlinking(r) || th.pc == Unmapping(r)
  }

  ghost predicate Dying(threads: seq<Thread>, r: nat) {
    exists t :: 0 <= t < |threads| && Releases(threads[t], r)
  }

  /** Unmapped, or about to be by a thread that took its count to zero. */
  ghost predicate Doomed(c: Cell, threads: seq<Thread>, r: nat) {
    !c.mapped || Dying(threads, r)
  }

  /** What nobody holds is released. */
  ghost predicate LifeInv(cells: seq<Cell>, threads: seq<Thread>) {
    forall r: nat :: r < |cells| && cells[r].refs == 0 ==> Doomed(cells[r], threads, r)
  }

  ghost predicate Inv(s: State) {
    && CountInv(s.cells, s.maps, s.threads)
    && UseInv(s.maps, s.devs, s.reqs, s.ctl)
    && DevInv(s.maps, s.devs)
    && ReqInv(s.maps, s.devs, s.reqs, s.ctl, |s.threads|)
    && CtlInv(s.regions, s.maps, s.devs, s.ctl)
    && RegionsInv(s.regions, s.cells)
    && MapsInv(s.regions, s.maps)
    && ThreadsInv(s.threads, |s.regions|)
    && LifeInv(s.cells, s.threads)
  }

  lemma ShapeOf(s: State)
    requires Inv(s)
    ensures Shape(s)
  {
    hide CountInv, UseInv, LifeInv, Room, SlotsOk;
    assert |s.maps| > 0 by { UsePositive(s.maps, s.devs, s.reqs, s.ctl); }
    forall m | 0 <= m < |s.maps| ensures InRange(s.maps[m].slots, |s.regions|) {
      assert SlotsOk(s.regions, s.maps[m].slots);
      SlotsInRange(s.regions, s.maps[m].slots);
    }
  }

  lemma UsePositive(maps: seq<Map>, devs: seq<Device>, reqs: seq<Req>, ctl: Ctl)
    requires UseInv(maps, devs, reqs, ctl)
    ensures |maps| > 0
  {}

  lemma SlotsInRange(regions: seq<Region>, slots: seq<nat>)
    requires SlotsOk(regions, slots)
    ensures InRange(slots, |regions|)
  {}

  // ----- what is held

  lemma {:induction false} OccAbsent(slots: seq<nat>, n: nat, r: nat)
    requires InRange(slots, n) && r >= n
    ensures Occ(slots, r) == 0
  {
    if slots != [] { OccAbsent(slots[1..], n, r); }
  }

  lemma {:induction false} HeldUpdate(maps: seq<Map>, m: nat, x: Map, r: nat)
    requires m < |maps|
    ensures Held(maps[m := x], r) == Held(maps, r) - Occ(maps[m].slots, r) + Occ(x.slots, r)
  {
    if m == 0 {
      assert maps[m := x][1..] == maps[1..];
    } else {
      assert maps[m := x][1..] == maps[1..][m - 1 := x];
      HeldUpdate(maps[1..], m - 1, x, r);
    }
  }

  lemma {:induction false} HeldAppend(maps: seq<Map>, x: Map, r: nat)
    ensures Held(maps + [x], r) == Held(maps, r) + Occ(x.slots, r)
  {
    if maps == [] {
      assert maps + [x] == [x];
    } else {
      assert (maps + [x])[1..] == maps[1..] + [x];
      HeldAppend(maps[1..], x, r);
    }
  }

  lemma {:induction false} HeldAtLeast(maps: seq<Map>, m: nat, r: nat)
    requires m < |maps|
    ensures Held(maps, r) >= Occ(maps[m].slots, r)
  {
    if m > 0 { HeldAtLeast(maps[1..], m - 1, r); }
  }

  lemma {:induction false} HeldSome(maps: seq<Map>, r: nat) returns (m: nat)
    requires Held(maps, r) > 0
    ensures m < |maps| && Occ(maps[m].slots, r) > 0
  {
    if Occ(maps[0].slots, r) > 0 {
      m := 0;
    } else {
      var k := HeldSome(maps[1..], r);
      m := k + 1;
    }
  }

  lemma {:induction false} HeldAbsent(maps: seq<Map>, n: nat, r: nat)
    requires r >= n && forall m :: 0 <= m < |maps| ==> InRange(maps[m].slots, n)
    ensures Held(maps, r) == 0
  {
    if maps != [] {
      OccAbsent(maps[0].slots, n, r);
      HeldAbsent(maps[1..], n, r);
    }
  }

  lemma {:induction false} OwedUpdate(threads: seq<Thread>, t: nat, th: Thread, r: nat)
    requires t < |threads|
    ensures Owed(threads[t := th], r) == Owed(threads, r) - Occ(threads[t].todo, r) + Occ(th.todo, r)
  {
    if t == 0 {
      assert threads[t := th][1..] == threads[1..];
    } else {
      assert threads[t := th][1..] == threads[1..][t - 1 := th];
      OwedUpdate(threads[1..], t - 1, th, r);
    }
  }

  lemma {:induction false} OwedAbsent(threads: seq<Thread>, n: nat, r: nat)
    requires r >= n && forall t :: 0 <= t < |threads| ==> ThreadFits(threads[t], n)
    ensures Owed(threads, r) == 0
  {
    if threads != [] {
      OccAbsent(threads[0].todo, n, r);
      OwedAbsent(threads[1..], n, r);
    }
  }

  lemma {:induction false} NothingOwed(threads: seq<Thread>, r: nat)
    requires forall t :: 0 <= t < |threads| ==> Idle(threads[t])
    ensures Owed(threads, r) == 0
  {
    if threads != [] { NothingOwed(threads[1..], r); }
  }

  // ----- holders of maps

  /** The holders of map `m` change by `n`, those of no other map do. */
  ghost predicate Shifts(maps: seq<Map>, devs: seq<Device>, reqs: seq<Req>, ctl: Ctl,
                         devs': seq<Device>, reqs': seq<Req>, ctl': Ctl, m: nat, n: int)
  {
    |devs'| == |devs| && forall k: nat :: 0 < k < |maps| && maps[k].owner < |devs| ==>
      Holders(k, devs'[maps[k].owner], reqs', ctl')
      == Holders(k, devs[maps[k].owner], reqs, ctl) + if k == m then n else 0
  }

  lemma UseShift(maps: seq<Map>, devs: seq<Device>, reqs: seq<Req>, ctl: Ctl,
                 devs': seq<Device>, reqs': seq<Req>, ctl': Ctl, m: nat, x: Map, n: int)
    requires UseInv(maps, devs, reqs, ctl) && Shifts(maps, devs, reqs, ctl, devs', reqs', ctl', m, n)
    requires 0 < m < |maps| && x.refs == maps[m].refs + n && x.owner == maps[m].owner && (x.refs == 0 ==> x.slots == [])
    ensures UseInv(maps[m := x], devs', reqs', ctl')
  {
    hide Holders;
    var maps' := maps[m := x];
    forall k: nat | 0 < k < |maps'| ensures MapOk(k, maps'[k], devs', reqs', ctl') {
      assert MapOk(k, maps[k], devs, reqs, ctl);
    }
  }

  lemma UseSame(maps: seq<Map>, devs: seq<Device>, reqs: seq<Req>, ctl: Ctl, devs': seq<Device>, reqs': seq<Req>,
                ctl': Ctl)
    requires UseInv(maps, devs, reqs, ctl) && Shifts(maps, devs, reqs, ctl, devs', reqs', ctl', 0, 0)
    ensures UseInv(maps, devs', reqs', ctl')
  {
    hide Holders;
    forall k: nat | 0 < k < |maps| ensures MapOk(k, maps[k], devs', reqs', ctl') {
      assert MapOk(k, maps[k], devs, reqs, ctl);
    }
  }

  lemma UseAppend(maps: seq<Map>, devs: seq<Device>, reqs: seq<Req>, ctl: Ctl, x: Map, threads: nat)
    requires UseInv(maps, devs, reqs, ctl) && DevInv(maps, devs) && ReqInv(maps, devs, reqs, ctl, threads) && ctl.Rest?
    requires x.refs == 1 && x.owner < |devs|
    ensures UseInv(maps + [x], devs, reqs, Editing(x.owner, |maps|, true))
  {
    var n: nat, maps' := |maps|, maps + [x];
    var ctl' := Editing(x.owner, n, true);
    forall k: nat | 0 < k < |maps'| ensures MapOk(k, maps'[k], devs, reqs, ctl') {
      if k < n {
        assert MapOk(k, maps[k], devs, reqs, ctl);
      } else {
        assert DevOk(x.owner, devs[x.owner], maps);
        OccAbsent(MapsOf(reqs), n, n);
      }
    }
  }

  lemma MapsOfAppend(reqs: seq<Req>, q: Req, k: nat)
    ensures Occ(MapsOf(reqs + [q]), k) == Occ(MapsOf(reqs), k) + One(k == q.m)
  {
    assert MapsOf(reqs + [q]) == MapsOf(reqs) + [q.m];
    OccAppend(MapsOf(reqs), q.m, k);
  }

  lemma MapsOfRemoved(reqs: seq<Req>, i: nat, k: nat)
    requires i < |reqs|
    ensures Occ(MapsOf(RemovedAt(reqs, i)), k) == Occ(MapsOf(reqs), k) - One(k == reqs[i].m)
  {
    assert MapsOf(RemovedAt(reqs, i)) == RemovedAt(MapsOf(reqs), i);
    OccRemovedAt(MapsOf(reqs), i, k);
  }

  lemma Unused(reqs: seq<Req>, m: nat, k: nat)
    requires Occ(MapsOf(reqs), m) == 0 && k < |reqs|
    ensures reqs[k].m != m
  {
    OccAt(MapsOf(reqs), k);
  }

  lemma {:induction false} NotUsing(ms: seq<nat>, m: nat)
    requires forall k :: 0 <= k < |ms| ==> ms[k] != m
    ensures Occ(ms, m) == 0
  {
    if ms != [] { NotUsing(ms[1..], m); }
  }

  /** The map being edited is held once, by its maker or by its device, and no request uses it. */
  lemma EditedOnce(s: State)
    requires Inv(s) && !s.ctl.Rest?
    ensures s.maps[s.ctl.m].refs == 1 && Occ(MapsOf(s.reqs), s.ctl.m) == 0
  {
    hide CountInv, RegionsInv, MapsInv, ThreadsInv, LifeInv, Room;
    var m := s.ctl.m;
    forall k | 0 <= k < |s.reqs| ensures MapsOf(s.reqs)[k] != m {
      assert ReqOk(s.reqs[k], s.maps, s.devs, s.ctl, |s.threads|);
    }
    NotUsing(MapsOf(s.reqs), m);
    assert MapOk(m, s.maps[m], s.devs, s.reqs, s.ctl);
  }

  // ----- beginning an edit

  lemma AppendFrame(maps: seq<Map>, devs: seq<Device>, reqs: seq<Req>, ctl: Ctl, threads: nat, x: Map)
    requires DevInv(maps, devs) && ReqInv(maps, devs, reqs, ctl, threads)
    ensures DevInv(maps + [x], devs) && ReqInv(maps + [x], devs, reqs, Editing(x.owner, |maps|, true), threads)
  {
    forall d: nat | d < |devs| ensures DevOk(d, devs[d], maps + [x]) {
      assert DevOk(d, devs[d], maps);
    }
    forall k | 0 <= k < |reqs| ensures ReqOk(reqs[k], maps + [x], devs, Editing(x.owner, |maps|, true), threads) {
      assert ReqOk(reqs[k], maps, devs, ctl, threads);
    }
  }

  lemma NewKeeps(s: State, d: nat)
    requires Inv(s) && Enabled(s, BeginNew(d))
    ensures Inv(Apply(s, BeginNew(d)))
  {
    hide UseInv, DevInv, ReqInv, RegionsInv, ThreadsInv, LifeInv, Shape, SlotsOk;
    var x := Map([], 1, d);
    forall r: nat | r < |s.cells| ensures s.cells[r].refs == Held(s.maps + [x], r) + Owed(s.threads, r) {
      HeldAppend(s.maps, x, r);
    }
    UseAppend(s.maps, s.devs, s.reqs, s.ctl, x, |s.threads|);
    AppendFrame(s.maps, s.devs, s.reqs, s.ctl, |s.threads|, x);
    DevFits(s, d);
    EmptySlotsOk(s.regions);
  }

  lemma EmptySlotsOk(regions: seq<Region>)
    ensures SlotsOk(regions, [])
  {}

  lemma DevFits(s: State, d: nat)
    requires DevInv(s.maps, s.devs) && d < |s.devs|
    ensures DevOk(d, s.devs[d], s.maps)
  {}

  lemma CopyCounts(cells: seq<Cell>, maps: seq<Map>, threads: seq<Thread>, x: Map)
    requires CountInv(cells, maps, threads) && LifeInv(cells, threads)
    ensures CountInv(Counted(cells, x.slots), maps + [x], threads) && LifeInv(Counted(cells, x.slots), threads)
  {
    hide Doomed;
    var cells' := Counted(cells, x.slots);
    forall r: nat | r < |cells'| ensures cells'[r].refs == Held(maps + [x], r) + Owed(threads, r) {
      HeldAppend(maps, x, r);
    }
    forall r: nat | r < |cells'| && cells'[r].refs == 0 ensures Doomed(cells'[r], threads, r) {
      assert cells'[r] == cells[r];
    }
  }

  lemma CountedRegions(regions: seq<Region>, cells: seq<Cell>, slots: seq<nat>)
    requires RegionsInv(regions, cells)
    ensures RegionsInv(regions, Counted(cells, slots))
  {}

  lemma CopyKeeps(s: State, d: nat)
    requires Inv(s) && Enabled(s, BeginCopy(d))
    ensures Inv(Apply(s, BeginCopy(d)))
  {
    hide CountInv, UseInv, DevInv, ReqInv, RegionsInv, ThreadsInv, LifeInv, Shape, SlotsOk, Counted;
    DevFits(s, d);
    var x := Map(s.maps[s.devs[d].cur].slots, 1, d);
    CopyCounts(s.cells, s.maps, s.threads, x);
    CountedRegions(s.regions, s.cells, x.slots);
    UseAppend(s.maps, s.devs, s.reqs, s.ctl, x, |s.threads|);
    AppendFrame(s.maps, s.devs, s.reqs, s.ctl, |s.threads|, x);
  }

  /** The control loop changes its place without making or showing a map. */
  lemma PlaceKeeps(s: State, ctl: Ctl)
    requires Inv(s) && CtlInv(s.regions, s.maps, s.devs, ctl) && forall m :: Builds(ctl, m) == Builds(s.ctl, m)
    ensures Inv(s.(ctl := ctl))
  {
    hide CountInv, DevInv, RegionsInv, ThreadsInv, LifeInv, MapsInv, CtlInv;
    assert Shifts(s.maps, s.devs, s.reqs, s.ctl, s.devs, s.reqs, ctl, 0, 0) by { hide UseInv, ReqInv; }
    UseSame(s.maps, s.devs, s.reqs, s.ctl, s.devs, s.reqs, ctl);
    hide UseInv;
    forall k | 0 <= k < |s.reqs| ensures ReqOk(s.reqs[k], s.maps, s.devs, ctl, |s.threads|) {
      assert ReqOk(s.reqs[k], s.maps, s.devs, s.ctl, |s.threads|);
    }
  }

  lemma InPlaceKeeps(s: State, d: nat)
    requires Inv(s) && Enabled(s, BeginInPlace(d))
    ensures Inv(Apply(s, BeginInPlace(d)))
  {
    hide CountInv, UseInv, DevInv, ReqInv, RegionsInv, ThreadsInv, LifeInv, MapsInv, Shape;
    DevFits(s, d);
    PlaceKeeps(s, Editing(d, s.devs[d].cur, false));
  }

  lemma EndKeeps(s: State)
    requires Inv(s) && Enabled(s, EndInPlace)
    ensures Inv(Apply(s, EndInPlace))
  {
    hide CountInv, UseInv, DevInv, ReqInv, RegionsInv, ThreadsInv, LifeInv, MapsInv, Shape;
    PlaceKeeps(s, Rest);
  }

  // ----- dropping a reference to a map

  lemma PutCounts(cells: seq<Cell>, maps: seq<Map>, threads: seq<Thread>, m: nat, t: nat)
    requires CountInv(cells, maps, threads) && m < |maps| && t < |threads| && threads[t].todo == []
    ensures CountInv(cells, maps[m := Dropped(maps[m])], threads[t := threads[t].(todo := Handed(maps[m]))])
  {
    forall r: nat | r < |cells|
      ensures cells[r].refs == Held(maps[m := Dropped(maps[m])], r)
                               + Owed(threads[t := threads[t].(todo := Handed(maps[m]))], r)
    {
      HeldUpdate(maps, m, Dropped(maps[m]), r);
      OwedUpdate(threads, t, threads[t].(todo := Handed(maps[m])), r);
    }
  }

  lemma SameDying(cells: seq<Cell>, threads: seq<Thread>, t: nat, todo: seq<nat>)
    requires LifeInv(cells, threads) && t < |threads|
    ensures LifeInv(cells, threads[t := threads[t].(todo := todo)])
  {
    var threads' := threads[t := threads[t].(todo := todo)];
    forall r: nat | r < |cells| && cells[r].refs == 0 ensures Doomed(cells[r], threads', r) {
      assert Doomed(cells[r], threads, r);
      if Dying(threads, r) {
        var u :| 0 <= u < |threads| && Releases(threads[u], r);
        assert Releases(threads'[u], r);
      }
    }
  }

  lemma PutFrame(maps: seq<Map>, devs: seq<Device>, reqs: seq<Req>, ctl: Ctl, threads: nat, m: nat)
    requires DevInv(maps, devs) && ReqInv(maps, devs, reqs, ctl, threads) && 0 < m < |maps|
    requires maps[m].refs == 1 ==> Occ(MapsOf(reqs), m) == 0
    ensures DevInv(maps[m := Dropped(maps[m])], devs) && ReqInv(maps[m := Dropped(maps[m])], devs, reqs, ctl, threads)
  {
    var maps' := maps[m := Dropped(maps[m])];
    forall d: nat | d < |devs| ensures DevOk(d, devs[d], maps') {
      assert DevOk(d, devs[d], maps);
    }
    forall k | 0 <= k < |reqs| ensures ReqOk(reqs[k], maps', devs, ctl, threads) {
      assert ReqOk(reqs[k], maps, devs, ctl, threads);
      if maps[m].refs == 1 { Unused(reqs, m, k); }
    }
  }

  lemma PutCtl(regions: seq<Region>, maps: seq<Map>, devs: seq<Device>, ctl: Ctl, m: nat)
    requires CtlInv(regions, maps, devs, ctl) && m < |maps| && (!ctl.Rest? ==> ctl.m != m)
    ensures CtlInv(regions, maps[m := Dropped(maps[m])], devs, ctl)
  {}

  /** No request is left on a map whose last holder goes. */
  lemma LastHolder(maps: seq<Map>, devs: seq<Device>, reqs: seq<Req>, ctl: Ctl,
                   devs': seq<Device>, reqs': seq<Req>, ctl': Ctl, m: nat)
    requires UseInv(maps, devs, reqs, ctl) && Shifts(maps, devs, reqs, ctl, devs', reqs', ctl', m, -1) && 0 < m < |maps|
    ensures maps[m].refs > 0 && (maps[m].refs == 1 ==> Occ(MapsOf(reqs'), m) == 0)
  {
    assert MapOk(m, maps[m], devs, reqs, ctl);
    assert Holders(m, devs'[maps[m].owner], reqs', ctl') == Holders(m, devs[maps[m].owner], reqs, ctl) - 1;
  }

  lemma PutThreads(regions: seq<Region>, maps: seq<Map>, threads: seq<Thread>, m: nat, t: nat)
    requires MapsInv(regions, maps) && ThreadsInv(threads, |regions|) && m < |maps| && t < |threads|
    ensures MapsInv(regions, maps[m := Dropped(maps[m])])
    ensures ThreadsInv(threads[t := threads[t].(todo := Handed(maps[m]))], |regions|)
  {
    assert SlotsOk(regions, maps[m].slots);
    assert ThreadFits(threads[t], |regions|);
  }

  lemma PutKeeps(s: State, devs: seq<Device>, reqs: seq<Req>, ctl: Ctl, m: nat, t: nat)
    requires Inv(s) && 0 < m < |s.maps| && t < |s.threads| && Idle(s.threads[t])
    requires Shifts(s.maps, s.devs, s.reqs, s.ctl, devs, reqs, ctl, m, -1)
    requires DevInv(s.maps, devs) && ReqInv(s.maps, devs, reqs, ctl, |s.threads|)
    requires CtlInv(s.regions, s.maps, devs, ctl) && (!ctl.Rest? ==> ctl.m != m)
    ensures Inv(PutMap(s.(devs := devs, reqs := reqs, ctl := ctl), m, t))
  {
    hide CountInv, UseInv, DevInv, ReqInv, CtlInv, RegionsInv, MapsInv, ThreadsInv, LifeInv, Shifts;
    LastHolder(s.maps, s.devs, s.reqs, s.ctl, devs, reqs, ctl, m);
    UseShift(s.maps, s.devs, s.reqs, s.ctl, devs, reqs, ctl, m, Dropped(s.maps[m]), -1);
    PutCounts(s.cells, s.maps, s.threads, m, t);
    PutFrame(s.maps, devs, reqs, ctl, |s.threads|, m);
    PutCtl(s.regions, s.maps, devs, ctl, m);
    PutThreads(s.regions, s.maps, s.threads, m, t);
    SameDying(s.cells, s.threads, t, Handed(s.maps[m]));
  }

  lemma AbortKeeps(s: State)
    requires Inv(s) && Enabled(s, Abort)
    ensures Inv(Apply(s, Abort))
  {
    hide CountInv, RegionsInv, MapsInv, ThreadsInv, LifeInv, UseInv, Shape, DevInv;
    assert Shifts(s.maps, s.devs, s.reqs, s.ctl, s.devs, s.reqs, Rest, s.ctl.m, -1) by { hide CtlInv, ReqInv; }
    forall k | 0 <= k < |s.reqs| ensures ReqOk(s.reqs[k], s.maps, s.devs, Rest, |s.threads|) {
      assert ReqOk(s.reqs[k], s.maps, s.devs, s.ctl, |s.threads|);
    }
    PutKeeps(s, s.devs, s.reqs, Rest, s.ctl.m, 0);
  }

  /** A device lets go of one of its maps. */
  lemma DevShift(s: State, d: nat, e: Device, m: nat)
    requires DevInv(s.maps, s.devs) && d < |s.devs| && m != 0 && m < |s.maps|
    requires var v := s.devs[d]; (m == v.prev && e == v.(prev := 0)) || (m == v.cur && e == v.(cur := 0))
    ensures Shifts(s.maps, s.devs, s.reqs, s.ctl, s.devs[d := e], s.reqs, s.ctl, m, -1)
    ensures DevInv(s.maps, s.devs[d := e])
  {
    DevFits(s, d);
    assert DevOk(d, e, s.maps);
  }

  lemma DevReqs(maps: seq<Map>, devs: seq<Device>, reqs: seq<Req>, ctl: Ctl, threads: nat, d: nat, e: Device)
    requires ReqInv(maps, devs, reqs, ctl, threads) && d < |devs|
    requires e.live == devs[d].live || e.live || forall k :: 0 <= k < |reqs| ==> reqs[k].d != d
    ensures ReqInv(maps, devs[d := e], reqs, ctl, threads)
  {
    forall k | 0 <= k < |reqs| ensures ReqOk(reqs[k], maps, devs[d := e], ctl, threads) {
      assert ReqOk(reqs[k], maps, devs, ctl, threads);
    }
  }

  lemma DropKeeps(s: State, d: nat)
    requires Inv(s) && Enabled(s, DropOld(d))
    ensures Inv(Apply(s, DropOld(d)))
  {
    hide CountInv, RegionsInv, MapsInv, ThreadsInv, LifeInv, UseInv, Shape, DevInv, ReqInv, Shifts;
    var e := s.devs[d].(prev := 0);
    DevFits(s, d);
    DevShift(s, d, e, s.devs[d].prev);
    DevReqs(s.maps, s.devs, s.reqs, s.ctl, |s.threads|, d, e);
    PutKeeps(s, s.devs[d := e], s.reqs, s.ctl, s.devs[d].prev, 0);
  }

  lemma CleanupKeeps(s: State, d: nat)
    requires Inv(s) && Enabled(s, Cleanup(d))
    ensures Inv(Apply(s, Cleanup(d)))
  {
    hide CountInv, RegionsInv, MapsInv, ThreadsInv, LifeInv, UseInv, Shape, DevInv, ReqInv, Shifts;
    var e := s.devs[d].(cur := 0);
    DevFits(s, d);
    DevShift(s, d, e, s.devs[d].cur);
    DevReqs(s.maps, s.devs, s.reqs, s.ctl, |s.threads|, d, e);
    PutKeeps(s, s.devs[d := e], s.reqs, s.ctl, s.devs[d].cur, 0);
  }

  lemma FreeShift(s: State, k: nat)
    requires k < |s.reqs|
    ensures Shifts(s.maps, s.devs, s.reqs, s.ctl, s.devs, RemovedAt(s.reqs, k), s.ctl, s.reqs[k].m, -1)
  {
    forall j: nat | 0 < j < |s.maps| && s.maps[j].owner < |s.devs|
      ensures Holders(j, s.devs[s.maps[j].owner], RemovedAt(s.reqs, k), s.ctl)
              == Holders(j, s.devs[s.maps[j].owner], s.reqs, s.ctl) + if j == s.reqs[k].m then -1 else 0
    {
      MapsOfRemoved(s.reqs, k, j);
    }
  }

  lemma FreeKeeps(s: State, k: nat)
    requires Inv(s) && Enabled(s, Free(k))
    ensures Inv(Apply(s, Free(k)))
  {
    hide CountInv, RegionsInv, MapsInv, ThreadsInv, LifeInv, UseInv, Shape, DevInv, Shifts;
    assert ReqOk(s.reqs[k], s.maps, s.devs, s.ctl, |s.threads|);
    FreeShift(s, k);
    PutKeeps(s, s.devs, RemovedAt(s.reqs, k), s.ctl, s.reqs[k].m, s.reqs[k].t);
  }

  // ----- devices and requests

  lemma LiveKeeps(s: State, d: nat, live: bool)
    requires Inv(s) && d < |s.devs| && s.ctl.Rest?
    requires live || forall k :: 0 <= k < |s.reqs| ==> s.reqs[k].d != d
    ensures Inv(s.(devs := s.devs[d := s.devs[d].(live := live)]))
  {
    hide CountInv, RegionsInv, MapsInv, ThreadsInv, LifeInv, UseInv, ReqInv;
    var devs := s.devs[d := s.devs[d].(live := live)];
    UseSame(s.maps, s.devs, s.reqs, s.ctl, devs, s.reqs, s.ctl);
    DevReqs(s.maps, s.devs, s.reqs, s.ctl, |s.threads|, d, devs[d]);
    forall c: nat | c < |devs| ensures DevOk(c, devs[c], s.maps) {
      assert DevOk(c, s.devs[c], s.maps);
    }
  }

  lemma CommitKeeps(s: State)
    requires Inv(s) && Enabled(s, Commit)
    ensures Inv(Apply(s, Commit))
  {
    hide CountInv, RegionsInv, MapsInv, ThreadsInv, LifeInv, Shape, Room;
    var d, m := s.ctl.d, s.ctl.m;
    var e := Device(m, s.devs[d].cur, s.devs[d].live);
    var devs := s.devs[d := e];
    DevFits(s, d);
    assert Shifts(s.maps, s.devs, s.reqs, s.ctl, devs, s.reqs, Rest, 0, 0) by { hide ReqInv, UseInv; }
    UseSame(s.maps, s.devs, s.reqs, s.ctl, devs, s.reqs, Rest);
    hide UseInv;
    DevReqs(s.maps, s.devs, s.reqs, s.ctl, |s.threads|, d, e);
    forall c: nat | c < |devs| ensures DevOk(c, devs[c], s.maps) {
      assert DevOk(c, s.devs[c], s.maps);
    }
    forall k | 0 <= k < |s.reqs| ensures ReqOk(s.reqs[k], s.maps, devs, Rest, |s.threads|) {
      assert ReqOk(s.reqs[k], s.maps, devs, s.ctl, |s.threads|);
    }
  }

  lemma FetchFrame(maps: seq<Map>, devs: seq<Device>, reqs: seq<Req>, ctl: Ctl, threads: nat, q: Req)
    requires DevInv(maps, devs) && ReqInv(maps, devs, reqs, ctl, threads) && ReqOk(q, maps, devs, ctl, threads)
    ensures var maps' := maps[q.m := maps[q.m].(refs := maps[q.m].refs + 1)];
            DevInv(maps', devs) && ReqInv(maps', devs, reqs + [q], ctl, threads)
  {
    var maps', reqs' := maps[q.m := maps[q.m].(refs := maps[q.m].refs + 1)], reqs + [q];
    forall d: nat | d < |devs| ensures DevOk(d, devs[d], maps') {
      assert DevOk(d, devs[d], maps);
    }
    forall k | 0 <= k < |reqs'| ensures ReqOk(reqs'[k], maps', devs, ctl, threads) {
      assert ReqOk(reqs'[k], maps, devs, ctl, threads);
    }
  }

  lemma FetchShift(s: State, q: Req)
    ensures Shifts(s.maps, s.devs, s.reqs, s.ctl, s.devs, s.reqs + [q], s.ctl, q.m, 1)
  {
    forall j: nat | 0 < j < |s.maps| && s.maps[j].owner < |s.devs|
      ensures Holders(j, s.devs[s.maps[j].owner], s.reqs + [q], s.ctl)
              == Holders(j, s.devs[s.maps[j].owner], s.reqs, s.ctl) + if j == q.m then 1 else 0
    {
      MapsOfAppend(s.reqs, q, j);
    }
  }

  lemma RefsAre(maps: seq<Map>, devs: seq<Device>, reqs: seq<Req>, ctl: Ctl, m: nat)
    requires UseInv(maps, devs, reqs, ctl) && 0 < m < |maps|
    ensures maps[m].refs >= 0
  {
    assert MapOk(m, maps[m], devs, reqs, ctl);
  }

  lemma {:induction false} HeldSlots(maps: seq<Map>, m: nat, x: Map, r: nat)
    requires m < |maps| && x.slots == maps[m].slots
    ensures Held(maps[m := x], r) == Held(maps, r)
  {
    HeldUpdate(maps, m, x, r);
  }

  lemma FetchKeeps(s: State, q: Req)
    requires Inv(s) && Enabled(s, Fetch(q.d, q.m, q.t, q.rs))
    ensures Inv(Apply(s, Fetch(q.d, q.m, q.t, q.rs)))
  {
    hide RegionsInv, ThreadsInv, LifeInv, UseInv, Shape, DevInv, ReqInv, Shifts, Room, SlotsOk;
    DevFits(s, q.d);
    assert ReqOk(q, s.maps, s.devs, s.ctl, |s.threads|);
    var x := s.maps[q.m].(refs := s.maps[q.m].refs + 1);
    FetchShift(s, q);
    RefsAre(s.maps, s.devs, s.reqs, s.ctl, q.m);
    UseShift(s.maps, s.devs, s.reqs, s.ctl, s.devs, s.reqs + [q], s.ctl, q.m, x, 1);
    FetchFrame(s.maps, s.devs, s.reqs, s.ctl, |s.threads|, q);
    forall r: nat | r < |s.cells| ensures Held(s.maps[q.m := x], r) == Held(s.maps, r) { HeldSlots(s.maps, q.m, x, r); }
  }

  // ----- editing a map

  /** The edited map changes its slots, and the control loop at most its place in the edit. */
  lemma EditFrame(s: State, x: Map, ctl: Ctl)
    requires Inv(s) && !s.ctl.Rest? && x.owner == s.maps[s.ctl.m].owner && x.refs == s.maps[s.ctl.m].refs
    requires forall m :: Builds(ctl, m) == Builds(s.ctl, m)
    ensures var maps := s.maps[s.ctl.m := x];
            && UseInv(maps, s.devs, s.reqs, ctl) && DevInv(maps, s.devs)
            && ReqInv(maps, s.devs, s.reqs, ctl, |s.threads|)
  {
    hide CountInv, RegionsInv, MapsInv, ThreadsInv, LifeInv, Room;
    EditedOnce(s);
    var m := s.ctl.m;
    var maps := s.maps[m := x];
    assert Shifts(s.maps, s.devs, s.reqs, s.ctl, s.devs, s.reqs, ctl, m, 0) by { hide UseInv, DevInv, ReqInv, CtlInv; }
    UseShift(s.maps, s.devs, s.reqs, s.ctl, s.devs, s.reqs, ctl, m, x, 0);
    hide UseInv;
    forall d: nat | d < |s.devs| ensures DevOk(d, s.devs[d], maps) {
      assert DevOk(d, s.devs[d], s.maps);
    }
    forall k | 0 <= k < |s.reqs| ensures ReqOk(s.reqs[k], maps, s.devs, ctl, |s.threads|) {
      assert ReqOk(s.reqs[k], s.maps, s.devs, s.ctl, |s.threads|);
      Unused(s.reqs, m, k);
    }
  }

  lemma {:induction false} CachedIs(regions: seq<Region>, cells: seq<Cell>, gpa: nat, uva: nat, size: nat, key: nat)
    requires |cells| == |regions|
    ensures var c := Cached(regions, cells, gpa, uva, size, key);
            if c.Found? then
              c.value < |regions| && cells[c.value].linked && SameKey(regions[c.value], gpa, uva, size, key)
            else forall r :: 0 <= r < |regions| && cells[r].linked ==> !SameKey(regions[r], gpa, uva, size, key)
  {
    if regions != [] {
      var k := |regions| - 1;
      CachedIs(regions[..k], cells[..k], gpa, uva, size, key);
    }
  }

  lemma SlotsOf(regions: seq<Region>, maps: seq<Map>, m: nat)
    requires MapsInv(regions, maps) && m < |maps|
    ensures SlotsOk(regions, maps[m].slots)
  {}

  /**
   * An accepted addition goes on to share a listed region exactly of the addresses, size and file
   * asked for; if there is none it maps a new region of these and puts that in the map.
   */
  lemma LookupBacks(s: State, l: Label)
    requires Reachable(s) && Enabled(s, l) && l.Lookup?
    requires Accepts(s.regions, s.maps[s.ctl.m].slots, l.gpa, l.uva, l.size)
    ensures var u := Apply(s, l);
            if u.ctl.Taking? then
              && u == s.(ctl := u.ctl) && u.ctl.d == s.ctl.d && u.ctl.m == s.ctl.m && u.ctl.own == s.ctl.own
              && u.ctl.r < |s.regions| == |s.cells| && s.cells[u.ctl.r].linked
              && s.regions[u.ctl.r].gpa == l.gpa && s.regions[u.ctl.r].uva == l.uva
              && s.regions[u.ctl.r].size == l.size && s.regions[u.ctl.r].key == l.key
            else
              && |s.cells| == |s.regions| && u.ctl == s.ctl
              && (forall r :: 0 <= r < |s.regions| && s.cells[r].linked ==>
                    s.regions[r].gpa != l.gpa || s.regions[r].uva != l.uva || s.regions[r].size != l.size
                    || s.regions[r].key != l.key)
              && u.regions == s.regions + [Region(l.gpa, l.uva, l.size, l.ptr, l.key)]
              && u.cells == s.cells + [Cell(1, true, true)]
              && u.maps == s.maps[s.ctl.m := u.maps[s.ctl.m]] && |u.maps| == |s.maps|
              && exists i :: 0 <= i <= |s.maps[s.ctl.m].slots| && u.maps[s.ctl.m].slots
                             == s.maps[s.ctl.m].slots[..i] + [|s.regions|] + s.maps[s.ctl.m].slots[i..]
  {
    hide Reachable, Cached, Accepts, Mappable, Position;
    CachedIs(s.regions, s.cells, l.gpa, l.uva, l.size, l.key);
    if Cached(s.regions, s.cells, l.gpa, l.uva, l.size, l.key).None? {
      var i := Position(s.regions + [Region(l.gpa, l.uva, l.size, l.ptr, l.key)], s.maps[s.ctl.m].slots, l.gpa);
      assert Apply(s, l).maps[s.ctl.m].slots
          == s.maps[s.ctl.m].slots[..i] + [|s.regions|] + s.maps[s.ctl.m].slots[i..];
    }
  }

  /** The region found goes into the map it was looked up for, and is held once more. */
  lemma TakeShares(s: State)
    requires Reachable(s) && Enabled(s, Take)
    ensures var u, m, r := Apply(s, Take), s.ctl.m, s.ctl.r;
            && u.regions == s.regions && u.ctl == Editing(s.ctl.d, m, s.ctl.own) && |u.maps| == |s.maps|
            && u.cells == s.cells[r := Cell(s.cells[r].refs + 1, s.cells[r].linked, s.cells[r].mapped)]
            && u.maps == s.maps[m := u.maps[m]]
            && exists i :: 0 <= i <= |s.maps[m].slots| && u.maps[m].slots
                           == s.maps[m].slots[..i] + [r] + s.maps[m].slots[i..]
  {
    hide Reachable, Position;
    var slots := s.maps[s.ctl.m].slots;
    var i := Position(s.regions, slots, s.regions[s.ctl.r].gpa);
    assert Apply(s, Take).maps[s.ctl.m].slots == slots[..i] + [s.ctl.r] + slots[i..];
  }

  lemma FoundKeeps(s: State, l: Label)
    requires Inv(s) && Enabled(s, l) && l.Lookup?
    requires Accepts(s.regions, s.maps[s.ctl.m].slots, l.gpa, l.uva, l.size)
    requires Cached(s.regions, s.cells, l.gpa, l.uva, l.size, l.key).Found?
    ensures Inv(Apply(s, l))
  {
    hide CountInv, RegionsInv, MapsInv, ThreadsInv, LifeInv, UseInv, DevInv, ReqInv, Cached, Mappable;
    CachedIs(s.regions, s.cells, l.gpa, l.uva, l.size, l.key);
    var r := Cached(s.regions, s.cells, l.gpa, l.uva, l.size, l.key).value;
    SlotsOf(s.regions, s.maps, s.ctl.m);
    PlaceKeeps(s, Taking(s.ctl.d, s.ctl.m, s.ctl.own, r));
  }

  lemma NewCounts(cells: seq<Cell>, maps: seq<Map>, threads: seq<Thread>, m: nat, i: nat)
    requires CountInv(cells, maps, threads) && m < |maps| && i <= |maps[m].slots|
    requires forall k :: 0 <= k < |maps| ==> InRange(maps[k].slots, |cells|)
    requires forall t :: 0 <= t < |threads| ==> ThreadFits(threads[t], |cells|)
    ensures CountInv(cells + [Cell(1, true, true)],
                     maps[m := maps[m].(slots := Inserted(maps[m].slots, i, |cells|))], threads)
  {
    var n: nat := |cells|;
    var cells', x := cells + [Cell(1, true, true)], maps[m].(slots := Inserted(maps[m].slots, i, n));
    forall r: nat | r < |cells'| ensures cells'[r].refs == Held(maps[m := x], r) + Owed(threads, r) {
      HeldUpdate(maps, m, x, r);
      OccInserted(maps[m].slots, i, n, r);
      if r == n {
        HeldAbsent(maps, n, n);
        OwedAbsent(threads, n, n);
      }
    }
  }

  lemma NewRegions(regions: seq<Region>, cells: seq<Cell>, r: Region)
    requires RegionsInv(regions, cells) && Mappable(regions, cells, r.ptr, r.size) && Sized(r)
    ensures RegionsInv(regions + [r], cells + [Cell(1, true, true)])
  {}

  lemma NewSlots(regions: seq<Region>, maps: seq<Map>, m: nat, r: Region)
    requires MapsInv(regions, maps) && m < |maps| && InRange(maps[m].slots, |regions|)
    requires Accepts(regions, maps[m].slots, r.gpa, r.uva, r.size)
    ensures InRange(maps[m].slots, |regions + [r]|)
    ensures MapsInv(regions + [r], maps[m := WithSlot(regions + [r], maps[m], |regions|)])
  {
    hide Position, Inserted;
    var regions' := regions + [r];
    forall k | 0 <= k < |maps| ensures SlotsOk(regions', maps[k].slots) {
      GrownOk(regions, r, maps[k].slots);
    }
    InsertedOk(regions', maps[m].slots, |regions|);
  }

  lemma NewLife(cells: seq<Cell>, threads: seq<Thread>)
    requires LifeInv(cells, threads)
    ensures LifeInv(cells + [Cell(1, true, true)], threads)
  {}

  lemma MappedKeeps(s: State, l: Label)
    requires Inv(s) && Enabled(s, l) && l.Lookup?
    requires Accepts(s.regions, s.maps[s.ctl.m].slots, l.gpa, l.uva, l.size)
    requires Cached(s.regions, s.cells, l.gpa, l.uva, l.size, l.key).None?
    ensures Inv(Apply(s, l))
  {
    hide CountInv, RegionsInv, MapsInv, LifeInv, UseInv, DevInv, ReqInv, Cached, Mappable, Position, Inserted;
    ShapeOf(s);
    NoWrapIff(l.gpa, l.size);
    NoWrapIff(l.uva, l.size);
    var m, r := s.ctl.m, Region(l.gpa, l.uva, l.size, l.ptr, l.key);
    Sizes(s.regions, s.cells, r);
    NewRegions(s.regions, s.cells, r);
    NewSlots(s.regions, s.maps, m, r);
    var x := WithSlot(s.regions + [r], s.maps[m], |s.regions|);
    EditFrame(s, x, s.ctl);
    NewCounts(s.cells, s.maps, s.threads, m, Position(s.regions + [r], s.maps[m].slots, r.gpa));
    NewLife(s.cells, s.threads);
  }

  lemma Sizes(regions: seq<Region>, cells: seq<Cell>, r: Region)
    requires RegionsInv(regions, cells) && Mappable(regions, cells, r.ptr, r.size)
    ensures |cells| == |regions| && 0 < r.size < SIZE_MAX
  {}

  lemma LookupKeeps(s: State, l: Label)
    requires Inv(s) && Enabled(s, l) && l.Lookup?
    ensures Inv(Apply(s, l))
  {
    if !Accepts(s.regions, s.maps[s.ctl.m].slots, l.gpa, l.uva, l.size) {
      hide Inv;
    } else if Cached(s.regions, s.cells, l.gpa, l.uva, l.size, l.key).Found? {
      hide Inv, Apply;
      FoundKeeps(s, l);
    } else {
      hide Inv, Apply;
      MappedKeeps(s, l);
    }
  }

  lemma TakeCounts(cells: seq<Cell>, maps: seq<Map>, threads: seq<Thread>, m: nat, i: nat, r: nat)
    requires CountInv(cells, maps, threads) && LifeInv(cells, threads) && m < |maps| && i <= |maps[m].slots|
    requires r < |cells|
    ensures var cells' := cells[r := cells[r].(refs := cells[r].refs + 1)];
            && CountInv(cells', maps[m := maps[m].(slots := Inserted(maps[m].slots, i, r))], threads)
            && LifeInv(cells', threads)
  {
    hide Doomed;
    var cells', x := cells[r := cells[r].(refs := cells[r].refs + 1)], maps[m].(slots := Inserted(maps[m].slots, i, r));
    forall q: nat | q < |cells'| ensures cells'[q].refs == Held(maps[m := x], q) + Owed(threads, q) {
      HeldUpdate(maps, m, x, q);
      OccInserted(maps[m].slots, i, r, q);
    }
  }

  lemma TakeSlots(regions: seq<Region>, maps: seq<Map>, m: nat, r: nat)
    requires MapsInv(regions, maps) && m < |maps| && Room(regions, maps[m].slots, r)
    ensures MapsInv(regions, maps[m := WithSlot(regions, maps[m], r)])
  {
    hide Position, Inserted;
    InsertedOk(regions, maps[m].slots, r);
  }

  lemma SameMapped(regions: seq<Region>, cells: seq<Cell>, r: nat, n: int)
    requires RegionsInv(regions, cells) && r < |cells|
    ensures RegionsInv(regions, cells[r := cells[r].(refs := n)])
  {}

  lemma TakeKeeps(s: State)
    requires Inv(s) && Enabled(s, Take)
    ensures Inv(Apply(s, Take))
  {
    hide CountInv, RegionsInv, MapsInv, ThreadsInv, LifeInv, UseInv, DevInv, ReqInv, Position, Inserted;
    var m, r := s.ctl.m, s.ctl.r;
    EditFrame(s, WithSlot(s.regions, s.maps[m], r), Editing(s.ctl.d, m, s.ctl.own));
    TakeCounts(s.cells, s.maps, s.threads, m, Position(s.regions, s.maps[m].slots, s.regions[r].gpa), r);
    TakeSlots(s.regions, s.maps, m, r);
    SameMapped(s.regions, s.cells, r, s.cells[r].refs + 1);
  }

  lemma DelCounts(cells: seq<Cell>, maps: seq<Map>, threads: seq<Thread>, m: nat, i: nat)
    requires CountInv(cells, maps, threads) && m < |maps| && i < |maps[m].slots| && |threads| > 0
    requires threads[0].todo == []
    ensures CountInv(cells, maps[m := maps[m].(slots := RemovedAt(maps[m].slots, i))],
                     threads[0 := threads[0].(todo := [maps[m].slots[i]])])
  {
    var x, th := maps[m].(slots := RemovedAt(maps[m].slots, i)), threads[0].(todo := [maps[m].slots[i]]);
    forall r: nat | r < |cells| ensures cells[r].refs == Held(maps[m := x], r) + Owed(threads[0 := th], r) {
      HeldUpdate(maps, m, x, r);
      OccRemovedAt(maps[m].slots, i, r);
      OwedUpdate(threads, 0, th, r);
      OccCons([], maps[m].slots[i], r);
      assert th.todo == [maps[m].slots[i]] + [];
    }
  }

  lemma DelThreads(regions: seq<Region>, maps: seq<Map>, threads: seq<Thread>, m: nat, i: nat)
    requires MapsInv(regions, maps) && ThreadsInv(threads, |regions|) && m < |maps| && i < |maps[m].slots|
    ensures MapsInv(regions, maps[m := maps[m].(slots := RemovedAt(maps[m].slots, i))])
    ensures ThreadsInv(threads[0 := threads[0].(todo := [maps[m].slots[i]])], |regions|)
  {
    RemovedOk(regions, maps[m].slots, i);
    assert SlotsOk(regions, maps[m].slots) && ThreadFits(threads[0], |regions|);
  }

  lemma DelKeeps(s: State, i: nat)
    requires Inv(s) && Shape(s) && CtlFree(s) && s.ctl.Editing? && i < |s.maps[s.ctl.m].slots|
    ensures Inv(Deleted(s, i))
  {
    hide CountInv, RegionsInv, MapsInv, ThreadsInv, LifeInv, UseInv, DevInv, ReqInv, Shape;
    var m := s.ctl.m;
    EditFrame(s, s.maps[m].(slots := RemovedAt(s.maps[m].slots, i)), s.ctl);
    DelCounts(s.cells, s.maps, s.threads, m, i);
    DelThreads(s.regions, s.maps, s.threads, m, i);
    SameDying(s.cells, s.threads, 0, [s.maps[m].slots[i]]);
  }

  lemma DelSlotKeeps(s: State, l: Label)
    requires Inv(s) && Enabled(s, l) && l.DelSlot?
    ensures Inv(Apply(s, l))
  {
    hide Inv;
    var i := Slot(s.regions, s.maps[s.ctl.m].slots, l.gpa, l.uva, l.size);
    if i < |s.maps[s.ctl.m].slots| { DelKeeps(s, i); }
  }

  // ----- releasing regions

  lemma UnrefCounts(cells: seq<Cell>, maps: seq<Map>, threads: seq<Thread>, t: nat, pc: ReleasePc)
    requires CountInv(cells, maps, threads) && t < |threads| && threads[t].todo != [] && threads[t].todo[0] < |cells|
    ensures var r := threads[t].todo[0];
            && cells[r].refs > 0
            && CountInv(cells[r := cells[r].(refs := cells[r].refs - 1)], maps,
                        threads[t := Thread(threads[t].todo[1..], pc)])
  {
    var r, th := threads[t].todo[0], Thread(threads[t].todo[1..], pc);
    var cells' := cells[r := cells[r].(refs := cells[r].refs - 1)];
    forall q: nat | q < |cells'| ensures cells'[q].refs == Held(maps, q) + Owed(threads[t := th], q) {
      OwedUpdate(threads, t, th, q);
      OccTail(threads[t].todo, q);
    }
    OwedUpdate(threads, t, th, r);
    OccTail(threads[t].todo, r);
  }

  lemma UnrefLife(cells: seq<Cell>, threads: seq<Thread>, t: nat, r: nat, todo: seq<nat>)
    requires LifeInv(cells, threads) && t < |threads| && threads[t].pc.Between? && r < |cells|
    ensures var n := cells[r].refs - 1;
            LifeInv(cells[r := cells[r].(refs := n)],
                    threads[t := Thread(todo, if n == 0 then Unlinking(r) else Between)])
  {
    var n := cells[r].refs - 1;
    var cells', threads' := cells[r := cells[r].(refs := n)],
                            threads[t := Thread(todo, if n == 0 then Unlinking(r) else Between)];
    forall q: nat | q < |cells'| && cells'[q].refs == 0 ensures Doomed(cells'[q], threads', q) {
      if q == r {
        assert Releases(threads'[t], r);
      } else {
        assert Doomed(cells[q], threads, q);
        DyingStays(threads, threads', t, q);
      }
    }
  }

  lemma DyingStays(threads: seq<Thread>, threads': seq<Thread>, t: nat, r: nat)
    requires t < |threads| == |threads'| && threads' == threads[t := threads'[t]]
    requires Releases(threads[t], r) ==> Releases(threads'[t], r)
    ensures Dying(threads, r) ==> Dying(threads', r)
  {
    if Dying(threads, r) {
      var u :| 0 <= u < |threads| && Releases(threads[u], r);
      assert Releases(threads'[u], r);
    }
  }

  lemma UnrefKeeps(s: State, t: nat)
    requires Inv(s) && Enabled(s, Unref(t))
    ensures Inv(Apply(s, Unref(t)))
  {
    hide CountInv, RegionsInv, MapsInv, LifeInv, UseInv, DevInv, ReqInv, CtlInv, Shape;
    assert ThreadFits(s.threads[t], |s.regions|) && |s.cells| == |s.regions| by { ShapeOf(s); SizesMatch(s); }
    var r, todo := s.threads[t].todo[0], s.threads[t].todo;
    var n := s.cells[r].refs - 1;
    UnrefCounts(s.cells, s.maps, s.threads, t, if n == 0 then Unlinking(r) else Between);
    UnrefLife(s.cells, s.threads, t, r, todo[1..]);
    SameMapped(s.regions, s.cells, r, n);
  }

  lemma SizesMatch(s: State)
    requires Inv(s)
    ensures |s.cells| == |s.regions|
  {}

  /** A thread goes on in a release; the region is unlisted or unmapped. */
  lemma ReleaseKeeps(s: State, t: nat, c: Cell, pc: ReleasePc)
    requires Inv(s) && t < |s.threads| && !s.threads[t].pc.Between? && s.threads[t].pc.r < |s.cells|
    requires var r := s.threads[t].pc.r;
             c.refs == s.cells[r].refs && (c.mapped ==> s.cells[r].mapped && pc == Unmapping(r))
    requires pc.Between? || pc.r == s.threads[t].pc.r
    ensures Inv(s.(cells := s.cells[s.threads[t].pc.r := c], threads := s.threads[t := s.threads[t].(pc := pc)]))
  {
    hide UseInv, DevInv, ReqInv, CtlInv, MapsInv;
    var r, th := s.threads[t].pc.r, s.threads[t].(pc := pc);
    var cells, threads := s.cells[r := c], s.threads[t := th];
    forall q: nat | q < |cells| ensures cells[q].refs == Held(s.maps, q) + Owed(threads, q) {
      OwedUpdate(s.threads, t, th, q);
    }
    hide CountInv;
    forall q: nat | q < |cells| && cells[q].refs == 0 ensures Doomed(cells[q], threads, q) {
      assert Doomed(s.cells[q], s.threads, q);
      DoomGoesOn(s.cells, s.threads, t, c, pc, q);
    }
  }

  lemma DoomGoesOn(cells: seq<Cell>, threads: seq<Thread>, t: nat, c: Cell, pc: ReleasePc, q: nat)
    requires t < |threads| && !threads[t].pc.Between? && threads[t].pc.r < |cells| && q < |cells|
    requires var r := threads[t].pc.r; c.mapped ==> cells[r].mapped && pc == Unmapping(r)
    requires Doomed(cells[q], threads, q)
    ensures Doomed(cells[threads[t].pc.r := c][q], threads[t := threads[t].(pc := pc)], q)
  {
    var r, threads' := threads[t].pc.r, threads[t := threads[t].(pc := pc)];
    if q == r {
      if c.mapped { assert Releases(threads'[t], r); }
    } else {
      DyingStays(threads, threads', t, q);
    }
  }

  lemma UnlinkKeeps(s: State, t: nat)
    requires Inv(s) && Enabled(s, Unlink(t))
    ensures Inv(Apply(s, Unlink(t)))
  {
    hide Inv;
    ShapeOf(s);
    assert ThreadFits(s.threads[t], |s.regions|);
    var r := s.threads[t].pc.r;
    ReleaseKeeps(s, t, s.cells[r].(linked := false), Unmapping(r));
  }

  lemma UnmapKeeps(s: State, t: nat)
    requires Inv(s) && Enabled(s, Unmap(t))
    ensures Inv(Apply(s, Unmap(t)))
  {
    hide Inv;
    ShapeOf(s);
    assert ThreadFits(s.threads[t], |s.regions|);
    ReleaseKeeps(s, t, s.cells[s.threads[t].pc.r].(mapped := false), Between);
  }

  // ----- every step, every run

  lemma StepKeeps(s: State, l: Label)
    requires Inv(s) && Enabled(s, l)
    ensures Inv(Apply(s, l))
  {
    hide Inv, Shape;
    match l
    case BeginNew(d) => hide Apply; NewKeeps(s, d);
    case BeginCopy(d) => hide Apply; CopyKeeps(s, d);
    case BeginInPlace(d) => hide Apply; InPlaceKeeps(s, d);
    case Lookup(_, _, _, _, _) => hide Apply; LookupKeeps(s, l);
    case Take => hide Apply; TakeKeeps(s);
    case DelSlot(_, _, _) => hide Apply; DelSlotKeeps(s, l);
    case Commit => hide Apply; CommitKeeps(s);
    case Abort => hide Apply; AbortKeeps(s);
    case EndInPlace => hide Apply; EndKeeps(s);
    case DropOld(d) => hide Apply; DropKeeps(s, d);
    case Cleanup(d) => hide Apply; CleanupKeeps(s, d);
    case Start(d) => LiveKeeps(s, d, true);
    case Drain(d) => LiveKeeps(s, d, false);
    case Fetch(d, m, t, rs) => hide Apply; FetchKeeps(s, Req(d, m, t, rs));
    case Free(k) => hide Apply; FreeKeeps(s, k);
    case Unref(t) => hide Apply; UnrefKeeps(s, t);
    case Unlink(t) => hide Apply; UnlinkKeeps(s, t);
    case Unmap(t) => hide Apply; UnmapKeeps(s, t);
  }

  ghost predicate Run(s: State, ls: seq<Label>, t: State)
    decreases |ls|
  {
    if ls == [] then s == t else Enabled(s, ls[0]) && Run(Apply(s, ls[0]), ls[1..], t)
  }

  lemma {:induction false} RunKeeps(s: State, ls: seq<Label>, t: State)
    requires Inv(s) && Run(s, ls, t)
    ensures Inv(t)
    decreases |ls|
  {
    hide Inv, Enabled, Apply;
    if ls != [] {
      StepKeeps(s, ls[0]);
      RunKeeps(Apply(s, ls[0]), ls[1..], t);
    }
  }

  lemma InitInv(s: State)
    requires Init(s)
    ensures Inv(s)
  {
    forall d: nat | d < |s.devs| ensures DevOk(d, s.devs[d], s.maps) {}
  }

  ghost predicate Reachable(s: State) {
    exists s0, ls :: Init(s0) && Run(s0, ls, s)
  }

  lemma ReachableInv(s: State)
    requires Reachable(s)
    ensures Inv(s)
  {
    hide Inv, Init, Run;
    var s0, ls :| Init(s0) && Run(s0, ls, s);
    InitInv(s0);
    RunKeeps(s0, ls, s);
  }

  // ----- when what is held stays mapped

  /** Nothing anyone holds is unmapped or being released. */
  ghost predicate Clean(s: State) {
    |s.cells| == |s.regions| &&
    forall r: nat :: r < |s.cells| && s.cells[r].refs > 0 ==> !Doomed(s.cells[r], s.threads, r)
  }

  /** The step takes a reference on a region nobody holds any more. */
  predicate Revives(s: State, l: Label) {
    l.Take? && s.ctl.Taking? && s.ctl.r < |s.cells| && s.cells[s.ctl.r].refs == 0
  }

  lemma SameDoom(cells: seq<Cell>, threads: seq<Thread>, t: nat, todo: seq<nat>, r: nat)
    requires r < |cells| && t < |threads|
    ensures Doomed(cells[r], threads[t := threads[t].(todo := todo)], r) <==> Doomed(cells[r], threads, r)
  {
    var threads' := threads[t := threads[t].(todo := todo)];
    DyingStays(threads, threads', t, r);
    assert threads == threads'[t := threads[t]];
    DyingStays(threads', threads, t, r);
  }

  lemma UnrefDoom(s: State, t: nat, r: nat)
    requires Inv(s) && Enabled(s, Unref(t)) && r < |s.cells|
    ensures var u := Apply(s, Unref(t));
            && |u.cells| == |s.cells|
            && (Doomed(s.cells[r], s.threads, r) ==> Doomed(u.cells[r], u.threads, r))
            && (Doomed(u.cells[r], u.threads, r) && !Doomed(s.cells[r], s.threads, r) ==> u.cells[r].refs == 0)
  {
    hide Inv;
    ShapeOf(s);
    assert ThreadFits(s.threads[t], |s.regions|);
    var u := Apply(s, Unref(t));
    DyingStays(s.threads, u.threads, t, r);
    if Dying(u.threads, r) && !Dying(s.threads, r) {
      var v :| 0 <= v < |u.threads| && Releases(u.threads[v], r);
      assert v == t;
    }
  }

  lemma ReleaseDoom(s: State, l: Label, r: nat)
    requires Inv(s) && Enabled(s, l) && (l.Unlink? || l.Unmap?) && r < |s.cells|
    ensures var u := Apply(s, l);
            && |u.cells| == |s.cells|
            && (Doomed(s.cells[r], s.threads, r) <==> Doomed(u.cells[r], u.threads, r))
  {
    hide Inv;
    ShapeOf(s);
    var t, u := l.t, Apply(s, l);
    assert ThreadFits(s.threads[t], |s.regions|);
    var q := s.threads[t].pc.r;
    assert Releases(s.threads[t], q);
    if Doomed(s.cells[r], s.threads, r) {
      DoomGoesOn(s.cells, s.threads, t, u.cells[q], u.threads[t].pc, r);
    }
    if Dying(u.threads, r) {
      var v :| 0 <= v < |u.threads| && Releases(u.threads[v], r);
      assert Releases(s.threads[v], r);
    }
  }

  /** Steps that touch no count but upwards and no place in a release. */
  lemma QuietDoom(s: State, l: Label, r: nat)
    requires Inv(s) && Enabled(s, l) && !l.Unref? && !l.Unlink? && !l.Unmap? && r < |s.cells|
    ensures var u := Apply(s, l);
            && |u.cells| >= |s.cells| && u.cells[r].mapped == s.cells[r].mapped
            && (Doomed(s.cells[r], s.threads, r) <==> Doomed(u.cells[r], u.threads, r))
  {
    hide Inv, Cached, Position, Inserted, Slot, Mappable, Accepts, Doomed;
    ShapeOf(s);
    var u := Apply(s, l);
    if l.Free? {
      SameDoom(s.cells, s.threads, s.reqs[l.k].t, u.threads[s.reqs[l.k].t].todo, r);
    } else if l.DelSlot? || l.Abort? || l.DropOld? || l.Cleanup? {
      SameDoom(s.cells, s.threads, 0, u.threads[0].todo, r);
    }
    DoomMapped(s.cells[r], u.cells[r], u.threads, r);
  }

  lemma DoomMapped(c: Cell, c': Cell, threads: seq<Thread>, r: nat)
    requires c.mapped == c'.mapped
    ensures Doomed(c, threads, r) <==> Doomed(c', threads, r)
  {}

  /** Once a region is being released nothing saves it, and only dropping its last reference starts that. */
  lemma DoomStays(s: State, l: Label, r: nat)
    requires Inv(s) && Enabled(s, l) && r < |s.cells|
    ensures var u := Apply(s, l);
            && |u.cells| >= |s.cells|
            && (Doomed(s.cells[r], s.threads, r) ==> Doomed(u.cells[r], u.threads, r))
            && (Doomed(u.cells[r], u.threads, r) && !Doomed(s.cells[r], s.threads, r) ==>
                  l.Unref? && u.cells[r].refs == 0)
  {
    hide Inv, Apply, Doomed;
    if l.Unref? {
      UnrefDoom(s, l.t, r);
    } else if l.Unlink? || l.Unmap? {
      ReleaseDoom(s, l, r);
    } else {
      QuietDoom(s, l, r);
    }
  }

  lemma Occupied(s: State, m: nat, i: nat)
    requires Inv(s) && m < |s.maps| && i < |s.maps[m].slots|
    ensures var r := s.maps[m].slots[i]; r < |s.cells| && s.cells[r].refs > 0
  {
    hide UseInv, DevInv, ReqInv, CtlInv, ThreadsInv, LifeInv;
    assert SlotsOk(s.regions, s.maps[m].slots);
    OccAt(s.maps[m].slots, i);
    HeldAtLeast(s.maps, m, s.maps[m].slots[i]);
  }

  lemma CopyRevivesNone(s: State, d: nat, r: nat)
    requires Inv(s) && Enabled(s, BeginCopy(d)) && r < |s.cells| && s.cells[r].refs == 0
    ensures Apply(s, BeginCopy(d)).cells[r].refs == 0
  {
    hide Inv;
    var m := s.devs[d].cur;
    if Occ(s.maps[m].slots, r) > 0 {
      var i := OccSome(s.maps[m].slots, r);
      Occupied(s, m, i);
    }
  }

  /** A count leaves zero only by a take. */
  lemma RevivesOnly(s: State, l: Label, r: nat)
    requires Inv(s) && Enabled(s, l) && r < |s.cells| && s.cells[r].refs == 0
    ensures var u := Apply(s, l); r < |u.cells| && (u.cells[r].refs > 0 ==> Revives(s, l) && r == s.ctl.r)
  {
    if l.BeginCopy? {
      hide Inv;
      CopyRevivesNone(s, l.d, r);
    } else {
      hide Inv, Cached, Position, Inserted, Slot, Mappable, Accepts, Counted;
      ShapeOf(s);
    }
  }

  lemma GrownCells(s: State, l: Label)
    requires Inv(s) && Enabled(s, l)
    ensures var u := Apply(s, l);
            |u.cells| == |u.regions| && forall r :: |s.cells| <= r < |u.cells| ==> u.cells[r].mapped && l.Lookup?
  {
    hide Inv, Cached, Position, Inserted, Slot, Mappable, Accepts;
    ShapeOf(s);
  }

  lemma NewUndoomed(s: State, l: Label, r: nat)
    requires Inv(s) && Enabled(s, l) && |s.cells| <= r < |Apply(s, l).cells|
    ensures !Doomed(Apply(s, l).cells[r], Apply(s, l).threads, r)
  {
    hide Inv, Cached, Position, Inserted, Slot, Mappable, Accepts;
    ShapeOf(s);
    GrownCells(s, l);
    assert forall t :: 0 <= t < |s.threads| ==> ThreadFits(s.threads[t], |s.regions|);
  }

  /**
   * What is held stays mapped and untouched by releases, except by a lookup that takes a reference
   * on the region it found after its count went to zero.
   */
  lemma CleanIff(s: State, l: Label)
    requires Inv(s) && Clean(s) && Enabled(s, l)
    ensures Clean(Apply(s, l)) <==> !Revives(s, l)
  {
    hide Inv, Doomed, Apply, Enabled;
    var u := Apply(s, l);
    GrownCells(s, l);
    if Revives(s, l) {
      ReviveDooms(s);
    } else {
      forall r: nat | r < |u.cells| && u.cells[r].refs > 0 ensures !Doomed(u.cells[r], u.threads, r) {
        if r < |s.cells| {
          DoomStays(s, l, r);
          Uncounted(s, r);
          if s.cells[r].refs == 0 { RevivesOnly(s, l, r); }
        } else {
          NewUndoomed(s, l, r);
        }
      }
    }
  }

  lemma Uncounted(s: State, r: nat)
    requires Inv(s) && r < |s.cells|
    ensures s.cells[r].refs >= 0
  {}

  lemma ReviveDooms(s: State)
    requires Inv(s) && Enabled(s, Take) && Revives(s, Take)
    ensures var u, r := Apply(s, Take), s.ctl.r;
            && r < |u.cells| && u.cells[r].refs == 1 && Doomed(u.cells[r], u.threads, r)
            && r in u.maps[s.ctl.m].slots && u.maps[s.ctl.m].refs > 0
  {
    hide CountInv, UseInv, DevInv, ReqInv, CtlInv, ThreadsInv, RegionsInv, MapsInv, Position;
    EditedOnce(s);
    var u, m := Apply(s, Take), s.ctl.m;
    assert u.maps[m].slots[Position(s.regions, s.maps[m].slots, s.regions[s.ctl.r].gpa)] == s.ctl.r;
    assert Doomed(s.cells[s.ctl.r], s.threads, s.ctl.r);
  }

  // runs

  /** Some step of the run revives a region. */
  ghost predicate Revivals(s: State, ls: seq<Label>)
    decreases |ls|
  {
    ls != [] && Enabled(s, ls[0]) && (Revives(s, ls[0]) || Revivals(Apply(s, ls[0]), ls[1..]))
  }

  ghost predicate CleanThroughout(s: State, ls: seq<Label>)
    decreases |ls|
  {
    Clean(s) && (ls != [] && Enabled(s, ls[0]) ==> CleanThroughout(Apply(s, ls[0]), ls[1..]))
  }

  /** A run keeps everything held mapped, at every moment and whatever is released, exactly if it revives nothing. */
  lemma {:induction false} RunCleanIff(s: State, ls: seq<Label>, t: State)
    requires Inv(s) && Clean(s) && Run(s, ls, t)
    ensures CleanThroughout(s, ls) <==> !Revivals(s, ls)
    ensures !Revivals(s, ls) ==> Clean(t)
    decreases |ls|
  {
    hide Inv, Clean, Enabled, Apply, Revives;
    if ls != [] {
      StepKeeps(s, ls[0]);
      CleanIff(s, ls[0]);
      var u := Apply(s, ls[0]);
      if Clean(u) { RunCleanIff(u, ls[1..], t); }
    }
  }

  ghost predicate AllMapped(s: State) {
    forall r: nat :: r < |s.cells| && s.cells[r].refs > 0 ==> s.cells[r].mapped
  }

  predicate GoesOn(l: Label) {
    l.Unlink? || l.Unmap?
  }

  /** Threads that are in the middle of releases go on with them, and nothing else happens. */
  ghost predicate OnlyReleases(ls: seq<Label>) {
    forall i :: 0 <= i < |ls| ==> GoesOn(ls[i])
  }

  lemma {:induction false} ReleasesKeepClean(s: State, ls: seq<Label>, t: State)
    requires Inv(s) && Clean(s) && Run(s, ls, t) && OnlyReleases(ls)
    ensures AllMapped(t)
    decreases |ls|
  {
    hide Inv, Enabled, Apply, Doomed;
    if ls == [] {
      CleanMapped(s);
    } else {
      assert GoesOn(ls[0]);
      StepKeeps(s, ls[0]);
      CleanIff(s, ls[0]);
      ReleasesKeepClean(Apply(s, ls[0]), ls[1..], t);
    }
  }

  lemma CleanMapped(s: State)
    requires Clean(s)
    ensures AllMapped(s)
  {}

  /** The thread in the middle of a release unmaps the region, whoever holds it again by then. */
  lemma ReleaseEnds(s: State, t: nat, r: nat) returns (ls: seq<Label>, u: State)
    requires Shape(s) && t < |s.threads| && Releases(s.threads[t], r) && r < |s.cells|
    ensures Run(s, ls, u) && OnlyReleases(ls)
    ensures u.maps == s.maps && |u.cells| == |s.cells| && u.cells[r].refs == s.cells[r].refs && !u.cells[r].mapped
  {
    assert ThreadFits(s.threads[t], |s.regions|);
    if s.threads[t].pc.Unmapping? {
      ls, u := UnmapEnds(s, t);
    } else {
      var v := Apply(s, Unlink(t));
      UnlinkShape(s, t);
      ls, u := UnmapEnds(v, t);
      assert Run(s, [Unlink(t)] + ls, u) by { assert ([Unlink(t)] + ls)[1..] == ls; }
      ls := [Unlink(t)] + ls;
    }
  }

  lemma UnlinkShape(s: State, t: nat)
    requires Enabled(s, Unlink(t))
    ensures Shape(Apply(s, Unlink(t)))
  {
    assert ThreadFits(s.threads[t], |s.regions|);
  }

  lemma UnmapEnds(s: State, t: nat) returns (ls: seq<Label>, u: State)
    requires Shape(s) && t < |s.threads| && s.threads[t].pc.Unmapping? && s.threads[t].pc.r < |s.cells|
    ensures Run(s, ls, u) && OnlyReleases(ls)
    ensures var r := s.threads[t].pc.r;
            u.maps == s.maps && |u.cells| == |s.cells| && u.cells[r].refs == s.cells[r].refs && !u.cells[r].mapped
  {
    ls, u := [Unmap(t)], Apply(s, Unmap(t));
    assert Run(u, [], u);
    assert ls[1..] == [];
  }

  /** What is held stays mapped however the releases under way go on exactly if none of them is of a held region. */
  lemma StaysMappedIff(s: State)
    requires Inv(s)
    ensures Clean(s) <==> forall ls, t :: OnlyReleases(ls) && Run(s, ls, t) ==> AllMapped(t)
  {
    ShapeOf(s);
    if Clean(s) {
      forall ls, t | OnlyReleases(ls) && Run(s, ls, t) ensures AllMapped(t) {
        hide Inv, Clean, Run, OnlyReleases, AllMapped;
        ReleasesKeepClean(s, ls, t);
      }
    } else {
      hide Inv, Enabled, Apply;
      var r: nat :| r < |s.cells| && s.cells[r].refs > 0 && Doomed(s.cells[r], s.threads, r);
      if s.cells[r].mapped {
        var t :| 0 <= t < |s.threads| && Releases(s.threads[t], r);
        var ls, u := ReleaseEnds(s, t, r);
        assert !AllMapped(u);
      } else {
        assert OnlyReleases([]) && Run(s, [], s) && !AllMapped(s);
      }
    }
  }

  // ----- theorems

  lemma InitClean(s: State)
    requires Init(s)
    ensures Clean(s)
  {}

  lemma RunClean(s0: State, ls: seq<Label>, s: State)
    requires Init(s0) && Run(s0, ls, s) && !Revivals(s0, ls)
    ensures Inv(s) && Clean(s)
  {
    hide Inv, Init, Run, Clean, Revivals;
    InitInv(s0);
    InitClean(s0);
    RunKeeps(s0, ls, s);
    RunCleanIff(s0, ls, s);
  }

  /**
   * On every run that revives nothing the regions of every live map, and those under the buffers of
   * every request not yet freed, are mapped and no thread is releasing them.
   */
  lemma HeldMapped(s0: State, ls: seq<Label>, s: State)
    requires Init(s0) && Run(s0, ls, s) && !Revivals(s0, ls)
    ensures forall m: nat, i: nat :: m < |s.maps| && i < |s.maps[m].slots| ==> Secure(s, s.maps[m].slots[i])
    ensures forall k: nat, i: nat :: k < |s.reqs| && i < |s.reqs[k].rs| ==> Secure(s, s.reqs[k].rs[i])
  {
    hide Inv, Clean, Run, Init, Revivals;
    RunClean(s0, ls, s);
    forall m: nat, i: nat | m < |s.maps| && i < |s.maps[m].slots| ensures Secure(s, s.maps[m].slots[i]) {
      SlotSecure(s, m, i);
    }
    forall k: nat, i: nat | k < |s.reqs| && i < |s.reqs[k].rs| ensures Secure(s, s.reqs[k].rs[i]) {
      var m, j := RequestSlot(s, k, i);
      SlotSecure(s, m, j);
    }
  }

  ghost predicate Secure(s: State, r: nat) {
    r < |s.cells| && s.cells[r].refs > 0 && s.cells[r].mapped && !Dying(s.threads, r)
  }

  lemma SlotSecure(s: State, m: nat, i: nat)
    requires Inv(s) && Clean(s) && m < |s.maps| && i < |s.maps[m].slots|
    ensures Secure(s, s.maps[m].slots[i])
  {
    hide Inv;
    Occupied(s, m, i);
  }

  /** The regions a request was fetched on are slots of its map to its end. */
  lemma RequestSlot(s: State, k: nat, i: nat) returns (m: nat, j: nat)
    requires Inv(s) && k < |s.reqs| && i < |s.reqs[k].rs|
    ensures m == s.reqs[k].m < |s.maps| && j < |s.maps[m].slots| && s.maps[m].slots[j] == s.reqs[k].rs[i]
  {
    hide CountInv, UseInv, DevInv, CtlInv, RegionsInv, MapsInv, ThreadsInv, LifeInv;
    assert ReqOk(s.reqs[k], s.maps, s.devs, s.ctl, |s.threads|);
    m := s.reqs[k].m;
    j :| 0 <= j < |s.maps[m].slots| && s.maps[m].slots[j] == s.reqs[k].rs[i];
  }

  /** A map is edited only while nothing but its maker, or its device, holds it. */
  lemma EditedAlone(s: State)
    requires Reachable(s) && !s.ctl.Rest?
    ensures s.ctl.m < |s.maps| && s.maps[s.ctl.m].refs == 1
    ensures forall k :: 0 <= k < |s.reqs| ==> s.reqs[k].m != s.ctl.m
  {
    ReachableInv(s);
    EditedOnce(s);
    forall k | 0 <= k < |s.reqs| ensures s.reqs[k].m != s.ctl.m { Unused(s.reqs, s.ctl.m, k); }
  }

  /** Counts are exact on every run, and once no thread is in a release what is mapped is held by a live map. */
  lemma NothingLeaks(s: State, r: nat)
    requires Reachable(s) && r < |s.cells|
    ensures s.cells[r].refs == Held(s.maps, r) + Owed(s.threads, r)
    ensures (forall t :: 0 <= t < |s.threads| ==> Idle(s.threads[t])) && s.cells[r].mapped ==>
              exists m: nat :: m < |s.maps| && s.maps[m].refs > 0 && r in s.maps[m].slots
  {
    ReachableInv(s);
    hide DevInv, ReqInv, CtlInv, RegionsInv, MapsInv, ThreadsInv, Reachable;
    if (forall t :: 0 <= t < |s.threads| ==> Idle(s.threads[t])) && s.cells[r].mapped {
      NothingOwed(s.threads, r);
      assert !Dying(s.threads, r);
      assert s.cells[r].refs != 0 by { assert !Doomed(s.cells[r], s.threads, r); }
      var m := HeldSome(s.maps, r);
      var i := OccSome(s.maps[m].slots, r);
      assert m > 0 && MapOk(m, s.maps[m], s.devs, s.reqs, s.ctl);
    }
  }

  ghost function Resolved(s: State, m: nat): seq<Region>
    requires Shape(s) && m < |s.maps|
  {
    seq(|s.maps[m].slots|, i requires 0 <= i < |s.maps[m].slots| => s.regions[s.maps[m].slots[i]])
  }

  /** Every map of such a run is one the translations are inverse on. */
  lemma MapsLaid(s: State, m: nat)
    requires Inv(s) && Clean(s) && m < |s.maps|
    ensures Shape(s) && Laid(Resolved(s, m))
  {
    hide CountInv, UseInv, DevInv, ReqInv, CtlInv, ThreadsInv, LifeInv, Clean;
    ShapeOf(s);
    var slots := s.maps[m].slots;
    assert SlotsOk(s.regions, slots);
    forall i: nat | i < |slots| ensures s.cells[slots[i]].mapped { SlotSecure(s, m, i); }
    forall i, j | 0 <= i < j < |slots| ensures PtrsApart(s.regions[slots[i]], s.regions[slots[j]]) {
      var a, b := s.regions[slots[i]], s.regions[slots[j]];
      assert Ordered(a, b) && Sized(a);
      assert slots[i] != slots[j];
    }
  }

  /** On every run the slots of a map ascend, and no two share both a guest byte and a user byte. */
  lemma MapsApart(s: State, m: nat)
    requires Reachable(s) && m < |s.maps|
    ensures Shape(s) && Ascends(Resolved(s, m))
    ensures var rs := Resolved(s, m);
            forall i, j, a: nat, v: nat :: 0 <= i < j < |rs| ==> !BothIn(rs[i], rs[j], a, v)
  {
    ReachableInv(s);
    ShapeOf(s);
    hide Reachable, CountInv, UseInv, DevInv, ReqInv, CtlInv, ThreadsInv, LifeInv, RegionsInv;
    var slots := s.maps[m].slots;
    assert SlotsOk(s.regions, slots);
    forall i, j | 0 <= i < j < |slots| ensures s.regions[slots[i]].gpa <= s.regions[slots[j]].gpa {
      assert Ordered(s.regions[slots[i]], s.regions[slots[j]]);
    }
    forall i, j, a: nat, v: nat | 0 <= i < j < |slots| ensures !BothIn(s.regions[slots[i]], s.regions[slots[j]], a, v) {
      SlotsShareNoByte(s.regions, slots, i, j, a, v);
    }
  }

  /** In every such map a translated range translates back, byte by byte. */
  lemma ReachableRoundTrip(s0: State, ls: seq<Label>, s: State, m: nat, gpa: nat, len: nat, o: nat)
    requires Init(s0) && Run(s0, ls, s) && !Revivals(s0, ls)
    requires m < |s.maps| && Shape(s) && GpaToPtr(Resolved(s, m), gpa, len).Found? && o < len
    ensures var rs := Resolved(s, m); PtrToGpa(rs, GpaToPtr(rs, gpa, len).value + o) == gpa + o != TRANSLATION_FAILED
  {
    hide Inv, Clean, Init, Run, Revivals, Shape, Resolved, Laid, GpaToPtr, PtrToGpa, Enabled, Apply;
    RunClean(s0, ls, s);
    MapsLaid(s, m);
    RoundTrip(Resolved(s, m), gpa, len, o);
  }

  // ----- which map a device uses

  /**
   * A device's current map changes only by a commit, to the map just built, and by a clean-up; its
   * superseded map only by a commit, to the map current before, and by being dropped.
   */
  lemma DeviceMaps(s: State, l: Label, d: nat)
    requires Reachable(s) && Enabled(s, l) && d < |s.devs|
    ensures var u := Apply(s, l);
            && |u.devs| == |s.devs|
            && u.devs[d].cur == (
                 if l.Commit? && s.ctl.d == d then s.ctl.m else if l == Cleanup(d) then 0 else s.devs[d].cur)
            && u.devs[d].prev == (
                 if l.Commit? && s.ctl.d == d then s.devs[d].cur else if l == DropOld(d) then 0 else s.devs[d].prev)
            && u.devs[d].live == (if l == Start(d) then true else if l == Drain(d) then false else s.devs[d].live)
  {
    hide Reachable, Cached, Position, Inserted, Slot, Mappable, Accepts, Counted, Dropped, Handed;
  }

  /** A new map begins empty, a copy with the slots of the current map; the device goes on with the one it has. */
  lemma BeginMakes(s: State, l: Label)
    requires Reachable(s) && Enabled(s, l) && (l.BeginNew? || l.BeginCopy?)
    ensures var u, n := Apply(s, l), |s.maps|;
            && |u.maps| == n + 1 && u.maps[..n] == s.maps && u.ctl == Editing(l.d, n, true)
            && u.maps[n] == Map(if l.BeginNew? then [] else s.maps[s.devs[l.d].cur].slots, 1, l.d)
  {
    hide Reachable, Shape, Counted;
  }

  /** A deletion takes the first slot with these addresses, and nothing if there is none; its region is owed a drop. */
  lemma DelTakes(s: State, l: Label)
    requires Reachable(s) && Enabled(s, l) && l.DelSlot?
    ensures var u, slots := Apply(s, l), s.maps[s.ctl.m].slots;
            if exists i :: 0 <= i < |slots| && At(s, slots[i], l.gpa, l.uva, l.size) then
              exists i :: 0 <= i < |slots| && At(s, slots[i], l.gpa, l.uva, l.size)
                && (forall j :: 0 <= j < i ==> !At(s, slots[j], l.gpa, l.uva, l.size))
                && u.maps == s.maps[s.ctl.m := s.maps[s.ctl.m].(slots := slots[..i] + slots[i + 1..])]
                && u.threads == s.threads[0 := Thread([slots[i]], Between)] && u.cells == s.cells
            else u == s
  {
    hide Reachable;
    var slots := s.maps[s.ctl.m].slots;
    SlotFirst(s.regions, slots, l.gpa, l.uva, l.size);
    var i := Slot(s.regions, slots, l.gpa, l.uva, l.size);
    hide Slot;
    if i < |slots| { assert At(s, slots[i], l.gpa, l.uva, l.size); }
  }

  /** Region `r` lies at these addresses and has this size. */
  predicate At(s: State, r: nat, gpa: nat, uva: nat, size: nat) {
    r < |s.regions| && s.regions[r].gpa == gpa && s.regions[r].uva == uva && s.regions[r].size == size
  }

  lemma {:induction false} SlotFirst(regions: seq<Region>, slots: seq<nat>, gpa: nat, uva: nat, size: nat)
    requires InRange(slots, |regions|)
    ensures var i := Slot(regions, slots, gpa, uva, size);
            forall j :: 0 <= j < i ==> !Matches(regions[slots[j]], gpa, uva, size)
  {
    if slots != [] && !Matches(regions[slots[0]], gpa, uva, size) {
      SlotFirst(regions, slots[1..], gpa, uva, size);
      var i := Slot(regions, slots, gpa, uva, size);
      forall j | 0 <= j < i ensures !Matches(regions[slots[j]], gpa, uva, size) {
        if j > 0 { assert slots[1..][j - 1] == slots[j]; }
      }
    }
  }
}
