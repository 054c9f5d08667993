/**
 * The inflight region of a split virtqueue: a write-ordered record, in memory shared with the
 * client, of the requests that have been fetched and not yet published.
 *
 * The model is a transition system.  Every store to shared memory is one step, the device may
 * die between any two steps (those of recovery included) any number of times, and the driver
 * runs concurrently.
 */
module Inflight {
  import opened RingIndex
  import opened Counting
  import opened Sequences

  datatype DescState = DescState(inflight: bool, next: nat, counter: nat)

  datatype Region = Region(desc: seq<DescState>, lastBatchHead: nat, usedIdx: nat)

  // ----- single stores into the region

  function StoreCounter(r: Region, h: nat, c: nat): Region
    requires h < |r.desc|
  {
    r.(desc := r.desc[h := r.desc[h].(counter := c)])
  }

  function StoreInflight(r: Region, h: nat, flag: bool): Region
    requires h < |r.desc|
  {
    r.(desc := r.desc[h := r.desc[h].(inflight := flag)])
  }

  function StoreNext(r: Region, h: nat, x: nat): Region
    requires h < |r.desc|
  {
    r.(desc := r.desc[h := r.desc[h].(next := x)])
  }

  function MaxCounter(desc: seq<DescState>): nat {
    if desc == [] then 0
    else
      var m := MaxCounter(desc[..|desc| - 1]);
      var c := desc[|desc| - 1].counter;
      if c > m then c else m
  }

  ghost predicate Touched(desc: seq<DescState>) {
    exists i :: 0 <= i < |desc| && desc[i].counter > 0
  }

  lemma {:induction false} MaxCounterBounds(desc: seq<DescState>)
    ensures forall i :: 0 <= i < |desc| ==> desc[i].counter <= MaxCounter(desc)
    ensures MaxCounter(desc) > 0 <==> Touched(desc)
  {
    if desc != [] {
      var init := desc[..|desc| - 1];
      MaxCounterBounds(init);
      forall i | 0 <= i < |desc| ensures desc[i].counter <= MaxCounter(desc) {
        if i < |desc| - 1 { assert init[i] == desc[i]; }
      }
      if Touched(init) {
        var i :| 0 <= i < |init| && init[i].counter > 0;
        assert desc[i].counter > 0;
      }
      if Touched(desc) {
        var i :| 0 <= i < |desc| && desc[i].counter > 0;
        assert desc[i].counter <= MaxCounter(desc);
      }
      if MaxCounter(desc) > 0 && !Touched(init) {
        assert desc[|desc| - 1].counter > 0;
      }
    }
  }

  // ----- the order of resubmission

  /** What collecting the flagged heads and sorting them by counter may leave in the array. */
  ghost predicate IsReplayOrder(desc: seq<DescState>, todo: seq<nat>) {
    && Distinct(todo)
    && (forall i :: 0 <= i < |todo| ==> todo[i] < |desc| && desc[todo[i]].inflight)
    && (forall h :: 0 <= h < |desc| && desc[h].inflight ==> h in todo)
    && (forall i, j :: 0 <= i < j < |todo| ==> desc[todo[i]].counter <= desc[todo[j]].counter)
  }

  ghost predicate CountersAscend(desc: seq<DescState>, heads: seq<nat>) {
    && (forall i :: 0 <= i < |heads| ==> heads[i] < |desc| && desc[heads[i]].counter > 0)
    && (forall i, j :: 0 <= i < j < |heads| ==> desc[heads[i]].counter < desc[heads[j]].counter)
  }

  lemma SameFirst(desc: seq<DescState>, a: seq<nat>, b: seq<nat>)
    requires CountersAscend(desc, a) && a != [] && b != [] && a[0] in b && b[0] in a
    requires forall i :: 0 <= i < |b| ==> b[i] < |desc|
    requires forall i, j :: 0 <= i < j < |b| ==> desc[b[i]].counter <= desc[b[j]].counter
    ensures a[0] == b[0]
  {
    var i :| 0 <= i < |a| && a[i] == b[0];
    var j :| 0 <= j < |b| && b[j] == a[0];
  }

  /** Sorting by pairwise distinct counters has one possible result. */
  lemma {:induction false} SortedUnique(desc: seq<DescState>, a: seq<nat>, b: seq<nat>)
    requires CountersAscend(desc, a) && Distinct(b)
    requires forall h :: h in a <==> h in b
    requires forall i :: 0 <= i < |b| ==> b[i] < |desc|
    requires forall i, j :: 0 <= i < j < |b| ==> desc[b[i]].counter <= desc[b[j]].counter
    ensures a == b
  {
    if a == [] {
      assert forall i :: 0 <= i < |b| ==> b[i] in a;
    } else {
      assert a[0] in b && b[0] in a;
      SameFirst(desc, a, b);
      TailMembers(a);
      TailMembers(b);
      SortedUnique(desc, a[1..], b[1..]);
      assert a == [a[0]] + a[1..];
      assert b == [b[0]] + b[1..];
    }
  }

  // ----- states

  /** Who owns a descriptor head, and its position in the log of that stage. */
  datatype Place = Free | Posted(pos: nat) | InFlight(pos: nat) | Published(pos: nat)

  datatype FetchPc = NotFetching | CounterStored(head: nat) | InHandler(head: nat)

  datatype PushPc =
    | NotPushing
    | ElemStored(head: nat)
    | NextStored(head: nat)
    | BatchHeadStored(head: nat)
    | IdxStored(head: nat)
    | FlagCleared(head: nat)

  /** The memory a crash destroys. */
  datatype Device =
    | Down
    | Scanned(reqCnt: nat)
    | Cleared(reqCnt: nat)
    | Up(reqCnt: nat, lastAvail: nat, todo: seq<nat>, backend: set<nat>, fetch: FetchPc, push: PushPc)

  /**
   * History, for stating properties only: the heads posted, fetched (marked inflight), published
   * and consumed so far.  `outstanding` lists fetched and unpublished heads in fetch order.
   */
  datatype History = History(
    base: nat,
    availLog: seq<nat>,
    fetched: nat,
    outstanding: seq<nat>,
    usedLog: seq<nat>,
    consumed: nat,
    place: seq<Place>)

  datatype State = State(
    n: nat,
    region: Region,
    availRing: seq<nat>,
    availIdx: nat,
    usedRing: seq<nat>,
    usedRingIdx: nat,
    driverUsed: nat,
    dev: Device,
    hist: History)

  /** A fresh region beside rings whose indices may start anywhere, with nothing outstanding. */
  ghost predicate Init(s: State) {
    && RingSize(s.n)
    && |s.region.desc| == |s.availRing| == |s.usedRing| == s.n
    && (forall i :: 0 <= i < s.n ==> s.region.desc[i] == DescState(false, 0, 0))
    && s.region.usedIdx < WRAP
    && s.availIdx == s.usedRingIdx == s.driverUsed == Idx(s.hist.base)
    && s.dev.Down?
    && s.hist == History(s.hist.base, [], 0, [], [], 0, seq(s.n, _ => Free))
  }

  /** How far the used ring index is ahead of the recorded one. */
  function Lead(s: State): nat {
    Idx(s.usedRingIdx - s.region.usedIdx)
  }

  datatype Label =
    | Post(h: nat)
    | Consume
    | Crash
    | Reconnect
    | ClearLast
    | FinishRecovery(todo: seq<nat>)
    | Resubmit
    | FetchCounter
    | FetchFlag
    | LeaveHandler
    | PushElem(h: nat)
    | PushNext
    | PushHead
    | PushIdx
    | PushFlag
    | PushUsedIdx

  // ----- the four events that move a head from one place to the next

  function HistPost(hs: History, h: nat): History
    requires h < |hs.place|
  {
    hs.(availLog := hs.availLog + [h], place := hs.place[h := Posted(|hs.availLog|)])
  }

  function HistFetch(hs: History, h: nat): History
    requires h < |hs.place|
  {
    hs.(fetched := hs.fetched + 1, outstanding := hs.outstanding + [h], place := hs.place[h := InFlight(hs.fetched)])
  }

  function HistPublish(hs: History, h: nat): History
    requires h < |hs.place|
  {
    hs.(usedLog := hs.usedLog + [h], outstanding := Without(hs.outstanding, h),
        place := hs.place[h := Published(|hs.usedLog|)])
  }

  function HistConsume(hs: History, h: nat): History
    requires h < |hs.place|
  {
    hs.(consumed := hs.consumed + 1, place := hs.place[h := Free])
  }

  ghost predicate Shape(s: State) {
    && RingSize(s.n)
    && |s.region.desc| == |s.availRing| == |s.usedRing| == |s.hist.place| == s.n
    && s.region.usedIdx < WRAP
    && s.hist.fetched <= |s.hist.availLog|
    && s.hist.consumed <= |s.hist.usedLog|
  }

  ghost predicate Enabled(s: State, l: Label) {
    Shape(s) &&
    match l
    case Post(h) => h < s.n && s.hist.place[h].Free?
    case Consume => s.driverUsed != s.usedRingIdx && s.usedRing[Slot(s.driverUsed, s.n)] < s.n
    case Crash => !s.dev.Down?
    case Reconnect => s.dev.Down?
    case ClearLast => s.dev.Scanned? && s.dev.reqCnt != 0 && Lead(s) != 0 && s.region.lastBatchHead < s.n
    case FinishRecovery(todo) =>
      && (s.dev.Cleared? || (s.dev.Scanned? && (s.dev.reqCnt == 0 || Lead(s) == 0)))
      && IsReplayOrder(s.region.desc, todo)
    case Resubmit =>
      s.dev.Up? && s.dev.todo != [] && s.dev.fetch.NotFetching? && s.dev.push.NotPushing?
    case FetchCounter =>
      && s.dev.Up? && s.dev.todo == [] && s.dev.fetch.NotFetching? && s.dev.push.NotPushing?
      && s.dev.lastAvail != s.availIdx && s.availRing[Slot(s.dev.lastAvail, s.n)] < s.n
    case FetchFlag => s.dev.Up? && s.dev.fetch.CounterStored? && s.dev.fetch.head < s.n
    case LeaveHandler => s.dev.Up? && s.dev.fetch.InHandler? && s.dev.push.NotPushing?
    case PushElem(h) =>
      s.dev.Up? && h in s.dev.backend && h < s.n && s.dev.push.NotPushing? && !s.dev.fetch.CounterStored?
    case PushNext => s.dev.Up? && s.dev.push.ElemStored? && s.dev.push.head < s.n
    case PushHead => s.dev.Up? && s.dev.push.NextStored?
    case PushIdx => s.dev.Up? && s.dev.push.BatchHeadStored? && s.dev.push.head < s.n
    case PushFlag => s.dev.Up? && s.dev.push.IdxStored? && s.dev.push.head < s.n
    case PushUsedIdx => s.dev.Up? && s.dev.push.FlagCleared?
  }

  ghost function Apply(s: State, l: Label): State
    requires Enabled(s, l)
  {
    var hs := s.hist;
    match l
    case Post(h) =>
      s.(availRing := s.availRing[Slot(s.availIdx, s.n) := h],
         availIdx := Idx(s.availIdx + 1),
         hist := HistPost(hs, h))
    case Consume =>
      var h := s.usedRing[Slot(s.driverUsed, s.n)];
      s.(driverUsed := Idx(s.driverUsed + 1), hist := HistConsume(hs, h))
    case Crash => s.(dev := Down)
    case Reconnect => s.(dev := Scanned(MaxCounter(s.region.desc)))
    case ClearLast =>
      s.(region := StoreInflight(s.region, s.region.lastBatchHead, false), dev := Cleared(s.dev.reqCnt))
    case FinishRecovery(todo) =>
      s.(region := s.region.(usedIdx := s.usedRingIdx),
         dev := Up(s.dev.reqCnt + 1, s.usedRingIdx, todo, {}, NotFetching, NotPushing))
    case Resubmit =>
      var h := s.dev.todo[0];
      s.(dev := s.dev.(todo := s.dev.todo[1..], backend := s.dev.backend + {h}, fetch := InHandler(h)))
    case FetchCounter =>
      var h := s.availRing[Slot(s.dev.lastAvail, s.n)];
      s.(region := StoreCounter(s.region, h, s.dev.reqCnt), dev := s.dev.(fetch := CounterStored(h)))
    case FetchFlag =>
      var h := s.dev.fetch.head;
      s.(region := StoreInflight(s.region, h, true),
         dev := s.dev.(reqCnt := s.dev.reqCnt + 1, backend := s.dev.backend + {h}, fetch := InHandler(h)),
         hist := HistFetch(hs, h))
    case LeaveHandler =>
      s.(dev := s.dev.(lastAvail := Idx(s.dev.lastAvail + 1), fetch := NotFetching))
    case PushElem(h) =>
      s.(usedRing := s.usedRing[Slot(s.usedRingIdx, s.n) := h],
         dev := s.dev.(backend := s.dev.backend - {h}, push := ElemStored(h)))
    case PushNext =>
      var h := s.dev.push.head;
      s.(region := StoreNext(s.region, h, s.region.lastBatchHead), dev := s.dev.(push := NextStored(h)))
    case PushHead =>
      var h := s.dev.push.head;
      s.(region := s.region.(lastBatchHead := h), dev := s.dev.(push := BatchHeadStored(h)))
    case PushIdx =>
      var h := s.dev.push.head;
      s.(usedRingIdx := Idx(s.usedRingIdx + 1), dev := s.dev.(push := IdxStored(h)),
         hist := HistPublish(hs, h))
    case PushFlag =>
      var h := s.dev.push.head;
      s.(region := StoreInflight(s.region, h, false), dev := s.dev.(push := FlagCleared(h)))
    case PushUsedIdx =>
      s.(region := s.region.(usedIdx := s.usedRingIdx), dev := s.dev.(push := NotPushing))
  }

  // ----- the invariant

  ghost predicate LogShape(hs: History, n: nat) {
    |hs.place| == n && hs.fetched <= |hs.availLog| && hs.consumed <= |hs.usedLog|
  }

  /** The place of head `h` agrees with the logs. */
  ghost predicate Placed(hs: History, h: nat)
    requires h < |hs.place|
  {
    match hs.place[h]
    case Free => true
    case Posted(k) => hs.fetched <= k < |hs.availLog| && hs.availLog[k] == h
    case InFlight(k) => k < hs.fetched <= |hs.availLog| && hs.availLog[k] == h && h in hs.outstanding
    case Published(k) => hs.consumed <= k < |hs.usedLog| && hs.usedLog[k] == h
  }

  /** The listed heads are in flight, earliest fetch first. */
  ghost predicate FetchOrder(o: seq<nat>, place: seq<Place>) {
    && (forall i :: 0 <= i < |o| ==> o[i] < |place| && place[o[i]].InFlight?)
    && (forall i, j :: 0 <= i < j < |o| ==> place[o[i]].pos < place[o[j]].pos)
  }

  /** Every head is in exactly one place, and the logs say which. */
  ghost predicate PlaceInv(hs: History, n: nat)
    requires LogShape(hs, n)
  {
    && (forall k :: hs.fetched <= k < |hs.availLog| ==> hs.availLog[k] < n && hs.place[hs.availLog[k]] == Posted(k))
    && (forall k :: hs.consumed <= k < |hs.usedLog| ==> hs.usedLog[k] < n && hs.place[hs.usedLog[k]] == Published(k))
    && FetchOrder(hs.outstanding, hs.place)
    && (forall h {:trigger Placed(hs, h)} :: 0 <= h < n ==> Placed(hs, h))
  }

  ghost predicate SlotHolds(ring: seq<nat>, base: nat, k: nat, h: nat)
    requires |ring| > 0
  {
    ring[Slot(base + k, |ring|)] == h
  }

  /** The ring holds the entries `lo`.. of the log, each in the slot its index names. */
  ghost predicate RingHolds(ring: seq<nat>, base: nat, log: seq<nat>, lo: nat)
    requires |ring| > 0
  {
    forall k {:trigger SlotHolds(ring, base, k, log[k])} :: lo <= k < |log| ==> SlotHolds(ring, base, k, log[k])
  }

  /** No request is lost and none is published twice. */
  ghost predicate Conserved(hs: History)
    requires hs.fetched <= |hs.availLog|
  {
    && hs.fetched == |hs.usedLog| + |hs.outstanding|
    && multiset(hs.availLog[..hs.fetched]) == multiset(hs.usedLog) + multiset(hs.outstanding)
  }

  /** Flags are right but for the last published head, and only while the recorded index lags. */
  ghost predicate FlagInv(region: Region, lead: nat, place: seq<Place>)
    requires |region.desc| == |place|
  {
    if !Touched(region.desc) then
      forall i :: 0 <= i < |place| ==> !region.desc[i].inflight && !place[i].InFlight?
    else
      && lead <= 1
      && (lead == 1 ==> region.lastBatchHead < |place| && !place[region.lastBatchHead].InFlight?)
      && (forall i :: 0 <= i < |place| ==>
            (lead == 1 && i == region.lastBatchHead) || (region.desc[i].inflight <==> place[i].InFlight?))
  }

  /** The head whose push has begun and has not yet moved the used index. */
  predicate Pushing(push: PushPc, h: nat) {
    push == ElemStored(h) || push == NextStored(h) || push == BatchHeadStored(h)
  }

  ghost predicate SlotAt(ring: seq<nat>, idx: nat, h: nat) {
    |ring| > 0 && ring[Slot(idx, |ring|)] == h
  }

  ghost predicate PushInv(push: PushPc, region: Region, lead: nat, ring: seq<nat>, idx: nat) {
    match push
    case NotPushing => lead == 0
    case ElemStored(h) => lead == 0 && SlotAt(ring, idx, h)
    case NextStored(h) =>
      lead == 0 && SlotAt(ring, idx, h) && h < |region.desc| && region.desc[h].next == region.lastBatchHead
    case BatchHeadStored(h) => lead == 0 && SlotAt(ring, idx, h) && region.lastBatchHead == h
    case IdxStored(h) => lead == 1 && region.lastBatchHead == h
    case FlagCleared(h) =>
      lead == 1 && region.lastBatchHead == h && h < |region.desc| && !region.desc[h].inflight
  }

  /** A request in flight is in the backend, waits for resubmission, or is being pushed. */
  ghost predicate WorkInv(todo: seq<nat>, backend: set<nat>, push: PushPc, place: seq<Place>) {
    && (forall h :: h in backend ==> h < |place| && place[h].InFlight? && h !in todo && !Pushing(push, h))
    && (forall h :: h in todo ==> h < |place| && place[h].InFlight? && !Pushing(push, h))
    && (forall h :: 0 <= h < |place| && place[h].InFlight? ==> h in backend || h in todo || Pushing(push, h))
    && (forall h: nat :: Pushing(push, h) ==> h < |place| && place[h].InFlight?)
    && Distinct(todo)
  }

  /** Every counter in the region is below the next one to hand out. */
  ghost predicate CountersBelow(desc: seq<DescState>, reqCnt: nat, fetch: FetchPc) {
    forall i :: 0 <= i < |desc| ==>
      desc[i].counter < reqCnt || (fetch == CounterStored(i) && desc[i].counter == reqCnt)
  }

  ghost predicate FetchInv(d: Device, desc: seq<DescState>, hs: History)
    requires d.Up?
  {
    && d.reqCnt >= 1
    && CountersBelow(desc, d.reqCnt, d.fetch)
    && d.lastAvail == Idx(hs.base + hs.fetched - |d.todo| - if d.fetch.InHandler? then 1 else 0)
    && (d.fetch.CounterStored? ==>
          && d.todo == [] && d.push.NotPushing?
          && hs.fetched < |hs.availLog| && hs.availLog[hs.fetched] == d.fetch.head
          && d.fetch.head < |desc| && desc[d.fetch.head].counter == d.reqCnt)
  }

  ghost predicate DevInv(s: State)
    requires Shape(s)
  {
    match s.dev
    case Down => true
    case Scanned(c) =>
      && (forall i :: 0 <= i < s.n ==> s.region.desc[i].counter <= c)
      && (c > 0 <==> Touched(s.region.desc))
    case Cleared(c) =>
      && (forall i :: 0 <= i < s.n ==> s.region.desc[i].counter <= c)
      && Touched(s.region.desc) && c > 0
      && Lead(s) == 1 && s.region.lastBatchHead < s.n && !s.region.desc[s.region.lastBatchHead].inflight
    case Up(_, _, _, _, _, push) =>
      && PushInv(push, s.region, Lead(s), s.usedRing, s.usedRingIdx)
      && WorkInv(s.dev.todo, s.dev.backend, push, s.hist.place)
      && FetchInv(s.dev, s.region.desc, s.hist)
  }

  ghost predicate IndexInv(s: State) {
    && s.availIdx == Idx(s.hist.base + |s.hist.availLog|)
    && s.usedRingIdx == Idx(s.hist.base + |s.hist.usedLog|)
    && s.driverUsed == Idx(s.hist.base + s.hist.consumed)
  }

  ghost predicate Inv(s: State) {
    && Shape(s)
    && IndexInv(s)
    && PlaceInv(s.hist, s.n)
    && Conserved(s.hist)
    && RingHolds(s.availRing, s.hist.base, s.hist.availLog, s.hist.fetched)
    && RingHolds(s.usedRing, s.hist.base, s.hist.usedLog, s.hist.consumed)
    && CountersAscend(s.region.desc, s.hist.outstanding)
    && FlagInv(s.region, Lead(s), s.hist.place)
    && DevInv(s)
  }

  lemma InitInv(s: State)
    requires Init(s)
    ensures Inv(s)
  {
    assert s.hist.availLog[..0] == [];
  }

  lemma {:induction false} WithoutSplit(a: seq<nat>, h: nat) returns (i: nat)
    requires h in a
    ensures i < |a| && a[i] == h && Without(a, h) == a[..i] + a[i + 1..]
  {
    if a[0] == h {
      i := 0;
    } else {
      var j := WithoutSplit(a[1..], h);
      i := j + 1;
      assert a[..i] == [a[0]] + a[1..][..j];
      assert a[i + 1..] == a[1..][j + 1..];
    }
  }

  lemma {:induction false} WithoutMembers(a: seq<nat>, h: nat)
    requires h in a && Distinct(a)
    ensures forall x :: x in Without(a, h) <==> x in a && x != h
  {
    TailMembers(a);
    if a[0] != h {
      WithoutMembers(a[1..], h);
    }
  }

  lemma WithoutCount(a: seq<nat>, h: nat)
    requires h in a
    ensures multiset(a) == multiset(Without(a, h)) + multiset{h}
    ensures |a| == |Without(a, h)| + 1
  {
    var i := WithoutSplit(a, h);
    assert a == a[..i] + [h] + a[i + 1..];
  }

  lemma WithoutAscends(desc: seq<DescState>, o: seq<nat>, h: nat)
    requires CountersAscend(desc, o) && h in o
    ensures CountersAscend(desc, Without(o, h))
  {
    hide Without;
    var i := WithoutSplit(o, h);
    TakenOut(o, i);
  }

  lemma WithoutFetchOrder(o: seq<nat>, place: seq<Place>, h: nat, p: Place)
    requires FetchOrder(o, place) && h in o
    ensures Distinct(o) && FetchOrder(Without(o, h), place[h := p])
  {
    hide Without;
    assert Distinct(o) by {
      assert forall i, j :: 0 <= i < j < |o| ==> place[o[i]].pos < place[o[j]].pos;
    }
    var i := WithoutSplit(o, h);
    TakenOut(o, i);
    var b := Without(o, h);
    forall j | 0 <= j < |b| ensures b[j] < |place| && b[j] != h && place[b[j]].InFlight? {
      assert b[j] == o[if j < i then j else j + 1];
    }
  }

  lemma TakenOut(o: seq<nat>, i: nat)
    requires i < |o|
    ensures var b := o[..i] + o[i + 1..];
            |b| == |o| - 1 && forall j :: 0 <= j < |b| ==> b[j] == o[if j < i then j else j + 1]
  {}

  // ----- unread ends of the rings fit in the rings

  lemma PostedWindow(hs: History, n: nat, other: nat)
    requires LogShape(hs, n) && PlaceInv(hs, n)
    requires other < n && !hs.place[other].Posted?
    ensures |hs.availLog| - hs.fetched < n
  {
    var a := hs.availLog[hs.fetched..];
    FewerThan(a, n, other);
  }

  lemma PublishedWindow(hs: History, n: nat, other: nat)
    requires LogShape(hs, n) && PlaceInv(hs, n)
    requires other < n && !hs.place[other].Published?
    ensures |hs.usedLog| - hs.consumed < n
  {
    var a := hs.usedLog[hs.consumed..];
    FewerThan(a, n, other);
  }

  /** Writing the next entry spares the unread ones when fewer than a ring of them remain. */
  lemma RingHoldsAppend(ring: seq<nat>, base: nat, log: seq<nat>, lo: nat, h: nat)
    requires RingSize(|ring|) && RingHolds(ring, base, log, lo)
    requires lo <= |log| < lo + |ring|
    ensures var slot := Slot(Idx(base + |log|), |ring|);
            var ring' := ring[slot := h];
            RingHolds(ring', base, log, lo) && RingHolds(ring', base, log + [h], lo) && ring'[slot] == h
  {
    var n, at := |ring|, base + |log|;
    SlotOfIdx(at, n);
    var ring' := ring[Slot(at, n) := h];
    forall k | lo <= k < |log| ensures SlotHolds(ring', base, k, log[k]) {
      assert SlotHolds(ring, base, k, log[k]);
      SlotsDiffer(base + k, at, n);
    }
    forall k | lo <= k < |log + [h]| ensures SlotHolds(ring', base, k, (log + [h])[k]) {
      if k < |log| { assert SlotHolds(ring', base, k, log[k]); }
    }
  }

  lemma RingHoldsAt(ring: seq<nat>, base: nat, log: seq<nat>, lo: nat)
    requires RingSize(|ring|) && RingHolds(ring, base, log, lo) && lo < |log|
    ensures ring[Slot(Idx(base + lo), |ring|)] == log[lo]
  {
    SlotOfIdx(base + lo, |ring|);
    assert SlotHolds(ring, base, lo, log[lo]);
  }

  lemma RingHoldsNext(ring: seq<nat>, base: nat, log: seq<nat>, lo: nat, h: nat)
    requires RingSize(|ring|) && RingHolds(ring, base, log, lo) && SlotAt(ring, Idx(base + |log|), h)
    ensures RingHolds(ring, base, log + [h], lo)
  {
    SlotOfIdx(base + |log|, |ring|);
    forall k | lo <= k < |log + [h]| ensures SlotHolds(ring, base, k, (log + [h])[k]) {
      if k < |log| { assert SlotHolds(ring, base, k, log[k]); }
    }
  }

  lemma RingHoldsTail(ring: seq<nat>, base: nat, log: seq<nat>, lo: nat)
    requires |ring| > 0 && RingHolds(ring, base, log, lo)
    ensures RingHolds(ring, base, log, lo + 1)
  {}

  // ----- the history events keep the history consistent

  lemma HistPostKeeps(hs: History, n: nat, h: nat)
    requires LogShape(hs, n) && PlaceInv(hs, n) && Conserved(hs) && h < n && hs.place[h].Free?
    ensures var hs' := HistPost(hs, h); LogShape(hs', n) && PlaceInv(hs', n) && Conserved(hs')
  {
    var hs' := HistPost(hs, h);
    assert hs'.availLog[..hs.fetched] == hs.availLog[..hs.fetched];
    forall x | 0 <= x < n ensures Placed(hs', x) {
      assert Placed(hs, x);
    }
  }

  lemma HistFetchKeeps(hs: History, n: nat)
    requires LogShape(hs, n) && PlaceInv(hs, n) && Conserved(hs) && hs.fetched < |hs.availLog|
    ensures var h := hs.availLog[hs.fetched];
            h < n && var hs' := HistFetch(hs, h); LogShape(hs', n) && PlaceInv(hs', n) && Conserved(hs')
  {
    var h := hs.availLog[hs.fetched];
    var hs' := HistFetch(hs, h);
    assert h !in hs.outstanding;
    assert hs.availLog[..hs.fetched + 1] == hs.availLog[..hs.fetched] + [h];
    forall x | 0 <= x < n ensures Placed(hs', x) {
      assert Placed(hs, x);
    }
    forall i | 0 <= i < |hs.outstanding| ensures hs.place[hs.outstanding[i]].pos < hs.fetched {
      assert Placed(hs, hs.outstanding[i]);
    }
  }

  lemma HistPublishKeeps(hs: History, n: nat, h: nat)
    requires LogShape(hs, n) && PlaceInv(hs, n) && Conserved(hs) && h < n && hs.place[h].InFlight?
    ensures var hs' := HistPublish(hs, h); LogShape(hs', n) && PlaceInv(hs', n) && Conserved(hs')
  {
    var hs' := HistPublish(hs, h);
    assert Placed(hs, h);
    WithoutFetchOrder(hs.outstanding, hs.place, h, Published(|hs.usedLog|));
    WithoutMembers(hs.outstanding, h);
    WithoutCount(hs.outstanding, h);
    forall x | 0 <= x < n ensures Placed(hs', x) {
      assert Placed(hs, x);
    }
  }

  lemma HistConsumeKeeps(hs: History, n: nat)
    requires LogShape(hs, n) && PlaceInv(hs, n) && Conserved(hs) && hs.consumed < |hs.usedLog|
    ensures var h := hs.usedLog[hs.consumed];
            h < n && var hs' := HistConsume(hs, h); LogShape(hs', n) && PlaceInv(hs', n) && Conserved(hs')
  {
    var h := hs.usedLog[hs.consumed];
    var hs' := HistConsume(hs, h);
    forall x | 0 <= x < n ensures Placed(hs', x) {
      assert Placed(hs, x);
    }
  }

  // ----- each step keeps the invariant

  lemma IdxStep(x: int)
    ensures Idx(Idx(x) + 1) == Idx(x + 1)
  {}

  /** The same heads are in flight. */
  ghost predicate SameInFlight(place: seq<Place>, place': seq<Place>) {
    |place| == |place'| && forall h :: 0 <= h < |place| ==> (place[h].InFlight? <==> place'[h].InFlight?)
  }

  lemma SameInFlightKeeps(place: seq<Place>, place': seq<Place>, region: Region, lead: nat, d: Device)
    requires SameInFlight(place, place') && |region.desc| == |place|
    requires FlagInv(region, lead, place)
    ensures FlagInv(region, lead, place')
    ensures d.Up? && WorkInv(d.todo, d.backend, d.push, place) ==> WorkInv(d.todo, d.backend, d.push, place')
  {}

  lemma WorkResubmit(todo: seq<nat>, backend: set<nat>, push: PushPc, place: seq<Place>)
    requires WorkInv(todo, backend, push, place) && todo != [] && push.NotPushing?
    ensures WorkInv(todo[1..], backend + {todo[0]}, push, place)
  {
    TailMembers(todo);
    assert todo[0] in todo;
  }

  lemma WorkFetch(backend: set<nat>, push: PushPc, place: seq<Place>, h: nat, k: nat)
    requires WorkInv([], backend, push, place) && h < |place| && !place[h].InFlight?
    ensures WorkInv([], backend + {h}, push, place[h := InFlight(k)])
  {}

  lemma WorkPublish(todo: seq<nat>, backend: set<nat>, push: PushPc, place: seq<Place>, h: nat, k: nat)
    requires WorkInv(todo, backend, push, place) && push == BatchHeadStored(h)
    ensures h < |place| && place[h].InFlight? && WorkInv(todo, backend, IdxStored(h), place[h := Published(k)])
  {
    assert Pushing(push, h);
  }

  lemma WorkSameHead(todo: seq<nat>, backend: set<nat>, push: PushPc, push': PushPc, place: seq<Place>)
    requires WorkInv(todo, backend, push, place)
    requires forall h: nat :: Pushing(push, h) <==> Pushing(push', h)
    ensures WorkInv(todo, backend, push', place)
  {}

  lemma FlagNoLead(region: Region, lastBatchHead: nat, place: seq<Place>)
    requires |region.desc| == |place| && FlagInv(region, 0, place)
    ensures FlagInv(region.(lastBatchHead := lastBatchHead), 0, place)
  {}

  lemma FlagPublish(region: Region, place: seq<Place>, h: nat, k: nat)
    requires |region.desc| == |place| && FlagInv(region, 0, place)
    requires h < |place| && place[h].InFlight? && region.lastBatchHead == h
    ensures FlagInv(region, 1, place[h := Published(k)])
  {}

  lemma PostKeeps(s: State, h: nat)
    requires Inv(s) && Enabled(s, Post(h))
    ensures Inv(Apply(s, Post(h)))
  {
    hide Conserved, RingHolds, CountersAscend, FlagInv, WorkInv, PushInv, CountersBelow, Slot, SlotAt, RingSize;
    var hs, s' := s.hist, Apply(s, Post(h));
    PostedWindow(hs, s.n, h);
    IdxStep(hs.base + |hs.availLog|);
    RingHoldsAppend(s.availRing, hs.base, hs.availLog, hs.fetched, h);
    HistPostKeeps(hs, s.n, h);
    SameInFlightKeeps(hs.place, s'.hist.place, s.region, Lead(s), s.dev);
  }

  /** The driver reads the used ring in publication order. */
  lemma ConsumeReads(s: State)
    requires Inv(s) && s.driverUsed != s.usedRingIdx
    ensures s.hist.consumed < |s.hist.usedLog|
    ensures s.usedRing[Slot(s.driverUsed, s.n)] == s.hist.usedLog[s.hist.consumed] < s.n
  {
    RingHoldsAt(s.usedRing, s.hist.base, s.hist.usedLog, s.hist.consumed);
  }

  lemma ConsumeKeeps(s: State)
    requires Inv(s) && Enabled(s, Consume)
    ensures Inv(Apply(s, Consume))
  {
    hide Conserved, RingHolds, CountersAscend, FlagInv, WorkInv, PushInv, CountersBelow, Slot, SlotAt, RingSize;
    var hs := s.hist;
    ConsumeReads(s);
    IdxStep(hs.base + hs.consumed);
    RingHoldsTail(s.usedRing, hs.base, hs.usedLog, hs.consumed);
    HistConsumeKeeps(hs, s.n);
    SameInFlightKeeps(hs.place, Apply(s, Consume).hist.place, s.region, Lead(s), s.dev);
  }

  lemma CrashKeeps(s: State)
    requires Inv(s) && Enabled(s, Crash)
    ensures Inv(Apply(s, Crash))
  {}

  lemma ReconnectKeeps(s: State)
    requires Inv(s) && Enabled(s, Reconnect)
    ensures Inv(Apply(s, Reconnect))
  {
    MaxCounterBounds(s.region.desc);
  }

  lemma SameCounters(a: seq<DescState>, b: seq<DescState>)
    requires |a| == |b| && forall i :: 0 <= i < |a| ==> a[i].counter == b[i].counter
    ensures Touched(a) <==> Touched(b)
  {
    if Touched(a) { var i :| 0 <= i < |a| && a[i].counter > 0; assert b[i].counter > 0; }
    if Touched(b) { var i :| 0 <= i < |b| && b[i].counter > 0; assert a[i].counter > 0; }
  }

  lemma ClearLastKeeps(s: State)
    requires Inv(s) && Enabled(s, ClearLast)
    ensures Inv(Apply(s, ClearLast))
  {
    hide PlaceInv, Conserved, RingHolds, WorkInv, PushInv, CountersBelow, Slot, RingSize;
    SameCounters(s.region.desc, Apply(s, ClearLast).region.desc);
  }

  /** At the end of recovery the flags mark exactly the requests fetched and not published. */
  lemma FlagsExact(s: State, todo: seq<nat>)
    requires Inv(s) && Enabled(s, FinishRecovery(todo))
    ensures forall h :: 0 <= h < s.n ==> (s.region.desc[h].inflight <==> s.hist.place[h].InFlight?)
  {}

  lemma InFlightIsOutstanding(hs: History, n: nat)
    requires LogShape(hs, n) && PlaceInv(hs, n)
    ensures forall h :: h in hs.outstanding <==> 0 <= h < n && hs.place[h].InFlight?
  {
    forall h | 0 <= h < n && hs.place[h].InFlight? ensures h in hs.outstanding {
      assert Placed(hs, h);
    }
  }

  /** What recovery replays is exactly what was fetched and not published, in fetch order. */
  lemma ReplayIsOutstanding(s: State, todo: seq<nat>)
    requires Inv(s) && Enabled(s, FinishRecovery(todo))
    ensures todo == s.hist.outstanding
  {
    FlagsExact(s, todo);
    InFlightIsOutstanding(s.hist, s.n);
    SortedUnique(s.region.desc, s.hist.outstanding, todo);
  }

  lemma FinishRecoveryKeeps(s: State, todo: seq<nat>)
    requires Inv(s) && Enabled(s, FinishRecovery(todo))
    ensures Inv(Apply(s, FinishRecovery(todo)))
  {
    FlagsExact(s, todo);
    ReplayIsOutstanding(s, todo);
    InFlightIsOutstanding(s.hist, s.n);
  }

  lemma ResubmitKeeps(s: State)
    requires Inv(s) && Enabled(s, Resubmit)
    ensures Inv(Apply(s, Resubmit))
  {
    hide PlaceInv, Conserved, RingHolds, CountersAscend, FlagInv, WorkInv, Slot, RingSize;
    WorkResubmit(s.dev.todo, s.dev.backend, s.dev.push, s.hist.place);
  }

  /** A compliant driver's next entry: what the ring slot holds is the next posted head. */
  lemma FetchReads(s: State)
    requires Inv(s) && s.dev.Up? && s.dev.todo == [] && s.dev.fetch.NotFetching?
    requires s.dev.lastAvail != s.availIdx
    ensures s.hist.fetched < |s.hist.availLog|
    ensures s.availRing[Slot(s.dev.lastAvail, s.n)] == s.hist.availLog[s.hist.fetched] < s.n
  {
    RingHoldsAt(s.availRing, s.hist.base, s.hist.availLog, s.hist.fetched);
  }

  lemma FetchCounterKeeps(s: State)
    requires Inv(s) && Enabled(s, FetchCounter)
    ensures Inv(Apply(s, FetchCounter))
  {
    hide Conserved, RingHolds, WorkInv, Slot, RingSize;
    FetchReads(s);
    var s' := Apply(s, FetchCounter);
    var h := s.availRing[Slot(s.dev.lastAvail, s.n)];
    assert s'.region.desc[h].counter > 0;
    assert Touched(s'.region.desc);
  }

  lemma FetchFlagKeeps(s: State)
    requires Inv(s) && Enabled(s, FetchFlag)
    ensures Inv(Apply(s, FetchFlag))
  {
    hide Conserved, RingHolds, WorkInv, Slot, SlotAt, RingSize;
    var s', hs := Apply(s, FetchFlag), s.hist;
    SameCounters(s.region.desc, s'.region.desc);
    assert s.region.desc[s.dev.fetch.head].counter > 0;
    HistFetchKeeps(hs, s.n);
    WorkFetch(s.dev.backend, s.dev.push, hs.place, s.dev.fetch.head, hs.fetched);
    RingHoldsTail(s.availRing, hs.base, hs.availLog, hs.fetched);
  }

  lemma LeaveHandlerKeeps(s: State)
    requires Inv(s) && Enabled(s, LeaveHandler)
    ensures Inv(Apply(s, LeaveHandler))
  {
    hide PlaceInv, Conserved, RingHolds, CountersAscend, FlagInv, WorkInv, PushInv, Slot, RingSize;
    IdxStep(s.hist.base + s.hist.fetched - |s.dev.todo| - 1);
  }

  lemma PushElemKeeps(s: State, h: nat)
    requires Inv(s) && Enabled(s, PushElem(h))
    ensures Inv(Apply(s, PushElem(h)))
  {
    hide Conserved, RingHolds, CountersAscend, FlagInv, CountersBelow, Slot, RingSize;
    PublishedWindow(s.hist, s.n, h);
    RingHoldsAppend(s.usedRing, s.hist.base, s.hist.usedLog, s.hist.consumed, h);
  }

  lemma PushNextKeeps(s: State)
    requires Inv(s) && Enabled(s, PushNext)
    ensures Inv(Apply(s, PushNext))
  {
    hide PlaceInv, Conserved, RingHolds, Slot, SlotAt, RingSize;
    SameCounters(s.region.desc, Apply(s, PushNext).region.desc);
  }

  lemma PushHeadKeeps(s: State)
    requires Inv(s) && Enabled(s, PushHead)
    ensures Inv(Apply(s, PushHead))
  {
    hide PlaceInv, Conserved, RingHolds, CountersAscend, FlagInv, WorkInv, CountersBelow, Slot, SlotAt, RingSize;
    var h := s.dev.push.head;
    WorkSameHead(s.dev.todo, s.dev.backend, s.dev.push, BatchHeadStored(h), s.hist.place);
    FlagNoLead(s.region, h, s.hist.place);
  }

  lemma PushIdxKeeps(s: State)
    requires Inv(s) && Enabled(s, PushIdx)
    ensures Inv(Apply(s, PushIdx))
  {
    hide PlaceInv, Conserved, RingHolds, CountersAscend, FlagInv, WorkInv, CountersBelow, Slot, SlotAt, RingSize,
         Without;
    var s', hs, h := Apply(s, PushIdx), s.hist, s.dev.push.head;
    WorkPublish(s.dev.todo, s.dev.backend, s.dev.push, hs.place, h, |hs.usedLog|);
    HistPublishKeeps(hs, s.n, h);
    IdxStep(hs.base + |hs.usedLog|);
    InFlightIsOutstanding(hs, s.n);
    WithoutAscends(s.region.desc, hs.outstanding, h);
    RingHoldsNext(s.usedRing, hs.base, hs.usedLog, hs.consumed, h);
    FlagPublish(s.region, hs.place, h, |hs.usedLog|);
  }

  lemma PushFlagKeeps(s: State)
    requires Inv(s) && Enabled(s, PushFlag)
    ensures Inv(Apply(s, PushFlag))
  {
    hide PlaceInv, Conserved, RingHolds, Slot, SlotAt, RingSize;
    SameCounters(s.region.desc, Apply(s, PushFlag).region.desc);
  }

  lemma PushUsedIdxKeeps(s: State)
    requires Inv(s) && Enabled(s, PushUsedIdx)
    ensures Inv(Apply(s, PushUsedIdx))
  {
    hide PlaceInv, Conserved, RingHolds, CountersAscend, WorkInv, CountersBelow, Slot, SlotAt, RingSize;
    WorkSameHead(s.dev.todo, s.dev.backend, s.dev.push, NotPushing, s.hist.place);
  }

  lemma StepKeeps(s: State, l: Label)
    requires Inv(s) && Enabled(s, l)
    ensures Inv(Apply(s, l))
  {
    match l
    case Post(h) => PostKeeps(s, h);
    case Consume => ConsumeKeeps(s);
    case Crash => CrashKeeps(s);
    case Reconnect => ReconnectKeeps(s);
    case ClearLast => ClearLastKeeps(s);
    case FinishRecovery(todo) => FinishRecoveryKeeps(s, todo);
    case Resubmit => ResubmitKeeps(s);
    case FetchCounter => FetchCounterKeeps(s);
    case FetchFlag => FetchFlagKeeps(s);
    case LeaveHandler => LeaveHandlerKeeps(s);
    case PushElem(h) => PushElemKeeps(s, h);
    case PushNext => PushNextKeeps(s);
    case PushHead => PushHeadKeeps(s);
    case PushIdx => PushIdxKeeps(s);
    case PushFlag => PushFlagKeeps(s);
    case PushUsedIdx => PushUsedIdxKeeps(s);
  }

  // ----- whole runs

  ghost predicate Run(s: State, ls: seq<Label>, t: State)
    decreases |ls|
  {
    if ls == [] then s == t else Enabled(s, ls[0]) && Run(Apply(s, ls[0]), ls[1..], t)
  }

  lemma {:induction false} RunKeeps(s: State, ls: seq<Label>, t: State)
    requires Inv(s) && Run(s, ls, t)
    ensures Inv(t)
    decreases |ls|
  {
    if ls != [] {
      StepKeeps(s, ls[0]);
      RunKeeps(Apply(s, ls[0]), ls[1..], t);
    }
  }

  ghost predicate Reachable(t: State) {
    exists s, ls :: Init(s) && Run(s, ls, t)
  }

  lemma ReachableInv(t: State)
    requires Reachable(t)
    ensures Inv(t)
  {
    var s, ls :| Init(s) && Run(s, ls, t);
    InitInv(s);
    RunKeeps(s, ls, t);
  }

  /**
   * However often the device dies, every posted entry the device marked as fetched is either
   * published exactly once or still outstanding, and the outstanding ones keep their fetch order.
   */
  lemma ExactlyOnce(t: State)
    requires Reachable(t)
    ensures t.hist.fetched <= |t.hist.availLog|
    ensures multiset(t.hist.availLog[..t.hist.fetched]) == multiset(t.hist.usedLog) + multiset(t.hist.outstanding)
    ensures |t.hist.place| == t.n && FetchOrder(t.hist.outstanding, t.hist.place)
    ensures forall i :: 0 <= i < |t.hist.outstanding| ==>
              var k := t.hist.place[t.hist.outstanding[i]].pos;
              k < t.hist.fetched && t.hist.availLog[k] == t.hist.outstanding[i]
  {
    ReachableInv(t);
    var hs := t.hist;
    forall i | 0 <= i < |hs.outstanding|
      ensures var k := hs.place[hs.outstanding[i]].pos; k < hs.fetched && hs.availLog[k] == hs.outstanding[i]
    {
      assert Placed(hs, hs.outstanding[i]);
    }
  }

  /** The driver takes from the used ring exactly the published heads, in publication order. */
  lemma DriverSeesPublications(t: State)
    requires Reachable(t) && t.driverUsed != t.usedRingIdx
    ensures t.n > 0 && |t.usedRing| == t.n && t.hist.consumed < |t.hist.usedLog|
    ensures t.usedRing[Slot(t.driverUsed, t.n)] == t.hist.usedLog[t.hist.consumed] < t.n
  {
    ReachableInv(t);
    ConsumeReads(t);
  }

  lemma LeadOne(s: State)
    requires Inv(s) && s.dev.Scanned? && s.dev.reqCnt != 0 && Lead(s) != 0
    ensures Lead(s) == 1 && s.region.lastBatchHead < |s.region.desc|
  {}

  /** A recovery that finds the recorded index behind finds it behind by one: no batch was lost. */
  lemma BatchOfOne(t: State)
    requires Reachable(t) && t.dev.Scanned? && t.dev.reqCnt != 0 && Lead(t) != 0
    ensures Lead(t) == 1 && t.region.lastBatchHead < |t.region.desc|
  {
    ReachableInv(t);
    LeadOne(t);
  }

  /** Recovery ends with the flags exact and replays exactly the outstanding heads in fetch order. */
  lemma RecoveryExact(t: State, todo: seq<nat>)
    requires Reachable(t) && Enabled(t, FinishRecovery(todo))
    ensures todo == t.hist.outstanding
    ensures forall h :: 0 <= h < t.n ==> (t.region.desc[h].inflight <==> h in t.hist.outstanding)
    ensures CountersAscend(t.region.desc, todo)
  {
    ReachableInv(t);
    ReplayIsOutstanding(t, todo);
    FlagsExact(t, todo);
    InFlightIsOutstanding(t.hist, t.n);
  }

  /** While the device runs, counters of outstanding heads are distinct and below the next one. */
  lemma CountersFresh(t: State)
    requires Reachable(t) && t.dev.Up?
    ensures CountersAscend(t.region.desc, t.hist.outstanding)
    ensures forall h :: h in t.hist.outstanding ==> h < |t.region.desc| && 0 < t.region.desc[h].counter < t.dev.reqCnt
  {
    ReachableInv(t);
    InFlightIsOutstanding(t.hist, t.n);
    assert forall i :: 0 <= i < |t.hist.outstanding| ==> t.hist.outstanding[i] in t.hist.outstanding;
  }

  lemma Backlog(hs: History, n: nat)
    requires LogShape(hs, n) && PlaceInv(hs, n)
    ensures |hs.availLog| - hs.fetched <= n
  {
    NoMoreThan(hs.availLog[hs.fetched..], n);
  }

  lemma IdxGap(x: int, y: int)
    requires x <= y < x + WRAP
    ensures Idx(Idx(y) - Idx(x)) == y - x
  {}

  /**
   * Once resubmission is over the device stands at the first entry it has not marked: it refetches
   * nothing and skips nothing, the backlog never exceeds the ring, and the slot read holds that entry.
   */
  lemma ResumesAtNextEntry(t: State)
    requires Reachable(t) && t.dev.Up? && t.dev.todo == [] && t.dev.fetch.NotFetching?
    ensures t.dev.lastAvail == Idx(t.hist.base + t.hist.fetched)
    ensures Idx(t.availIdx - t.dev.lastAvail) == |t.hist.availLog| - t.hist.fetched <= t.n
    ensures t.dev.lastAvail != t.availIdx ==>
              && t.n > 0 && |t.availRing| == t.n
              && t.hist.fetched < |t.hist.availLog|
              && t.availRing[Slot(t.dev.lastAvail, t.n)] == t.hist.availLog[t.hist.fetched] < t.n
  {
    ReachableInv(t);
    if t.dev.lastAvail != t.availIdx {
      FetchReads(t);
    }
    Backlog(t.hist, t.n);
    IdxGap(t.hist.base + t.hist.fetched, t.hist.base + |t.hist.availLog|);
  }

  /** A start from ring base `b` resumes at the next entry iff `b` is the used index. */
  lemma ResumeIff(t: State, todo: seq<nat>, b: nat)
    requires Reachable(t) && Enabled(t, FinishRecovery(todo)) && b < WRAP
    ensures Idx(b + |todo|) == Idx(t.hist.base + t.hist.fetched) <==> b == t.usedRingIdx
  {
    ReachableInv(t);
    ReplayIsOutstanding(t, todo);
    assert t.hist.fetched == |t.hist.usedLog| + |todo|;
    IdxShift(b, t.hist.base + |t.hist.usedLog|, |todo|);
  }

  lemma IdxShift(b: nat, x: int, k: nat)
    requires b < WRAP
    ensures Idx(b + k) == Idx(x + k) <==> b == Idx(x)
  {}

  /** Recovery cannot get stuck: from any crash it reaches a running device in three steps or fewer. */
  lemma RecoveryCompletes(t: State) returns (ls: seq<Label>, u: State)
    requires Reachable(t) && t.dev.Down?
    ensures Run(t, ls, u) && |ls| <= 3 && u.dev.Up? && u.dev.todo == t.hist.outstanding && u.hist == t.hist
  {
    hide PlaceInv, Conserved, RingHolds, CountersAscend, FlagInv, IsReplayOrder, RingSize, MaxCounter;
    ReachableInv(t);
    var a := Apply(t, Reconnect);
    ReconnectKeeps(t);
    var o := t.hist.outstanding;
    if a.dev.reqCnt == 0 || Lead(a) == 0 {
      OutstandingReplays(a);
      u := Apply(a, FinishRecovery(o));
      ls := [Reconnect, FinishRecovery(o)];
      assert Run(u, [], u);
      assert Run(a, [FinishRecovery(o)], u);
    } else {
      LeadOne(a);
      var b := Apply(a, ClearLast);
      ClearLastKeeps(a);
      OutstandingReplays(b);
      u := Apply(b, FinishRecovery(o));
      ls := [Reconnect, ClearLast, FinishRecovery(o)];
      assert Run(u, [], u);
      assert Run(b, [FinishRecovery(o)], u);
      assert ls[1..][1..] == [FinishRecovery(o)];
      assert Run(a, ls[1..], u);
    }
  }

  lemma OutstandingReplays(s: State)
    requires Inv(s) && (s.dev.Cleared? || (s.dev.Scanned? && (s.dev.reqCnt == 0 || Lead(s) == 0)))
    ensures IsReplayOrder(s.region.desc, s.hist.outstanding)
  {
    InFlightIsOutstanding(s.hist, s.n);
    assert forall i :: 0 <= i < |s.hist.outstanding| ==> s.hist.outstanding[i] in s.hist.outstanding;
  }

  /** When a head becomes the batch head its entry links to the head of the batch before, whatever came between. */
  lemma BatchLinksBack(s: State)
    requires Reachable(s) && Enabled(s, PushHead)
    ensures var r := Apply(s, PushHead).region;
            && r.lastBatchHead == s.dev.push.head < |r.desc|
            && r.desc[r.lastBatchHead].next == s.region.lastBatchHead
  {
    ReachableInv(s);
  }
}
