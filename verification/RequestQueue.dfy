/**
 * A request queue: requests of several rings wait for the backend, go to it, come back through a
 * stack any thread may push on, and are completed by a bottom half in the order they came back.
 */
module RequestQueue {
  import opened Sequences

  // ----- data

  /** Where a request is, `Nowhere` before it is parsed.  `canceled` is the status its completion carries. */
  datatype Place = Nowhere | Queued | Backend | Pushed(canceled: bool) | Instant | Done(canceled: bool) | Dropped

  /**
   * The queue's own thread: between handlers, in the completion bottom half before it steals the
   * stack, or with these stolen requests still to complete.
   */
  datatype Pc = Idle | Started | Completing(rest: seq<nat>)

  datatype Lists = Lists(submission: seq<nat>, inflight: seq<nat>, completion: seq<nat>)

  /**
   * Requests in the order they went to the backend, their pushes took effect, they were completed,
   * cancelled, published and freed.
   */
  datatype Log = Log(
    served: seq<nat>,
    pushed: seq<nat>,
    completed: seq<nat>,
    cancelled: seq<nat>,
    published: seq<nat>,
    freed: seq<nat>)

  /** `owing` counts threads that pushed on an empty stack and have yet to schedule the bottom half. */
  datatype Bh = Bh(pc: Pc, scheduled: bool, owing: nat)

  datatype Stats = Stats(enqueued: nat, dequeued: nat, completed: nat, cancelled: nat)

  /**
   * Requests are numbered in the order they are parsed; `marks` are their inflight flags and
   * `flights` is each ring's num_in_flight.
   */
  datatype State = State(
    ringOf: seq<nat>,
    place: seq<Place>,
    marks: seq<bool>,
    lists: Lists,
    log: Log,
    bh: Bh,
    flights: seq<int>,
    stats: Stats)

  ghost predicate Init(s: State) {
    && s.ringOf == [] && s.place == [] && s.marks == []
    && s.lists == Lists([], [], []) && s.log == Log([], [], [], [], [], [])
    && s.bh == Bh(Idle, false, 0) && s.stats == Stats(0, 0, 0, 0)
    && forall r :: 0 <= r < |s.flights| ==> s.flights[r] == 0
  }

  // ----- list operations

  function Reversed(xs: seq<nat>): seq<nat> {
    if xs == [] then [] else Reversed(xs[1..]) + [xs[0]]
  }

  predicate Of(ringOf: seq<nat>, x: nat, ring: nat) {
    x < |ringOf| && ringOf[x] == ring
  }

  /** The requests of one ring, or all others, in order. */
  function Only(xs: seq<nat>, ringOf: seq<nat>, ring: nat): seq<nat> {
    if xs == [] then []
    else if Of(ringOf, xs[0], ring) then [xs[0]] + Only(xs[1..], ringOf, ring) else Only(xs[1..], ringOf, ring)
  }

  function Except(xs: seq<nat>, ringOf: seq<nat>, ring: nat): seq<nat> {
    if xs == [] then []
    else if Of(ringOf, xs[0], ring) then Except(xs[1..], ringOf, ring) else [xs[0]] + Except(xs[1..], ringOf, ring)
  }

  // ----- steps

  datatype Label =
    | Arrive(ring: nat, instant: bool)
    | Dequeue
    | Cancel(ring: nat)
    | Push(x: nat, canceled: bool)
    | Schedule
    | RunBh
    | Steal
    | CompleteOne
    | EndBh

  /** Premise on the backend: it completes a request it was given once. */
  predicate Enabled(s: State, l: Label) {
    match l
    case Arrive(ring, _) => s.bh.pc.Idle? && ring < |s.flights|
    case Dequeue => s.bh.pc.Idle? && s.lists.submission != [] && s.lists.submission[0] < |s.place|
    case Cancel(ring) => s.bh.pc.Idle? && ring < |s.flights|
    case Push(x, _) => x < |s.place| && s.place[x].Backend?
    case Schedule => s.bh.owing > 0
    case RunBh => s.bh.pc.Idle? && s.bh.scheduled
    case Steal => s.bh.pc.Started?
    case CompleteOne =>
      && s.bh.pc.Completing? && s.bh.pc.rest != [] && s.bh.pc.rest[0] < |s.place| && s.bh.pc.rest[0] < |s.ringOf|
      && s.ringOf[s.bh.pc.rest[0]] < |s.flights| && s.place[s.bh.pc.rest[0]].Pushed?
    case EndBh => s.bh.pc.Completing? && s.bh.pc.rest == []
  }

  function Bump(flights: seq<int>, ring: nat, n: int): seq<int>
    requires ring < |flights|
  {
    flights[ring := flights[ring] + n]
  }

  /** The places of all queued requests of a ring become `Dropped`. */
  function DropAll(place: seq<Place>, ringOf: seq<nat>, ring: nat): seq<Place> {
    seq(|place|, i requires 0 <= i < |place| =>
      if place[i].Queued? && Of(ringOf, i, ring) then Dropped else place[i])
  }

  /** A parsed request, marked when it was fetched, is answered at once or waits for the backend. */
  function Arrived(s: State, ring: nat, instant: bool): State
    requires ring < |s.flights|
  {
    var x := |s.place|;
    if instant then
      s.(ringOf := s.ringOf + [ring], place := s.place + [Instant], marks := s.marks + [false],
         log := s.log.(published := s.log.published + [x], freed := s.log.freed + [x]))
    else
      s.(ringOf := s.ringOf + [ring], place := s.place + [Queued], marks := s.marks + [true],
         lists := s.lists.(submission := s.lists.submission + [x]),
         flights := Bump(s.flights, ring, 1),
         stats := s.stats.(enqueued := s.stats.enqueued + 1))
  }

  function Dequeued(s: State): State
    requires s.lists.submission != [] && s.lists.submission[0] < |s.place|
  {
    var x := s.lists.submission[0];
    s.(place := s.place[x := Backend],
       lists := s.lists.(submission := s.lists.submission[1..], inflight := s.lists.inflight + [x]),
       log := s.log.(served := s.log.served + [x]),
       stats := s.stats.(dequeued := s.stats.dequeued + 1))
  }

  function Cancelled(s: State, ring: nat): State
    requires ring < |s.flights|
  {
    var gone := Only(s.lists.submission, s.ringOf, ring);
    s.(place := DropAll(s.place, s.ringOf, ring),
       lists := s.lists.(submission := Except(s.lists.submission, s.ringOf, ring)),
       log := s.log.(cancelled := s.log.cancelled + gone, freed := s.log.freed + gone),
       flights := Bump(s.flights, ring, -|gone|),
       stats := s.stats.(cancelled := s.stats.cancelled + |gone|))
  }

  function PushedOn(s: State, x: nat, canceled: bool): State
    requires x < |s.place|
  {
    var first := s.lists.completion == [];
    s.(place := s.place[x := Pushed(canceled)],
       lists := s.lists.(completion := [x] + s.lists.completion),
       log := s.log.(pushed := s.log.pushed + [x]),
       bh := s.bh.(owing := s.bh.owing + if first then 1 else 0))
  }

  /** Publishing clears the mark. */
  function Unmarked(marks: seq<bool>, x: nat, canceled: bool): seq<bool> {
    if !canceled && x < |marks| then marks[x := false] else marks
  }

  function Completed(s: State): State
    requires s.bh.pc.Completing? && s.bh.pc.rest != [] && s.bh.pc.rest[0] < |s.place| && s.bh.pc.rest[0] < |s.ringOf|
    requires s.ringOf[s.bh.pc.rest[0]] < |s.flights| && s.place[s.bh.pc.rest[0]].Pushed?
  {
    var x := s.bh.pc.rest[0];
    var canceled := s.place[x].canceled;
    s.(place := s.place[x := Done(canceled)],
       marks := Unmarked(s.marks, x, canceled),
       lists := s.lists.(inflight := Without(s.lists.inflight, x)),
       log := s.log.(completed := s.log.completed + [x],
                     published := if canceled then s.log.published else s.log.published + [x],
                     freed := s.log.freed + [x]),
       bh := s.bh.(pc := Completing(s.bh.pc.rest[1..])),
       flights := Bump(s.flights, s.ringOf[x], -1),
       stats := s.stats.(completed := s.stats.completed + 1))
  }

  function Apply(s: State, l: Label): State
    requires Enabled(s, l)
  {
    match l
    case Arrive(ring, instant) => Arrived(s, ring, instant)
    case Dequeue => Dequeued(s)
    case Cancel(ring) => Cancelled(s, ring)
    case Push(x, canceled) => PushedOn(s, x, canceled)
    case Schedule => s.(bh := s.bh.(scheduled := true, owing := s.bh.owing - 1))
    case RunBh => s.(bh := s.bh.(scheduled := false, pc := Started))
    case Steal =>
      s.(lists := s.lists.(completion := []), bh := s.bh.(pc := Completing(Reversed(s.lists.completion))))
    case CompleteOne => Completed(s)
    case EndBh => s.(bh := s.bh.(pc := Idle))
  }

  // ----- the invariant

  function Rest(pc: Pc): seq<nat> {
    if pc.Completing? then pc.rest else []
  }

  /** A stack with something on it is being taken care of. */
  predicate BhInv(bh: Bh, completion: seq<nat>) {
    completion != [] ==> bh.scheduled || bh.pc.Started? || bh.owing > 0
  }

  /** Completion order is push order, across batches. */
  predicate OrderInv(log: Log, pc: Pc, completion: seq<nat>) {
    log.pushed == log.completed + (Rest(pc) + Reversed(completion))
  }

  /** Every request is once in the lists its place says, and in no other. */
  ghost predicate PlacedAt(p: Place, x: nat, lists: Lists, log: Log, rest: seq<nat>) {
    && Occ(lists.submission, x) == One(p.Queued?)
    && Occ(lists.inflight, x) == One(p.Backend? || p.Pushed?)
    && Occ(rest, x) + Occ(lists.completion, x) == One(p.Pushed?)
    && Occ(log.completed, x) == One(p.Done?)
    && Occ(log.cancelled, x) == One(p.Dropped?)
    && Occ(log.published, x) == One(p.Instant? || (p.Done? && !p.canceled))
    && Occ(log.freed, x) == One(p.Instant? || p.Done? || p.Dropped?)
  }

  function PlaceAt(place: seq<Place>, x: nat): Place {
    if x < |place| then place[x] else Nowhere
  }

  ghost predicate PlaceInv(place: seq<Place>, lists: Lists, log: Log, rest: seq<nat>) {
    && (forall x: nat :: PlacedAt(PlaceAt(place, x), x, lists, log, rest))
    && (forall x :: 0 <= x < |place| ==> !place[x].Nowhere?)
  }

  /** A request stays marked until it is published. */
  ghost predicate MarkInv(marks: seq<bool>, place: seq<Place>) {
    && |marks| == |place|
    && (forall x :: 0 <= x < |place| ==> (marks[x] <==> !place[x].Instant? && place[x] != Done(false)))
  }

  ghost predicate Ascending(xs: seq<nat>, n: nat) {
    && (forall i, j :: 0 <= i < j < |xs| ==> xs[i] < xs[j])
    && (forall i :: 0 <= i < |xs| ==> xs[i] < n)
  }

  predicate StatInv(stats: Stats, lists: Lists, log: Log) {
    && stats.enqueued == stats.dequeued + stats.cancelled + |lists.submission|
    && stats.dequeued == stats.completed + |lists.inflight|
    && stats.completed == |log.completed| && stats.cancelled == |log.cancelled|
  }

  function CountRing(xs: seq<nat>, ringOf: seq<nat>, ring: nat): nat {
    if xs == [] then 0 else One(Of(ringOf, xs[0], ring)) + CountRing(xs[1..], ringOf, ring)
  }

  /** num_in_flight counts a ring's requests in both lists. */
  ghost predicate FlightInv(flights: seq<int>, ringOf: seq<nat>, lists: Lists) {
    && (forall r :: 0 <= r < |flights| ==>
          flights[r] == CountRing(lists.submission, ringOf, r) + CountRing(lists.inflight, ringOf, r))
    && (forall x :: 0 <= x < |ringOf| ==> ringOf[x] < |flights|)
  }

  ghost predicate Inv(s: State) {
    && |s.place| == |s.ringOf|
    && BhInv(s.bh, s.lists.completion)
    && OrderInv(s.log, s.bh.pc, s.lists.completion)
    && PlaceInv(s.place, s.lists, s.log, Rest(s.bh.pc))
    && StatInv(s.stats, s.lists, s.log)
    && FlightInv(s.flights, s.ringOf, s.lists)
    && MarkInv(s.marks, s.place)
    && Ascending(s.log.served + s.lists.submission, |s.place|)
  }

  // ----- lists

  lemma {:induction false} OccReversed(xs: seq<nat>, x: nat)
    ensures Occ(Reversed(xs), x) == Occ(xs, x)
  {
    if xs != [] {
      OccReversed(xs[1..], x);
      OccAppend(Reversed(xs[1..]), xs[0], x);
    }
  }

  lemma {:induction false} OccWithout(xs: seq<nat>, y: nat, x: nat)
    requires Occ(xs, y) >= 1
    ensures Occ(Without(xs, y), x) == Occ(xs, x) - One(x == y)
  {
    if xs[0] != y { OccWithout(xs[1..], y, x); }
  }

  lemma {:induction false} SizeWithout(xs: seq<nat>, y: nat)
    requires Occ(xs, y) >= 1
    ensures |Without(xs, y)| == |xs| - 1
  {
    if xs[0] != y { SizeWithout(xs[1..], y); }
  }

  lemma {:induction false} CountWithout(xs: seq<nat>, y: nat, ringOf: seq<nat>, ring: nat)
    requires Occ(xs, y) >= 1
    ensures CountRing(Without(xs, y), ringOf, ring) == CountRing(xs, ringOf, ring) - One(Of(ringOf, y, ring))
  {
    if xs[0] != y { CountWithout(xs[1..], y, ringOf, ring); }
  }

  lemma {:induction false} CountAppend(xs: seq<nat>, y: nat, ringOf: seq<nat>, ring: nat)
    ensures CountRing(xs + [y], ringOf, ring) == CountRing(xs, ringOf, ring) + One(Of(ringOf, y, ring))
  {
    if xs == [] {
      assert xs + [y] == [y];
    } else {
      assert (xs + [y])[1..] == xs[1..] + [y];
      CountAppend(xs[1..], y, ringOf, ring);
    }
  }

  /** Requests parsed later do not change what is counted. */
  lemma {:induction false} CountExtends(xs: seq<nat>, ringOf: seq<nat>, last: nat, ring: nat)
    requires forall x: nat :: |ringOf| <= x ==> Occ(xs, x) == 0
    ensures CountRing(xs, ringOf + [last], ring) == CountRing(xs, ringOf, ring)
  {
    if xs != [] {
      assert Occ(xs, xs[0]) >= 1;
      forall x: nat | |ringOf| <= x ensures Occ(xs[1..], x) == 0 {
        assert Occ(xs, x) == 0;
      }
      CountExtends(xs[1..], ringOf, last, ring);
    }
  }

  lemma {:induction false} OccSplit(xs: seq<nat>, ringOf: seq<nat>, ring: nat, x: nat)
    ensures Occ(Only(xs, ringOf, ring), x) == if Of(ringOf, x, ring) then Occ(xs, x) else 0
    ensures Occ(Except(xs, ringOf, ring), x) == if Of(ringOf, x, ring) then 0 else Occ(xs, x)
  {
    if xs != [] { OccSplit(xs[1..], ringOf, ring, x); }
  }

  lemma {:induction false} SizeSplit(xs: seq<nat>, ringOf: seq<nat>, ring: nat)
    ensures |Only(xs, ringOf, ring)| + |Except(xs, ringOf, ring)| == |xs|
    ensures |Only(xs, ringOf, ring)| == CountRing(xs, ringOf, ring)
  {
    if xs != [] { SizeSplit(xs[1..], ringOf, ring); }
  }

  lemma {:induction false} CountExcept(xs: seq<nat>, ringOf: seq<nat>, ring: nat, r: nat)
    ensures CountRing(Except(xs, ringOf, ring), ringOf, r) == if r == ring then 0 else CountRing(xs, ringOf, r)
  {
    if xs != [] { CountExcept(xs[1..], ringOf, ring, r); }
  }

  /** What is left of a list has the same order. */
  lemma {:induction false} ExceptAscends(pre: seq<nat>, xs: seq<nat>, n: nat, ringOf: seq<nat>, ring: nat)
    requires Ascending(pre + xs, n)
    ensures Ascending(pre + Except(xs, ringOf, ring), n)
    decreases |xs|
  {
    if xs != [] {
      assert pre + xs == (pre + [xs[0]]) + xs[1..];
      if Of(ringOf, xs[0], ring) {
        DropOneAscends(pre, xs, n);
        ExceptAscends(pre, xs[1..], n, ringOf, ring);
      } else {
        ExceptAscends(pre + [xs[0]], xs[1..], n, ringOf, ring);
        assert pre + ([xs[0]] + Except(xs[1..], ringOf, ring)) == (pre + [xs[0]]) + Except(xs[1..], ringOf, ring);
      }
    }
  }

  lemma AscendingParts(pre: seq<nat>, xs: seq<nat>, n: nat)
    requires Ascending(pre + xs, n)
    ensures forall i, j :: 0 <= i < j < |xs| ==> xs[i] < xs[j]
    ensures forall i, j :: 0 <= i < |pre| && 0 <= j < |xs| ==> pre[i] < xs[j]
  {
    var all := pre + xs;
    forall i, j | 0 <= i < j < |xs| ensures xs[i] < xs[j] {
      assert all[|pre| + i] < all[|pre| + j];
    }
    forall i, j | 0 <= i < |pre| && 0 <= j < |xs| ensures pre[i] < xs[j] {
      assert all[i] < all[|pre| + j];
    }
  }

  lemma DropOneAscends(pre: seq<nat>, xs: seq<nat>, n: nat)
    requires Ascending(pre + xs, n) && xs != []
    ensures Ascending(pre + xs[1..], n)
  {
    var a, b := pre + xs, pre + xs[1..];
    assert forall i :: 0 <= i < |b| ==> b[i] == a[if i < |pre| then i else i + 1];
  }

  // ----- every step keeps the invariant

  lemma ArriveKeeps(s: State, ring: nat, instant: bool)
    requires Inv(s) && Enabled(s, Arrive(ring, instant))
    ensures Inv(Apply(s, Arrive(ring, instant)))
  {
    var t, x: nat := Arrived(s, ring, instant), |s.place|;
    assert t.place[..x] == s.place;
    assert PlaceAt(s.place, x) == Nowhere;
    forall y: nat ensures PlacedAt(PlaceAt(t.place, y), y, t.lists, t.log, Rest(t.bh.pc)) {
      assert PlacedAt(PlaceAt(s.place, y), y, s.lists, s.log, Rest(s.bh.pc));
      OccAppend(s.log.published, x, y);
      OccAppend(s.log.freed, x, y);
      OccAppend(s.lists.submission, x, y);
    }
    ArriveCounts(s, ring, instant);
    assert s.log.served + (s.lists.submission + [x]) == (s.log.served + s.lists.submission) + [x];
  }

  lemma ArriveCounts(s: State, ring: nat, instant: bool)
    requires Inv(s) && ring < |s.flights|
    ensures var t := Arrived(s, ring, instant); FlightInv(t.flights, t.ringOf, t.lists)
  {
    var t, x: nat := Arrived(s, ring, instant), |s.place|;
    hide OrderInv, BhInv, StatInv;
    forall y: nat | x <= y ensures Occ(s.lists.submission, y) == 0 && Occ(s.lists.inflight, y) == 0 {
      assert PlacedAt(PlaceAt(s.place, y), y, s.lists, s.log, Rest(s.bh.pc));
    }
    hide PlaceInv;
    forall r | 0 <= r < |t.flights|
      ensures t.flights[r] == CountRing(t.lists.submission, t.ringOf, r) + CountRing(t.lists.inflight, t.ringOf, r)
    {
      CountExtends(s.lists.submission, s.ringOf, ring, r);
      CountExtends(s.lists.inflight, s.ringOf, ring, r);
      CountAppend(s.lists.submission, x, t.ringOf, r);
    }
  }

  lemma DequeueKeeps(s: State)
    requires Inv(s) && Enabled(s, Dequeue)
    ensures Inv(Apply(s, Dequeue))
  {
    var t, x := Dequeued(s), s.lists.submission[0];
    assert Occ(s.lists.submission, x) >= 1;
    assert PlacedAt(PlaceAt(s.place, x), x, s.lists, s.log, Rest(s.bh.pc));
    forall y: nat ensures PlacedAt(PlaceAt(t.place, y), y, t.lists, t.log, Rest(t.bh.pc)) {
      assert PlacedAt(PlaceAt(s.place, y), y, s.lists, s.log, Rest(s.bh.pc));
      OccAppend(s.lists.inflight, x, y);
    }
    assert (s.log.served + [x]) + s.lists.submission[1..] == s.log.served + s.lists.submission;
    forall r | 0 <= r < |t.flights|
      ensures t.flights[r] == CountRing(t.lists.submission, t.ringOf, r) + CountRing(t.lists.inflight, t.ringOf, r)
    {
      CountAppend(s.lists.inflight, x, s.ringOf, r);
    }
  }

  lemma CancelKeeps(s: State, ring: nat)
    requires Inv(s) && Enabled(s, Cancel(ring))
    ensures Inv(Apply(s, Cancel(ring)))
  {
    var t, sub := Cancelled(s, ring), s.lists.submission;
    var gone := Only(sub, s.ringOf, ring);
    forall y: nat ensures PlacedAt(PlaceAt(t.place, y), y, t.lists, t.log, Rest(t.bh.pc)) {
      assert PlacedAt(PlaceAt(s.place, y), y, s.lists, s.log, Rest(s.bh.pc));
      OccSplit(sub, s.ringOf, ring, y);
      OccConcat(s.log.cancelled, gone, y);
      OccConcat(s.log.freed, gone, y);
    }
    SizeSplit(sub, s.ringOf, ring);
    ExceptAscends(s.log.served, sub, |s.place|, s.ringOf, ring);
    forall r | 0 <= r < |t.flights|
      ensures t.flights[r] == CountRing(t.lists.submission, t.ringOf, r) + CountRing(t.lists.inflight, t.ringOf, r)
    {
      CountExcept(sub, s.ringOf, ring, r);
    }
  }

  lemma PushKeeps(s: State, x: nat, canceled: bool)
    requires Inv(s) && Enabled(s, Push(x, canceled))
    ensures Inv(Apply(s, Push(x, canceled)))
  {
    hide PlaceInv, CountRing, OrderInv, Occ, Ascending;
    PushPlaces(s, x, canceled);
    PushOrder(s.log, s.bh.pc, s.lists.completion, x);
  }

  lemma PushPlaces(s: State, x: nat, canceled: bool)
    requires PlaceInv(s.place, s.lists, s.log, Rest(s.bh.pc)) && Enabled(s, Push(x, canceled))
    ensures var t := PushedOn(s, x, canceled); PlaceInv(t.place, t.lists, t.log, Rest(t.bh.pc))
  {
    var t := PushedOn(s, x, canceled);
    assert PlacedAt(PlaceAt(s.place, x), x, s.lists, s.log, Rest(s.bh.pc));
    forall y: nat ensures PlacedAt(PlaceAt(t.place, y), y, t.lists, t.log, Rest(t.bh.pc)) {
      assert PlacedAt(PlaceAt(s.place, y), y, s.lists, s.log, Rest(s.bh.pc));
      OccCons(s.lists.completion, x, y);
    }
  }

  lemma PushOrder(log: Log, pc: Pc, completion: seq<nat>, x: nat)
    requires OrderInv(log, pc, completion)
    ensures OrderInv(log.(pushed := log.pushed + [x]), pc, [x] + completion)
  {
    assert ([x] + completion)[1..] == completion;
    assert Reversed([x] + completion) == Reversed(completion) + [x];
    assert log.completed + (Rest(pc) + Reversed(completion)) + [x]
        == log.completed + (Rest(pc) + (Reversed(completion) + [x]));
  }

  lemma StealKeeps(s: State)
    requires Inv(s) && Enabled(s, Steal)
    ensures Inv(Apply(s, Steal))
  {
    var t := Apply(s, Steal);
    forall y: nat ensures PlacedAt(PlaceAt(t.place, y), y, t.lists, t.log, Rest(t.bh.pc)) {
      assert PlacedAt(PlaceAt(s.place, y), y, s.lists, s.log, Rest(s.bh.pc));
      OccReversed(s.lists.completion, y);
    }
    assert Reversed(s.lists.completion) + Reversed([]) == [] + Reversed(s.lists.completion);
  }

  lemma CompletePlaces(s: State)
    requires PlaceInv(s.place, s.lists, s.log, Rest(s.bh.pc)) && Enabled(s, CompleteOne)
    ensures var t := Completed(s); PlaceInv(t.place, t.lists, t.log, Rest(t.bh.pc))
    ensures Occ(s.lists.inflight, s.bh.pc.rest[0]) >= 1
  {
    var t, x := Completed(s), s.bh.pc.rest[0];
    assert PlacedAt(PlaceAt(s.place, x), x, s.lists, s.log, Rest(s.bh.pc));
    forall y: nat ensures PlacedAt(PlaceAt(t.place, y), y, t.lists, t.log, Rest(t.bh.pc)) {
      assert PlacedAt(PlaceAt(s.place, y), y, s.lists, s.log, Rest(s.bh.pc));
      OccWithout(s.lists.inflight, x, y);
      OccAppend(s.log.completed, x, y);
      OccAppend(s.log.published, x, y);
      OccAppend(s.log.freed, x, y);
    }
  }

  lemma CompleteMarks(marks: seq<bool>, place: seq<Place>, x: nat)
    requires MarkInv(marks, place) && x < |place| && place[x].Pushed?
    ensures MarkInv(Unmarked(marks, x, place[x].canceled), place[x := Done(place[x].canceled)])
  {}

  lemma CompleteKeeps(s: State)
    requires Inv(s) && Enabled(s, CompleteOne)
    ensures Inv(Apply(s, CompleteOne))
  {
    hide PlaceInv, FlightInv, OrderInv, Occ, Without, Reversed, MarkInv, Ascending;
    CompleteMarks(s.marks, s.place, s.bh.pc.rest[0]);
    var t, x := Completed(s), s.bh.pc.rest[0];
    CompletePlaces(s);
    SizeWithout(s.lists.inflight, x);
    CompleteOrder(s.log, t.log, s.bh.pc.rest, s.lists.completion);
    CompleteFlights(s.flights, s.ringOf, s.lists, x);
  }

  lemma CompleteOrder(log: Log, log': Log, rest: seq<nat>, completion: seq<nat>)
    requires OrderInv(log, Completing(rest), completion) && rest != []
    requires log'.pushed == log.pushed && log'.completed == log.completed + [rest[0]]
    ensures OrderInv(log', Completing(rest[1..]), completion)
  {
    var tail := Reversed(completion);
    assert rest + tail == [rest[0]] + (rest[1..] + tail);
    assert log.completed + ([rest[0]] + (rest[1..] + tail)) == (log.completed + [rest[0]]) + (rest[1..] + tail);
  }

  lemma CompleteFlights(flights: seq<int>, ringOf: seq<nat>, lists: Lists, x: nat)
    requires FlightInv(flights, ringOf, lists) && x < |ringOf| && Occ(lists.inflight, x) >= 1
    ensures FlightInv(Bump(flights, ringOf[x], -1), ringOf, lists.(inflight := Without(lists.inflight, x)))
  {
    forall r | 0 <= r < |flights|
      ensures Bump(flights, ringOf[x], -1)[r]
              == CountRing(lists.submission, ringOf, r) + CountRing(Without(lists.inflight, x), ringOf, r)
    {
      CountWithout(lists.inflight, x, ringOf, r);
    }
  }

  lemma StepKeeps(s: State, l: Label)
    requires Inv(s) && Enabled(s, l)
    ensures Inv(Apply(s, l))
  {
    match l
    case Arrive(ring, instant) => ArriveKeeps(s, ring, instant);
    case Dequeue => DequeueKeeps(s);
    case Cancel(ring) => CancelKeeps(s, ring);
    case Push(x, canceled) => PushKeeps(s, x, canceled);
    case Steal => StealKeeps(s);
    case CompleteOne => CompleteKeeps(s);
    case Schedule =>
    case RunBh =>
    case EndBh =>
  }

  lemma InitInv(s: State)
    requires Init(s)
    ensures Inv(s)
  {}

  ghost predicate Run(s: State, ls: seq<Label>, t: State)
    decreases |ls|
  {
    if ls == [] then s == t else Enabled(s, ls[0]) && Run(Apply(s, ls[0]), ls[1..], t)
  }

  lemma {:induction false} RunKeeps(s: State, ls: seq<Label>, t: State)
    requires Inv(s) && Run(s, ls, t)
    ensures Inv(t)
    decreases |ls|
  {
    hide Inv, Enabled, Apply;
    if ls != [] {
      StepKeeps(s, ls[0]);
      RunKeeps(Apply(s, ls[0]), ls[1..], t);
    }
  }

  ghost predicate Reachable(s: State) {
    exists s0, ls :: Init(s0) && Run(s0, ls, s)
  }

  lemma ReachableInv(s: State)
    requires Reachable(s)
    ensures Inv(s)
  {
    hide Inv, Init, Run;
    var s0, ls :| Init(s0) && Run(s0, ls, s);
    InitInv(s0);
    RunKeeps(s0, ls, s);
  }

  // ----- theorems

  /**
   * A non-empty completion stack always has its bottom half scheduled, running before its steal, or
   * a pusher about to schedule it.
   */
  lemma NoLostCompletion(s: State)
    requires Reachable(s) && s.lists.completion != []
    ensures s.bh.scheduled || s.bh.pc.Started? || s.bh.owing > 0
  {
    ReachableInv(s);
  }

  /** Over a whole run requests are completed in exactly the order their pushes took effect. */
  lemma FirstBackFirstOut(s: State)
    requires Reachable(s)
    ensures s.log.completed <= s.log.pushed
    ensures s.bh.pc.Idle? && !s.bh.scheduled && s.bh.owing == 0 ==> s.log.completed == s.log.pushed
  {
    ReachableInv(s);
  }

  /**
   * Requests reach the backend in the order they were parsed, over a whole run and across
   * cancellations: each goes before every request still waiting, and after every one that went before.
   */
  lemma FirstInFirstServed(s: State)
    requires Reachable(s) && Enabled(s, Dequeue)
    ensures var t := Apply(s, Dequeue);
            && |t.log.served| == |s.log.served| + 1
            && var x := t.log.served[|s.log.served|];
               && t.log.served == s.log.served + [x] && t.lists.inflight == s.lists.inflight + [x]
               && (forall i :: 0 <= i < |s.log.served| ==> s.log.served[i] < x)
               && (forall i :: 0 <= i < |t.lists.submission| ==> x < t.lists.submission[i])
  {
    ReachableInv(s);
    var sub := s.lists.submission;
    hide Reachable, PlaceInv, FlightInv, MarkInv, StatInv, OrderInv, Ascending;
    AscendingParts(s.log.served, sub, |s.place|);
  }

  /** Requests are served in the order they were parsed. */
  lemma ServedAscends(s: State, i: nat, j: nat)
    requires Reachable(s) && i < j < |s.log.served|
    ensures s.log.served[i] < s.log.served[j] < |s.place|
  {
    ReachableInv(s);
    hide Reachable, PlaceInv, FlightInv, MarkInv, StatInv, OrderInv;
    var all := s.log.served + s.lists.submission;
    assert all[i] == s.log.served[i] && all[j] == s.log.served[j];
  }

  /** Enqueued requests are dequeued, cancelled or waiting; dequeued ones completed or in flight. */
  lemma Conservation(s: State)
    requires Reachable(s)
    ensures s.stats.enqueued == s.stats.dequeued + s.stats.cancelled + |s.lists.submission|
    ensures s.stats.dequeued == s.stats.completed + |s.lists.inflight|
  {
    ReachableInv(s);
  }

  /**
   * Every parsed request is in exactly one place, and it keeps its inflight mark exactly until it is
   * published: one that is cancelled, waiting or with the backend, is left for a resubmission.
   */
  lemma ExactlyOnePlace(s: State, x: nat)
    requires Reachable(s) && x < |s.place|
    ensures !s.place[x].Nowhere?
    ensures Occ(s.lists.submission, x) + Occ(s.lists.inflight, x) + Occ(s.log.completed, x) + Occ(s.log.cancelled, x)
            == One(!s.place[x].Instant?)
    ensures Occ(s.log.freed, x) <= 1 && Occ(s.log.published, x) <= Occ(s.log.freed, x)
    ensures Occ(s.log.freed, x) == 1 <==> Occ(s.lists.submission, x) + Occ(s.lists.inflight, x) == 0
    ensures Occ(s.log.cancelled, x) == 1 ==> Occ(s.log.published, x) == 0
    ensures x < |s.marks| && (s.marks[x] <==> Occ(s.log.published, x) == 0)
  {
    ReachableInv(s);
    assert PlacedAt(PlaceAt(s.place, x), x, s.lists, s.log, Rest(s.bh.pc));
  }

  /** The completion bottom half and the backend always find the requests they take off a list. */
  lemma NeverBlocked(s: State)
    requires Reachable(s)
    ensures s.bh.pc.Completing? && s.bh.pc.rest != [] ==> Enabled(s, CompleteOne)
    ensures s.bh.pc.Idle? && s.lists.submission != [] ==> Enabled(s, Dequeue)
  {
    ReachableInv(s);
    var rest, sub := Rest(s.bh.pc), s.lists.submission;
    if rest != [] {
      assert Occ(rest, rest[0]) >= 1 && PlacedAt(PlaceAt(s.place, rest[0]), rest[0], s.lists, s.log, rest);
    }
    if sub != [] {
      assert Occ(sub, sub[0]) >= 1 && PlacedAt(PlaceAt(s.place, sub[0]), sub[0], s.lists, s.log, rest);
    }
  }

  lemma {:induction false} CountedIn(xs: seq<nat>, ringOf: seq<nat>, ring: nat, x: nat)
    requires Of(ringOf, x, ring)
    ensures Occ(xs, x) <= CountRing(xs, ringOf, ring)
  {
    if xs != [] { CountedIn(xs[1..], ringOf, ring, x); }
  }

  /** A ring counts no request in flight exactly when none of its requests is waiting or with the backend. */
  lemma DrainedIff(s: State, ring: nat)
    requires Reachable(s) && ring < |s.flights|
    ensures s.flights[ring] == 0 <==>
            forall x: nat :: Of(s.ringOf, x, ring) ==> Occ(s.lists.submission, x) == 0 && Occ(s.lists.inflight, x) == 0
  {
    ReachableInv(s);
    hide Inv;
    if s.flights[ring] == 0 {
      assert FlightInv(s.flights, s.ringOf, s.lists) by { Flights(s); }
      forall x: nat | Of(s.ringOf, x, ring) ensures Occ(s.lists.submission, x) == 0 && Occ(s.lists.inflight, x) == 0 {
        CountedIn(s.lists.submission, s.ringOf, ring, x);
        CountedIn(s.lists.inflight, s.ringOf, ring, x);
      }
    } else {
      Flights(s);
      SomeCounted(s.lists.submission, s.ringOf, ring);
      SomeCounted(s.lists.inflight, s.ringOf, ring);
    }
  }

  lemma Flights(s: State)
    requires Inv(s)
    ensures FlightInv(s.flights, s.ringOf, s.lists)
  {}

  lemma {:induction false} SomeCounted(xs: seq<nat>, ringOf: seq<nat>, ring: nat)
    ensures CountRing(xs, ringOf, ring) > 0 ==> exists x: nat :: Of(ringOf, x, ring) && Occ(xs, x) > 0
  {
    if xs != [] {
      SomeCounted(xs[1..], ringOf, ring);
      if Of(ringOf, xs[0], ring) {
        assert Occ(xs, xs[0]) > 0;
      } else if CountRing(xs, ringOf, ring) > 0 {
        var x: nat :| Of(ringOf, x, ring) && Occ(xs[1..], x) > 0;
        assert Occ(xs, x) > 0;
      }
    }
  }

  /**
   * A cancellation leaves none of the ring's requests waiting and takes no other request off the
   * list; what the ring still has in flight is with the backend.
   */
  lemma CancelLeavesNone(s: State, ring: nat, x: nat)
    requires Reachable(s) && Enabled(s, Cancel(ring))
    ensures var t := Apply(s, Cancel(ring));
            && Occ(t.lists.submission, x) == (if Of(s.ringOf, x, ring) then 0 else Occ(s.lists.submission, x))
            && t.lists.inflight == s.lists.inflight
            && t.flights[ring] == CountRing(t.lists.inflight, t.ringOf, ring)
            && Occ(t.log.freed, x) == Occ(s.log.freed, x)
                                      + (if Of(s.ringOf, x, ring) then Occ(s.lists.submission, x) else 0)
            && t.log.published == s.log.published
  {
    ReachableInv(s);
    OccSplit(s.lists.submission, s.ringOf, ring, x);
    OccConcat(s.log.freed, Only(s.lists.submission, s.ringOf, ring), x);
    SizeSplit(s.lists.submission, s.ringOf, ring);
  }

  /** Logs only grow. */
  lemma LogsGrow(s: State, l: Label)
    requires Enabled(s, l)
    ensures var a, b := s.log, Apply(s, l).log;
            && a.served <= b.served && a.pushed <= b.pushed && a.completed <= b.completed
            && a.cancelled <= b.cancelled && a.published <= b.published && a.freed <= b.freed
  {}

  function Count(ls: seq<Label>, l: Label): nat {
    if ls == [] then 0 else One(ls[0] == l) + Count(ls[1..], l)
  }

  /** The completion bottom half runs at most once for each time it is scheduled. */
  lemma {:induction false} RunsWhenScheduled(s: State, ls: seq<Label>, t: State)
    requires Run(s, ls, t)
    ensures Count(ls, RunBh) + One(t.bh.scheduled) <= Count(ls, Schedule) + One(s.bh.scheduled)
    decreases |ls|
  {
    if ls != [] {
      ScheduledStep(s, ls[0]);
      hide Enabled, Apply;
      RunsWhenScheduled(Apply(s, ls[0]), ls[1..], t);
    }
  }

  lemma ScheduledStep(s: State, l: Label)
    requires Enabled(s, l)
    ensures One(l == RunBh) + One(Apply(s, l).bh.scheduled) <= One(l == Schedule) + One(s.bh.scheduled)
  {}

  /** A parsed request is published and freed at once if it is answered at once; otherwise it waits, marked. */
  lemma ArriveGoes(s: State, ring: nat, instant: bool)
    requires Reachable(s) && Enabled(s, Arrive(ring, instant))
    ensures var t, x := Apply(s, Arrive(ring, instant)), |s.place|;
            && t.ringOf == s.ringOf + [ring] && |t.place| == |t.marks| == x + 1 && t.marks[x] == !instant
            && t.lists.submission == s.lists.submission + (if instant then [] else [x])
            && t.log.published == s.log.published + (if instant then [x] else [])
            && t.log.freed == s.log.freed + (if instant then [x] else [])
            && t.flights == s.flights[ring := s.flights[ring] + if instant then 0 else 1]
            && t.lists.inflight == s.lists.inflight && t.lists.completion == s.lists.completion
  {
    ReachableInv(s);
    hide Reachable, PlaceInv, FlightInv, OrderInv, StatInv, Ascending;
    assert s.lists.submission + [] == s.lists.submission;
    assert s.log.published + [] == s.log.published && s.log.freed + [] == s.log.freed;
    assert s.flights[ring := s.flights[ring] + 0] == s.flights;
  }

  /**
   * A completion frees the oldest stolen request; it is published, and loses its mark, exactly if the
   * backend did not hand it back as cancelled.
   */
  lemma CompletionPublishes(s: State)
    requires Reachable(s) && Enabled(s, CompleteOne)
    ensures var t, x := Apply(s, CompleteOne), s.bh.pc.rest[0];
            && t.log.freed == s.log.freed + [x] && t.log.completed == s.log.completed + [x]
            && t.log.published == s.log.published + (if s.place[x].canceled then [] else [x])
            && x < |s.marks| && t.marks == s.marks[x := s.place[x].canceled]
            && t.flights == s.flights[s.ringOf[x] := s.flights[s.ringOf[x]] - 1]
            && t.place == s.place[x := Done(s.place[x].canceled)]
  {
    ReachableInv(s);
    hide Reachable, PlaceInv, FlightInv, OrderInv, StatInv, Ascending, Without;
    assert s.log.published + [] == s.log.published;
  }

  /** What the backend says of a request is what its completion finds. */
  lemma PushRemembers(s: State, x: nat, canceled: bool)
    requires Reachable(s) && Enabled(s, Push(x, canceled))
    ensures var t := Apply(s, Push(x, canceled));
            && t.place == s.place[x := Pushed(canceled)] && t.marks == s.marks && t.log.published == s.log.published
            && t.lists.completion == [x] + s.lists.completion
            && t.bh.owing == s.bh.owing + (if s.lists.completion == [] then 1 else 0)
            && t.bh.pc == s.bh.pc && t.bh.scheduled == s.bh.scheduled
  {}
}
