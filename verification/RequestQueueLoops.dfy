/** The request queue's loops over its lists, against the steps of the request queue. */
module RequestQueueLoops {
  import opened Sequences
  import opened RequestQueue

  /** The labels of one run of the completion bottom half that nobody pushes into. */
  function BatchLabels(n: nat): seq<Label> {
    [Steal] + seq(n, i => CompleteOne) + [EndBh]
  }

  lemma {:induction false} RunOn(s: State, ls: seq<Label>, t: State, l: Label)
    requires Run(s, ls, t) && Enabled(t, l)
    ensures Run(s, ls + [l], Apply(t, l))
    decreases |ls|
  {
    hide Enabled, Apply;
    if ls != [] {
      RunOn(Apply(s, ls[0]), ls[1..], t, l);
      assert (ls + [l])[1..] == ls[1..] + [l];
    }
  }

  lemma {:induction false} OnlyAppend(xs: seq<nat>, x: nat, ringOf: seq<nat>, ring: nat)
    ensures Only(xs + [x], ringOf, ring) == Only(xs, ringOf, ring) + if Of(ringOf, x, ring) then [x] else []
    ensures Except(xs + [x], ringOf, ring) == Except(xs, ringOf, ring) + if Of(ringOf, x, ring) then [] else [x]
  {
    if xs == [] {
      assert xs + [x] == [x];
    } else {
      assert (xs + [x])[1..] == xs[1..] + [x];
      OnlyAppend(xs[1..], x, ringOf, ring);
    }
  }

  lemma CompleteIs(s: State)
    requires Enabled(s, CompleteOne)
    ensures Apply(s, CompleteOne) == Completed(s)
  {}

  lemma InOrder(s: State)
    requires Inv(s)
    ensures forall i, j :: 0 <= i < j < |s.lists.submission| ==> s.lists.submission[i] < s.lists.submission[j]
  {
    AscendingParts(s.log.served, s.lists.submission, |s.place|);
  }

  lemma FirstReady(s: State)
    requires Inv(s) && s.bh.pc.Idle? && s.lists.submission != []
    ensures Enabled(s, Dequeue)
  {
    var x := s.lists.submission[0];
    assert Occ(s.lists.submission, x) >= 1 && PlacedAt(PlaceAt(s.place, x), x, s.lists, s.log, []);
  }

  class Queue {
    var ringOf: seq<nat>
    var place: seq<Place>
    var marks: seq<bool>
    var submission: seq<nat>
    var inflight: seq<nat>
    var completion: seq<nat>
    var log: Log
    var scheduled: bool
    var owing: nat
    var flights: seq<int>
    var stats: Stats

    /** The queue between two handlers, or with its thread at `pc`. */
    ghost function View(pc: Pc): State
      reads this
    {
      State(ringOf, place, marks, Lists(submission, inflight, completion), log,
            Bh(pc, scheduled, owing), flights, stats)
    }

    method Enqueue(ring: nat) returns (x: nat)
      requires Inv(View(Idle)) && ring < |flights|
      modifies this
      ensures View(Idle) == Apply(old(View(Idle)), Arrive(ring, false)) && Inv(View(Idle)) && x == old(|place|)
      ensures forall i :: 0 <= i < |submission| - 1 ==> submission[i] < submission[|submission| - 1]
      ensures submission != [] && submission[|submission| - 1] == x
    {
      ArriveKeeps(View(Idle), ring, false);
      ghost var t := Apply(View(Idle), Arrive(ring, false));
      InOrder(t);
      x := |place|;
      ringOf, place, marks := ringOf + [ring], place + [Queued], marks + [true];
      flights := flights[ring := flights[ring] + 1];
      submission := submission + [x];
      stats := stats.(enqueued := stats.enqueued + 1);
    }

    method Dequeue() returns (ok: bool, x: nat)
      requires Inv(View(Idle))
      modifies this
      ensures ok == (old(submission) != [])
      ensures if ok then
                && Enabled(old(View(Idle)), RequestQueue.Dequeue)
                && View(Idle) == Apply(old(View(Idle)), RequestQueue.Dequeue) && x == old(submission)[0]
              else View(Idle) == old(View(Idle))
      ensures Inv(View(Idle))
      ensures ok ==> x in old(submission) && forall i :: 0 <= i < |submission| ==> x < submission[i]
    {
      if submission == [] { return false, 0; }
      InOrder(View(Idle));
      FirstReady(View(Idle));
      hide Inv;
      ok, x := true, submission[0];
      DequeueKeeps(View(Idle));
      submission, inflight, log := submission[1..], inflight + [x], log.(served := log.served + [x]);
      place := place[x := Backend];
      stats := stats.(dequeued := stats.dequeued + 1);
    }

    /** Walk the waiting requests and cancel those of one ring. */
    method CancelQueued(ring: nat)
      requires Inv(View(Idle)) && ring < |flights|
      modifies this
      ensures View(Idle) == Apply(old(View(Idle)), Cancel(ring)) && Inv(View(Idle))
    {
      hide Inv, Walked, Kept, Cancelled;
      ghost var s, k := View(Idle), 0;
      CancelKeeps(s, ring);
      WalkNone(s, ring);
      var i := 0;
      while i < |submission|
        invariant k <= |s.lists.submission| && i == Kept(s, k, ring) && View(Idle) == Walked(s, k, ring)
        invariant |s.lists.submission| - k == |submission| - i
        decreases |submission| - i
      {
        WalkOne(s, k, ring);
        var x := submission[i];
        if ringOf[x] == ring {
          submission := submission[..i] + submission[i + 1..];
          place := place[x := Dropped];
          log := log.(cancelled := log.cancelled + [x], freed := log.freed + [x]);
          flights := flights[ring := flights[ring] - 1];
          stats := stats.(cancelled := stats.cancelled + 1);
        } else {
          i := i + 1;
        }
        k := k + 1;
      }
      WalkAll(s, ring);
    }

    /** Push a request the backend is done with; the first on the stack schedules the bottom half. */
    method CompleteBio(x: nat, canceled: bool, ghost pc: Pc)
      requires Inv(View(pc)) && Enabled(View(pc), Push(x, canceled))
      modifies this
      ensures Inv(View(pc))
      ensures var t := Apply(old(View(pc)), Push(x, canceled));
              View(pc) == if old(completion) == [] then Apply(t, Schedule) else t
    {
      hide Inv;
      PushKeeps(View(pc), x, canceled);
      var first := completion == [];
      completion := [x] + completion;
      place := place[x := Pushed(canceled)];
      log := log.(pushed := log.pushed + [x]);
      if first {
        ghost var t := View(pc).(bh := View(pc).bh.(owing := owing + 1));
        StepKeeps(t, Schedule);
        scheduled := true;
      }
    }

    /** The stack was filled last in, first out; the completions go the other way. */
    static method TurnRound(stack: seq<nat>) returns (io: seq<nat>)
      ensures io == Reversed(stack)
    {
      var stolen := stack;
      io := [];
      while stolen != []
        invariant Reversed(stack) == Reversed(stolen) + io
      {
        assert Reversed(stolen) + io == Reversed(stolen[1..]) + ([stolen[0]] + io);
        stolen, io := stolen[1..], [stolen[0]] + io;
      }
    }

    method FinishOne(io: seq<nat>)
      requires Enabled(View(Completing(io)), CompleteOne)
      modifies this
      ensures View(Completing(io[1..])) == Apply(old(View(Completing(io))), CompleteOne)
    {
      hide Without, Apply, Unmarked;
      CompleteIs(View(Completing(io)));
      var x: nat := io[0];
      var canceled := place[x].canceled;
      var published := if canceled then log.published else log.published + [x];
      inflight, marks := Without(inflight, x), Unmarked(marks, x, canceled);
      log := log.(completed := log.completed + [x], published := published, freed := log.freed + [x]);
      place, flights := place[x := Done(canceled)], flights[ringOf[x] := flights[ringOf[x]] - 1];
      stats := stats.(completed := stats.completed + 1);
    }

    /** Steal the stack, turn it round, complete its requests. */
    method CompletionBh()
      requires Inv(View(Started))
      modifies this
      ensures Run(old(View(Started)), BatchLabels(|old(completion)|), View(Idle))
      ensures Inv(View(Idle)) && completion == [] && log.pushed == old(log.pushed) == log.completed
    {
      hide Inv, Run, Apply, Reversed, Enabled;
      ghost var s, n := View(Started), |completion|;
      var io := TurnRound(completion);
      SizeReversed(completion);
      StealFirst(s);
      completion := [];
      ghost var k := 0;
      while io != []
        invariant Inv(View(Completing(io))) && Run(s, Begun(k), View(Completing(io)))
        invariant |io| == n - k && completion == [] && log.pushed == s.log.pushed
      {
        ghost var t := View(Completing(io));
        HeadPushed(t);
        NextOne(s, k, t);
        FinishOne(io);
        io, k := io[1..], k + 1;
      }
      LastOne(s, k, View(Completing(io)));
    }
  }

  /** The bottom half with `k` requests completed. */
  function Begun(k: nat): seq<Label> {
    [Steal] + seq(k, i => CompleteOne)
  }

  lemma StealFirst(s: State)
    requires Inv(s) && s.bh.pc.Started?
    ensures var t := s.(lists := s.lists.(completion := []),
                        bh := s.bh.(pc := Completing(Reversed(s.lists.completion))));
            Inv(t) && Run(s, Begun(0), t)
  {
    StepKeeps(s, Steal);
    RunOn(s, [], s, Steal);
    assert [] + [Steal] == Begun(0);
  }

  lemma NextOne(s: State, k: nat, t: State)
    requires Run(s, Begun(k), t) && Inv(t) && Enabled(t, CompleteOne)
    ensures var u := Apply(t, CompleteOne);
            && Run(s, Begun(k + 1), u) && Inv(u)
            && u.log.pushed == t.log.pushed && u.lists.completion == t.lists.completion
  {
    CompleteKeeps(t);
    RunOn(s, Begun(k), t, CompleteOne);
    assert Begun(k) + [CompleteOne] == Begun(k + 1);
    hide Inv, Run;
  }

  lemma LastOne(s: State, k: nat, t: State)
    requires Run(s, Begun(k), t) && Inv(t) && t.bh.pc == Completing([]) && t.lists.completion == []
    ensures var u := t.(bh := t.bh.(pc := Idle));
            Run(s, BatchLabels(k), u) && Inv(u) && u.log.pushed == u.log.completed
  {
    StepKeeps(t, EndBh);
    RunOn(s, Begun(k), t, EndBh);
    assert Begun(k) + [EndBh] == BatchLabels(k);
  }

  lemma {:induction false} SizeReversed(xs: seq<nat>)
    ensures |Reversed(xs)| == |xs|
  {
    if xs != [] { SizeReversed(xs[1..]); }
  }

  /** A stolen request is in flight, pushed, and of a ring. */
  lemma HeadPushed(s: State)
    requires Inv(s) && s.bh.pc.Completing? && s.bh.pc.rest != []
    ensures Enabled(s, CompleteOne)
  {
    var x := s.bh.pc.rest[0];
    assert Occ(s.bh.pc.rest, x) >= 1;
    assert PlacedAt(PlaceAt(s.place, x), x, s.lists, s.log, Rest(s.bh.pc));
  }

  function CancelLog(log: Log, gone: seq<nat>): Log {
    log.(cancelled := log.cancelled + gone, freed := log.freed + gone)
  }

  ghost function DroppedBy(s: State, seen: seq<nat>, ring: nat, x: nat): Place
    requires x < |s.place|
  {
    if Of(s.ringOf, x, ring) && Occ(seen, x) > 0 then Dropped else s.place[x]
  }

  lemma Waiting(s: State, k: nat)
    requires Inv(s) && k < |s.lists.submission|
    ensures s.lists.submission[k] < |s.place| && s.lists.submission[k] < |s.ringOf|
  {
    var x := s.lists.submission[k];
    OccAt(s.lists.submission, k);
    assert PlacedAt(PlaceAt(s.place, x), x, s.lists, s.log, Rest(s.bh.pc));
  }

  lemma NextOccs(s: State, sub: seq<nat>, k: nat, ring: nat)
    requires k < |sub|
    ensures sub[..k + 1] == sub[..k] + [sub[k]]
    ensures forall x: nat :: Occ(sub[..k + 1], x) == Occ(sub[..k], x) + One(x == sub[k])
    ensures Only(sub[..k + 1], s.ringOf, ring)
         == Only(sub[..k], s.ringOf, ring) + if Of(s.ringOf, sub[k], ring) then [sub[k]] else []
    ensures Except(sub[..k + 1], s.ringOf, ring)
         == Except(sub[..k], s.ringOf, ring) + if Of(s.ringOf, sub[k], ring) then [] else [sub[k]]
  {
    assert sub[..k + 1] == sub[..k] + [sub[k]];
    forall x: nat ensures Occ(sub[..k + 1], x) == Occ(sub[..k], x) + One(x == sub[k]) {
      OccAppend(sub[..k], sub[k], x);
    }
    OnlyAppend(sub[..k], sub[k], s.ringOf, ring);
  }

  /** How many of the first `k` waiting requests stay. */
  ghost function Kept(s: State, k: nat, ring: nat): nat
    requires k <= |s.lists.submission|
  {
    |Except(s.lists.submission[..k], s.ringOf, ring)|
  }

  /** The state once the first `k` waiting requests have been looked at. */
  ghost function Walked(s: State, k: nat, ring: nat): State
    requires k <= |s.lists.submission| && ring < |s.flights|
  {
    var seen := s.lists.submission[..k];
    var gone := Only(seen, s.ringOf, ring);
    s.(place := seq(|s.place|, x requires 0 <= x < |s.place| => DroppedBy(s, seen, ring, x)),
       lists := s.lists.(submission := Except(seen, s.ringOf, ring) + s.lists.submission[k..]),
       log := CancelLog(s.log, gone),
       flights := Bump(s.flights, ring, -|gone|),
       stats := s.stats.(cancelled := s.stats.cancelled + |gone|))
  }

  lemma WalkNone(s: State, ring: nat)
    requires ring < |s.flights|
    ensures Walked(s, 0, ring) == s && Kept(s, 0, ring) == 0
  {
    var t := Walked(s, 0, ring);
    assert s.lists.submission[..0] == [];
    assert t.place == s.place;
    assert t.lists.submission == s.lists.submission;
    assert t.log.cancelled == s.log.cancelled && t.log.freed == s.log.freed;
    assert t.flights == s.flights;
  }

  /** One cancelled request. */
  ghost function DropOne(a: State, i: nat, ring: nat): State
    requires ring < |a.flights| && i < |a.lists.submission| && a.lists.submission[i] < |a.place|
  {
    var sub := a.lists.submission;
    a.(place := a.place[sub[i] := Dropped],
       lists := a.lists.(submission := sub[..i] + sub[i + 1..]),
       log := CancelLog(a.log, [sub[i]]),
       flights := a.flights[ring := a.flights[ring] - 1],
       stats := a.stats.(cancelled := a.stats.cancelled + 1))
  }

  lemma WalkPlace(s: State, k: nat, ring: nat)
    requires k < |s.lists.submission| && ring < |s.flights| && |s.ringOf| == |s.place|
    requires s.lists.submission[k] < |s.place|
    ensures var a, b, x := Walked(s, k, ring), Walked(s, k + 1, ring), s.lists.submission[k];
            b.place == if s.ringOf[x] == ring then a.place[x := Dropped] else a.place
  {
    NextOccs(s, s.lists.submission, k, ring);
  }

  ghost function Left(sub: seq<nat>, k: nat, ringOf: seq<nat>, ring: nat): seq<nat>
    requires k <= |sub|
  {
    Except(sub[..k], ringOf, ring) + sub[k..]
  }

  lemma WalkList(sub: seq<nat>, k: nat, ringOf: seq<nat>, ring: nat)
    requires k < |sub|
    ensures var a, b, i := Left(sub, k, ringOf, ring), Left(sub, k + 1, ringOf, ring), |Except(sub[..k], ringOf, ring)|;
            && i < |a| && a[i] == sub[k]
            && b == (if Of(ringOf, sub[k], ring) then a[..i] + a[i + 1..] else a)
            && |Except(sub[..k + 1], ringOf, ring)| == (if Of(ringOf, sub[k], ring) then i else i + 1)
  {
    assert sub[..k + 1] == sub[..k] + [sub[k]];
    assert sub[k..] == [sub[k]] + sub[k + 1..];
    OnlyAppend(sub[..k], sub[k], ringOf, ring);
  }

  lemma WalkLog(s: State, k: nat, ring: nat)
    requires k < |s.lists.submission| && ring < |s.flights|
    ensures var a, b, x := Walked(s, k, ring), Walked(s, k + 1, ring), s.lists.submission[k];
            && b.log == (if Of(s.ringOf, x, ring) then CancelLog(a.log, [x]) else a.log)
            && b.flights == (if Of(s.ringOf, x, ring) then a.flights[ring := a.flights[ring] - 1] else a.flights)
            && b.stats == (if Of(s.ringOf, x, ring) then a.stats.(cancelled := a.stats.cancelled + 1) else a.stats)
  {
    hide Except, DroppedBy;
    var sub := s.lists.submission;
    assert sub[..k + 1] == sub[..k] + [sub[k]];
    OnlyAppend(sub[..k], sub[k], s.ringOf, ring);
  }

  lemma WalkFrame(s: State, k: nat, ring: nat)
    requires k <= |s.lists.submission| && ring < |s.flights|
    ensures var a := Walked(s, k, ring);
            && a.ringOf == s.ringOf && |a.place| == |s.place| && |a.flights| == |s.flights| && a.bh == s.bh
            && a.lists == s.lists.(submission := Left(s.lists.submission, k, s.ringOf, ring))
            && a.marks == s.marks && a == State(a.ringOf, a.place, a.marks, a.lists, a.log, a.bh, a.flights, a.stats)
  {
    hide Except, Only, DroppedBy;
  }

  lemma WalkOne(s: State, k: nat, ring: nat)
    requires Inv(s) && k < |s.lists.submission| && ring < |s.flights|
    ensures var a, b, x, i := Walked(s, k, ring), Walked(s, k + 1, ring), s.lists.submission[k], Kept(s, k, ring);
            && x < |s.ringOf| == |s.place| == |a.place| && i < |a.lists.submission| && a.lists.submission[i] == x
            && a.ringOf == s.ringOf && |a.flights| == |s.flights|
            && Kept(s, k + 1, ring) == (if s.ringOf[x] == ring then i else i + 1)
            && b == if s.ringOf[x] == ring then DropOne(a, i, ring) else a
  {
    hide Inv, Walked, CancelLog, Left;
    Waiting(s, k);
    SameSize(s);
    WalkPlace(s, k, ring);
    WalkList(s.lists.submission, k, s.ringOf, ring);
    WalkLog(s, k, ring);
    WalkFrame(s, k, ring);
    WalkFrame(s, k + 1, ring);
  }

  lemma SameSize(s: State)
    requires Inv(s)
    ensures |s.place| == |s.ringOf|
  {}

  lemma WalkAll(s: State, ring: nat)
    requires Inv(s) && ring < |s.flights|
    ensures Walked(s, |s.lists.submission|, ring) == Cancelled(s, ring)
  {
    var n := |s.lists.submission|;
    assert s.lists.submission[..n] == s.lists.submission;
    forall x | 0 <= x < |s.place|
      ensures DroppedBy(s, s.lists.submission, ring, x) == DropAll(s.place, s.ringOf, ring)[x] {
      assert PlacedAt(PlaceAt(s.place, x), x, s.lists, s.log, Rest(s.bh.pc));
    }
    var t := Walked(s, n, ring);
    assert t.place == Cancelled(s, ring).place;
    assert t.lists.submission == Except(s.lists.submission, s.ringOf, ring) + [];
  }
}
