/**
 * Two runs of a device with one ring: one that ends in the clean-up's failed assertion, and one
 * that ends with nothing in use and the clean-up not done.
 */
module LifecycleRuns {
  import opened Lifecycle
  import opened LifecycleSafety

  // ----- one ring on one request queue

  function Lone(r: Ring, q: Rq, pending: seq<CtlBh>, batch: seq<CtlBh>, pc: CtlPc, d: Dev, m: Maps): State {
    State([r], [0], [q], pending, batch, pc, d, m, false)
  }

  /** The state `s` is in, field by field. */
  ghost predicate Is(s: State, r: Ring, q: Rq, pending: seq<CtlBh>, batch: seq<CtlBh>, pc: CtlPc, d: Dev, m: Maps) {
    && |s.rings| == 1 && s.rings[0] == r && s.home == [0] && |s.rqs| == 1 && s.rqs[0] == q
    && s.pending == pending && s.batch == batch && s.pc == pc && s.dev == d && s.maps == m && !s.crashed
  }

  function FirstRing(): Ring {
    Ring(false, false, false, false, false, false, 0, [], [], 0, 0, 0)
  }

  function FirstDev(): Dev {
    Dev(false, false, false, true, true, 0, 0, 0, NoCompletion,
        false, false, false, false, false, false, false, false, false)
  }

  lemma Connects() returns (s: State)
    ensures Reachable(s)
    ensures var d := FirstDev().(conn := true, connAttached := true, connOpen := true, listenAttached := false);
            Is(s, FirstRing(), Rq([], [], RqIdle), [], [], CtlIdle, d, Maps(0, 0, [0]))
  {
    s := Lone(FirstRing(), Rq([], [], RqIdle), [], [], CtlIdle, FirstDev(), Maps(0, 0, [0]));
    assert Init(s) && Run(s, [], s);
    Next(s, Accept);
    s := Apply(s, Accept);
  }

  /** A first client that starts a ring before sending a memory table takes the process down. */
  lemma CrashHappens() returns (s: State)
    ensures Reachable(s) && s.crashed
  {
    s := Connects();
    Next(s, MsgKick(0));
    s := Apply(s, MsgKick(0));
  }

  /** Connected with a memory map, and the ring asked to start. */
  function KickedRing(): Ring {
    FirstRing().(kickOpen := true, inited := true, startedCtl := true, mm := 1, kicks := 1)
  }

  function KickedDev(): Dev {
    FirstDev().(conn := true, connOpen := true, listenAttached := false, handling := 1, started := 1, inFlight := 1,
                completion := JustAck, req := true)
  }

  lemma Kicks() returns (s: State)
    ensures Reachable(s)
    ensures Is(s, KickedRing(), Rq([Start(0)], [], RqIdle), [], [], CtlIdle, KickedDev(), Maps(1, 0, [0, 1]))
  {
    s := Connects();
    Next(s, MsgTable);
    s := Apply(s, MsgTable);
    Next(s, MsgKick(0));
    s := Apply(s, MsgKick(0));
  }

  // ----- legs of the runs

  lemma StealRqs(s: State, r: Ring, bhs: seq<RqBh>, d: Dev, m: Maps) returns (t: State)
    requires Reachable(s) && Is(s, r, Rq(bhs, [], RqIdle), [], [], CtlIdle, d, m) && !d.aborted
    ensures Reachable(t) && Is(t, r, Rq([], bhs, RqIdle), [], [], CtlIdle, d, m)
  {
    hide Reachable;
    Next(s, RqSteal(0));
    t := Apply(s, RqSteal(0));
  }

  lemma StealCtl(s: State, r: Ring, q: Rq, bhs: seq<CtlBh>, d: Dev, m: Maps) returns (t: State)
    requires Reachable(s) && Is(s, r, q, bhs, [], CtlIdle, d, m) && !d.aborted
    ensures Reachable(t) && Is(t, r, q, [], bhs, CtlIdle, d, m)
  {
    hide Reachable;
    Next(s, CtlSteal);
    t := Apply(s, CtlSteal);
  }

  lemma StartFails(s: State, r: Ring, d: Dev, m: Maps) returns (t: State)
    requires Reachable(s) && Is(s, r, Rq([], [Start(0)], RqIdle), [], [], CtlIdle, d, m) && !d.aborted
    ensures Reachable(t) && Is(t, r, Rq([], [], RqIdle), [StartFailed(0)], [], CtlIdle, d, m)
  {
    hide Reachable;
    Next(s, RqBhRun(0, false));
    t := Apply(s, RqBhRun(0, false));
  }

  /** The reply that the start failed cannot be sent, so the client is dropped. */
  lemma ReplyFails(s: State, r: Ring, d: Dev, m: Maps) returns (t: State)
    requires Reachable(s) && Is(s, r, Rq([], [], RqIdle), [], [StartFailed(0)], CtlIdle, d, m) && !d.aborted
    requires d.conn && d.handling == 1
    ensures Reachable(t)
    ensures var e := t.dev;
            && !e.conn && !e.aborted && e.replyFailed && e.handling == 0
            && e.started == d.started && e.inFlight == d.inFlight
            && Is(t, r, Rq([], [], RqIdle), [], [], Disconnecting(0, FailedTail(0)), e, m)
  {
    hide Reachable, FailTail;
    Next(s, CtlBhRun(false));
    t := Apply(s, CtlBhRun(false));
  }

  lemma Tells(s: State, r: Ring, bhs: seq<RqBh>, after: After, d: Dev, m: Maps) returns (t: State)
    requires Reachable(s) && Is(s, r, Rq(bhs, [], RqIdle), [], [], Disconnecting(0, after), d, m) && !d.aborted
    requires r.startedCtl && (after.Finish? || after.i == 0)
    ensures Reachable(t)
    ensures Is(t, r.(disconnecting := true), Rq([Stop(0)] + bhs, [], RqIdle), [], [], Disconnecting(1, after), d, m)
  {
    hide Reachable, DisconnectEnd;
    Next(s, CtlStep);
    t := Apply(s, CtlStep);
  }

  lemma TailCleans(s: State, r: Ring, q: Rq, d: Dev, m: Maps) returns (t: State)
    requires Reachable(s) && Is(s, r, q, [], [], Disconnecting(1, FailedTail(0)), d, m) && !d.aborted
    requires d.handling == 0 && d.started == 1 && d.inFlight == 1 && !d.conn && !r.onDrain
    ensures Reachable(t) && !t.dev.connOpen && t.dev.replyFailed == d.replyFailed
  {
    hide Reachable, MaybeFinished, FailTail, WorkDone;
    Next(s, CtlStep);
    t := Apply(s, CtlStep);
    var idle := s.(pc := CtlIdle);
    StillInUse(idle);
    WorkFlight(d);
    assert t == FailTail(Worked(idle), 0);
    FailTailIs(Worked(idle), 0);
    Emptied(FailAcked(Worked(idle), 0), d);
  }

  lemma Emptied(s: State, d: Dev)
    requires s.dev == WorkDone(d).(started := 0, inFlight := 0) && d.handling == 0 && !d.conn
    ensures var t := MaybeFinished(Worked(s)); !t.dev.connOpen && t.dev.replyFailed == d.replyFailed
  {
    hide ResetRings, Bump;
  }

  /** A failed start whose reply cannot be sent ends the process in the clean-up. */
  lemma AbortHappens() returns (s: State)
    ensures Reachable(s) && s.dev.aborted
  {
    hide Reachable, Is;
    s := Kicks();
    var r, d, m := KickedRing(), KickedDev(), Maps(1, 0, [0, 1]);
    s := StealRqs(s, r, [Start(0)], d, m);
    s := StartFails(s, r, d, m);
    s := StealCtl(s, r, Rq([], [], RqIdle), [StartFailed(0)], d, m);
    s := ReplyFails(s, r, d, m);
    d := s.dev;
    s := Tells(s, r, [], FailedTail(0), d, m);
    s := TailCleans(s, r.(disconnecting := true), Rq([Stop(0)] + [], [], RqIdle), d, m);
    AbortIff(s);
  }

  lemma Starts(s: State, r: Ring, d: Dev, m: Maps) returns (t: State)
    requires Reachable(s) && Is(s, r, Rq([], [Start(0)], RqIdle), [], [], CtlIdle, d, m) && !d.aborted
    requires !r.disconnecting
    ensures Reachable(t)
    ensures Is(t, r.(startedRq := true, mm := m.mm), Rq([], [], RqIdle), [MsgHandled(0)], [], CtlIdle, d, m)
  {
    hide Reachable;
    Next(s, RqBhRun(0, true));
    t := Apply(s, RqBhRun(0, true));
    Next(t, RqBhStep(0));
    t := Apply(t, RqBhStep(0));
  }

  lemma Acknowledges(s: State, r: Ring, q: Rq, d: Dev, m: Maps) returns (t: State)
    requires Reachable(s) && Is(s, r, q, [], [MsgHandled(0)], CtlIdle, d, m) && !d.aborted
    requires d.conn && d.handling == 1 && d.completion.JustAck?
    ensures Reachable(t)
    ensures Is(t, r, q, [], [], CtlIdle,
               d.(handling := 0, completion := NoCompletion, req := false, connAttached := true), m)
  {
    hide Reachable;
    Next(s, CtlBhRun(true));
    t := Apply(s, CtlBhRun(true));
  }

  lemma Passes(s: State, r: Ring, d: Dev, m: Maps) returns (t: State)
    requires Reachable(s) && Is(s, r, Rq([], [], RqIdle), [], [], CtlIdle, d, m) && !d.aborted
    requires d.connAttached && d.inFlight == 1 && d.handling == 0 && r.startedCtl
    ensures Reachable(t)
    ensures Is(t, r, Rq([Sync(0)], [], RqIdle), [], [], CtlIdle,
               d.(handling := 1, completion := JustAck, req := true, connAttached := false), m)
  {
    hide Reachable, DisconnectEnd;
    Next(s, MsgFeatures);
    t := Apply(s, MsgFeatures);
    Next(t, CtlStep);
    t := Apply(t, CtlStep);
  }

  lemma Asks(s: State, r: Ring, q: Rq, d: Dev, m: Maps) returns (t: State)
    requires Reachable(s) && Is(s, r, q, [], [], CtlIdle, d, m) && !d.aborted && !d.stopAsked
    ensures Reachable(t) && Is(t, r, q, [StopWork], [], CtlIdle, d.(stopAsked := true), m)
  {
    hide Reachable;
    Next(s, AskStop);
    t := Apply(s, AskStop);
  }

  lemma Stops(s: State, r: Ring, q: Rq, d: Dev, m: Maps) returns (t: State)
    requires Reachable(s) && Is(s, r, q, [], [StopWork], CtlIdle, d, m) && !d.aborted && d.conn
    ensures Reachable(t)
    ensures Is(t, r, q, [], [], Disconnecting(0, Finish), Stopping(d).(conn := false, connAttached := false), m)
  {
    hide Reachable, MaybeFinished;
    Next(s, CtlBhRun(true));
    t := Apply(s, CtlBhRun(true));
  }

  lemma WorkStays(d: Dev)
    requires d.started > 0
    ensures WorkDone(d) == d
  {}

  lemma WorkEnds(d: Dev)
    requires d.started == 0 && !d.listening
    ensures WorkDone(d) == d.(work := false)
  {}

  lemma Told1(s: State, r: Ring, q: Rq, d: Dev, m: Maps) returns (t: State)
    requires Reachable(s) && Is(s, r, q, [], [], Disconnecting(1, Finish), d, m) && !d.aborted && d.started == 1
    requires d.inFlight == 1
    ensures Reachable(t) && Is(t, r, q, [], [], CtlIdle, d, m)
  {
    hide Reachable, MaybeFinished, WorkDone;
    Next(s, CtlStep);
    t := Apply(s, CtlStep);
    StillInUse(s.(pc := CtlIdle));
    WorkStays(d);
  }

  lemma StopsRing(s: State, r: Ring, d: Dev, m: Maps) returns (t: State)
    requires Reachable(s) && Is(s, r, Rq([], [Stop(0), Sync(0)], RqIdle), [], [], CtlIdle, d, m) && !d.aborted
    requires r.startedRq && r.queued == [] && r.busy == []
    ensures Reachable(t)
    ensures Is(t, r.(startedRq := false), Rq([], [Sync(0)], RqIdle), [Drained(0), Stopped(0)], [], CtlIdle, d, m)
  {
    t := StopsFirst(s, r, d, m);
    hide Reachable;
    Next(t, RqBhStep(0));
    t := Apply(t, RqBhStep(0));
  }

  lemma StopsFirst(s: State, r: Ring, d: Dev, m: Maps) returns (t: State)
    requires Reachable(s) && Is(s, r, Rq([], [Stop(0), Sync(0)], RqIdle), [], [], CtlIdle, d, m) && !d.aborted
    requires r.startedRq && r.queued == [] && r.busy == []
    ensures Reachable(t)
    ensures Is(t, r.(startedRq := false), Rq([], [Sync(0)], StopPosted(0)), [Stopped(0)], [], CtlIdle, d, m)
  {
    hide Reachable;
    Next(s, RqBhRun(0, true));
    t := Apply(s, RqBhRun(0, true));
    assert t.maps.refs == m.refs;
  }

  /** Both acknowledgements run while the message is still being handled. */
  lemma DrainsFirst(s: State, r: Ring, q: Rq, d: Dev, m: Maps) returns (t: State)
    requires Reachable(s) && Is(s, r, q, [], [Drained(0), Stopped(0)], CtlIdle, d, m) && !d.aborted
    requires !r.onDrain && d.handling == 1 && d.started == 1 && d.inFlight == 1
    ensures Reachable(t)
    ensures Is(t, AckDrain(r).(inited := false), q, [], [Stopped(0)], CtlIdle, d.(inFlight := 0), m)
  {
    hide Reachable, MaybeFinished, WorkDone, AckDrain, DrainFront;
    Next(s, CtlBhRun(true));
    t := Apply(s, CtlBhRun(true));
    var a := s.(batch := s.batch[1..]);
    NoReply(a, 0, true);
    StillInUse(SetRing(SetRing(a, 0, AckDrain(r)), 0, AckDrain(r).(inited := false)).(dev := d.(inFlight := 0)));
    WorkStays(d.(inFlight := 0));
  }

  lemma ThenStops(s: State, r: Ring, q: Rq, d: Dev, m: Maps) returns (t: State)
    requires Reachable(s) && Is(s, r, q, [], [Stopped(0)], CtlIdle, d, m) && !d.aborted
    requires d.handling == 1 && d.started == 1 && !d.listening
    ensures Reachable(t)
    ensures Is(t, AckStop(r), q, [], [], CtlIdle, d.(started := 0, work := false), m)
  {
    hide Reachable, MaybeFinished, WorkDone, AckStop, MarkStopped;
    Next(s, CtlBhRun(true));
    t := Apply(s, CtlBhRun(true));
    assert s.batch[1..] == [];
    assert t == MarkStopped(s.(batch := []), 0);
    StopAcked(s.(batch := []));
    WorkEnds(d.(started := 0));
  }

  lemma StopAcked(s: State)
    requires |s.rings| == 1 && s.dev.handling == 1 && s.dev.started == 1
    ensures MarkStopped(s, 0) == SetRing(s, 0, AckStop(s.rings[0])).(dev := WorkDone(s.dev.(started := 0)))
  {
    hide MaybeFinished, WorkDone, AckStop;
    StillInUse(SetRing(s, 0, AckStop(s.rings[0])).(dev := s.dev.(started := 0)));
  }

  lemma SyncsLast(s: State, r: Ring, d: Dev, m: Maps) returns (t: State)
    requires Reachable(s) && Is(s, r, Rq([], [Sync(0)], RqIdle), [], [], CtlIdle, d, m) && !d.aborted
    ensures Reachable(t)
    ensures Is(t, r.(mm := m.mm), Rq([], [], RqIdle), [MsgHandled(0)], [], CtlIdle, d, m)
  {
    hide Reachable;
    Next(s, RqBhRun(0, true));
    t := Apply(s, RqBhRun(0, true));
  }

  /** A stop during a message, whose ring is acknowledged stopped and drained before the message is. */
  lemma StrandingHappens() returns (s: State)
    ensures Reachable(s) && Stranded(s)
  {
    hide Reachable, Is;
    s := Kicks();
    var r, d, m, idle := KickedRing(), KickedDev(), Maps(1, 0, [0, 1]), Rq([], [], RqIdle);
    s := StealRqs(s, r, [Start(0)], d, m);
    s := Starts(s, r, d, m);
    r := r.(startedRq := true, mm := m.mm);
    s := StealCtl(s, r, idle, [MsgHandled(0)], d, m);
    s := Acknowledges(s, r, idle, d, m);
    d := d.(handling := 0, completion := NoCompletion, req := false, connAttached := true);
    s := Passes(s, r, d, m);
    d := d.(handling := 1, completion := JustAck, req := true, connAttached := false);
    s := StopsDevice(s, r, d, m);
    d := Stopping(d.(stopAsked := true)).(conn := false, connAttached := false);
    r := r.(disconnecting := true);
    s := StealRqs(s, r, [Stop(0), Sync(0)], d, m);
    s := StopsRing(s, r, d, m);
    r := r.(startedRq := false);
    s := StealCtl(s, r, Rq([], [Sync(0)], RqIdle), [Drained(0), Stopped(0)], d, m);
    s := DrainsFirst(s, r, Rq([], [Sync(0)], RqIdle), d, m);
    r := AckDrain(r).(inited := false);
    d := d.(inFlight := 0);
    s := ThenStops(s, r, Rq([], [Sync(0)], RqIdle), d, m);
    r := AckStop(r);
    d := d.(started := 0, work := false);
    s := SyncsLast(s, r, d, m);
    r := r.(mm := m.mm);
    s := StealCtl(s, r, idle, [MsgHandled(0)], d, m);
    s := LastAck(s, r, idle, d, m);
  }

  lemma StopsDevice(s: State, r: Ring, d: Dev, m: Maps) returns (t: State)
    requires Reachable(s) && Is(s, r, Rq([Sync(0)], [], RqIdle), [], [], CtlIdle, d, m) && !d.aborted && !d.stopAsked
    requires d.conn
    requires d.started == 1 && d.inFlight == 1 && r.startedCtl
    ensures Reachable(t)
    ensures Is(t, r.(disconnecting := true), Rq([Stop(0), Sync(0)], [], RqIdle), [], [], CtlIdle,
               Stopping(d.(stopAsked := true)).(conn := false, connAttached := false), m)
  {
    hide Reachable, Is;
    var q := Rq([Sync(0)], [], RqIdle);
    t := Asks(s, r, q, d, m);
    var e := d.(stopAsked := true);
    t := StealCtl(t, r, q, [StopWork], e, m);
    t := Stops(t, r, q, e, m);
    e := Stopping(e).(conn := false, connAttached := false);
    t := Tells(t, r, [Sync(0)], Finish, e, m);
    assert [Stop(0)] + [Sync(0)] == [Stop(0), Sync(0)];
    t := Told1(t, r.(disconnecting := true), Rq([Stop(0), Sync(0)], [], RqIdle), e, m);
  }

  lemma LastAck(s: State, r: Ring, q: Rq, d: Dev, m: Maps) returns (t: State)
    requires Reachable(s) && Is(s, r, q, [], [MsgHandled(0)], CtlIdle, d, m) && !d.aborted
    requires !d.conn && d.handling == 1 && d.started == 0 && d.inFlight == 0 && d.connOpen
    ensures Reachable(t) && Stranded(t)
  {
    hide Reachable, Apply;
    assert Enabled(s, CtlBhRun(true));
    Next(s, CtlBhRun(true));
    StrandedIff(s, CtlBhRun(true));
    t := Apply(s, CtlBhRun(true));
  }
}
