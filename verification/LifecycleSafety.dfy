/**
 * What holds in every reachable state of the device: what its counters count, that its assertions
 * hold, when it cleans up, when a stop has taken effect, and which memory maps its rings may use.
 */
module LifecycleSafety {
  import opened Sequences
  import opened Sums
  import opened Lifecycle

  // ----- the counters

  function KickOpen(r: Ring): int {
    One(r.kickOpen)
  }

  function Inited(r: Ring): int {
    One(r.inited)
  }

  function StartedCtl(r: Ring): int {
    One(r.startedCtl)
  }

  lemma FlagsAreOwed(r: Ring, b: Bag, ft: nat, dt: nat)
    requires RingOk(r, b, ft, dt)
    ensures KickOpen(r) == StopsOwed(r) && Inited(r) == DrainsOwed(r) + dt && StartedCtl(r) == DrainsOwed(r)
  {}

  lemma FlagsAt(rings: seq<Ring>, bags: seq<Bag>, pc: CtlPc)
    requires RingsInv(rings, bags, pc)
    ensures forall i :: 0 <= i < |rings| ==>
              && KickOpen(rings[i]) == StopsOwed(rings[i])
              && Inited(rings[i]) == DrainsOwed(rings[i]) + Dt(pc, i)
              && StartedCtl(rings[i]) == DrainsOwed(rings[i])
  {
    forall i | 0 <= i < |rings|
      ensures KickOpen(rings[i]) == StopsOwed(rings[i])
              && Inited(rings[i]) == DrainsOwed(rings[i]) + Dt(pc, i)
              && StartedCtl(rings[i]) == DrainsOwed(rings[i])
    {
      RingAt(rings, bags, pc, i);
      FlagsAreOwed(rings[i], bags[i], Ft(pc, i), Dt(pc, i));
    }
  }

  /** A ring whose drain is half acknowledged is counted in flight but no longer started. */
  lemma InFlightCounts(d: Dev, rings: seq<Ring>, bags: seq<Bag>, pc: CtlPc)
    requires RingsInv(rings, bags, pc) && CountInv(d, rings, bags, pc) && PcInv(pc, |rings|)
    ensures d.inFlight == Sum(rings, Inited)
  {
    FlagsAt(rings, bags, pc);
    OwedBounds(rings, bags, pc);
    hide RingsInv;
    if pc.Disconnecting? && pc.after.DrainTail? {
      var i := pc.after.i;
      var r := rings[i].(inited := false);
      SumUpdate(rings, i, r, Inited);
      SumSame(rings[i := r], Inited, rings, DrainsOwed);
    } else {
      SumSame(rings, Inited, rings, DrainsOwed);
    }
  }

  /**
   * The three counters: rings whose stop is not acknowledged, rings whose drain is not, and bottom
   * halves on the way to acknowledging the current message.
   */
  lemma CountersCount(s: State)
    requires Reachable(s)
    ensures s.dev.started == Sum(s.rings, KickOpen)
    ensures s.dev.inFlight == Sum(s.rings, Inited)
    ensures !s.pc.Disconnecting? ==> s.dev.inFlight == Sum(s.rings, StartedCtl)
    ensures Shape(s) && s.dev.handling == Sum(Bags(s), Tokens)
  {
    hide Homed, Bags, Addressed, StopWorks, RefInv, MsgInv, WaitInv, PassInv, RingOk, SessionInv, MapInv, RingsInv,
         Reachable;
    ReachableInv(s);
    Open(s);
    FlagsAt(s.rings, Bags(s), s.pc);
    SumSame(s.rings, KickOpen, s.rings, StopsOwed);
    SumSame(s.rings, StartedCtl, s.rings, DrainsOwed);
    InFlightCounts(s.dev, s.rings, Bags(s), s.pc);
  }

  // ----- one ring

  /** Stopped in the dataplane and empty, with the drain of its start not acknowledged. */
  predicate Settled(r: Ring, b: Bag, ft: nat) {
    DrainsOwed(r) == 1 && !r.startedRq && b.todo.starts + b.todo.fails + ft == 0 && Empty(r) && b.mid == 0
  }

  lemma RingReachable(s: State, i: nat)
    requires Reachable(s) && i < |s.rings|
    ensures Shape(s) && RingOk(s.rings[i], Bags(s)[i], Ft(s.pc, i), Dt(s.pc, i))
  {
    hide Homed, Bags, Addressed, StopWorks, CountInv, RefInv, MsgInv, WaitInv, PassInv, RingOk, SessionInv, MapInv,
         RingsInv, Reachable;
    ReachableInv(s);
    Open(s);
    RingAt(s.rings, Bags(s), s.pc, i);
  }

  /** Every accepted start is acknowledged as stopped at most once and as drained at most once. */
  lemma AckedOnce(s: State, i: nat)
    requires Reachable(s) && i < |s.rings|
    ensures var r := s.rings[i]; r.stops <= r.kicks <= r.stops + 1 && r.drains <= r.kicks <= r.drains + 1
  {
    hide Reachable, Bags;
    RingReachable(s, i);
  }

  /** A ring runs only while the control loop holds it started with its kick descriptor open. */
  lemma RunningIsStarted(s: State, i: nat)
    requires Reachable(s) && i < |s.rings| && s.rings[i].startedRq
    ensures s.rings[i].startedCtl && s.rings[i].kickOpen && s.rings[i].inited
  {
    hide Reachable, Bags;
    RingReachable(s, i);
  }

  /**
   * The drain acknowledgement is queued, once, exactly while the ring is stopped in the dataplane
   * and empty, however start, stop, disconnect and the last completion interleaved.
   */
  lemma DrainQueuedIff(s: State, i: nat)
    requires Reachable(s) && i < |s.rings|
    ensures Shape(s)
    ensures var b := Bags(s)[i];
            b.done.drainP + b.done.drainB == One(Settled(s.rings[i], b, Ft(s.pc, i)))
  {
    hide Reachable, Bags;
    RingReachable(s, i);
  }

  /**
   * A start is accepted only for a ring that nothing of an earlier start can reach any more: its
   * kick descriptor is closed although acknowledgements run last in, first out.
   */
  lemma KickFindsRest(s: State, i: nat)
    requires Reachable(s) && Enabled(s, MsgKick(i))
    ensures var r := s.rings[i];
            && !r.kickOpen && !r.inited && !r.startedRq && !r.onDrain && Empty(r)
            && r.kicks == r.stops == r.drains && Bare(Bags(s)[i])
  {
    ReachableInv(s);
    NoStopInBatch(s, i);
    ReadFacts(s);
    hide Reachable, Bags, Inv, NoneWaits, RingOk, NoTokens;
    ReadTokens(Bags(s), i);
    RingReachable(s, i);
    AtRest(s.rings[i], Bags(s)[i]);
  }

  lemma AtRest(r: Ring, b: Bag)
    requires RingOk(r, b, 0, 0) && Tokens(b) == 0 && b.done.stopB == 0 && b.done.drainB == 0 && !r.startedCtl
    ensures !r.kickOpen && !r.inited && !r.startedRq && !r.onDrain && Empty(r) && r.kicks == r.stops == r.drains
    ensures Bare(b)
  {}

  // ----- assertions

  /** What the source asserts, or relies on without asserting, when it takes a step. */
  ghost predicate AssertsHold(s: State, l: Label)
    requires Enabled(s, l)
  {
    var d := s.dev;
    match l
    case CtlBhRun(_) =>
      (match s.batch[0]
       case MsgHandled(_) => d.handling > 0 && d.completion != NoCompletion
       case Stopped(i) => d.started > 0 && s.rings[i].kickOpen
       case Drained(i) => s.rings[i].startedCtl && s.rings[i].inited && d.inFlight > 0
       case StartFailed(i) =>
         && d.handling > 0 && d.completion != NoCompletion && d.started > 0 && d.inFlight > 0
         && s.rings[i].startedCtl && s.rings[i].inited && !s.rings[i].startedRq
       case StopWork => !d.work && d.listening)
    case CtlStep =>
      s.pc.Disconnecting? ==>
        (match s.pc.after
         case Finish => true
         case FailedTail(i) => d.started > 0 && d.inFlight > 0 && s.rings[i].startedCtl && s.rings[i].inited
         case DrainTail(i) => d.inFlight > 0 && s.rings[i].inited)
    case Accept => !d.connOpen && !d.conn && !d.connAttached && !d.req
    case MsgKick(i) => !s.rings[i].kickOpen && !s.rings[i].inited && d.completion == NoCompletion
    case MsgTable => s.maps.oldMm == 0 && d.completion == NoCompletion
    case MsgLog => !d.oldLog && d.completion == NoCompletion
    case MsgFeatures => d.completion == NoCompletion
    case MsgRingFd(_, _) => !d.keepFd && d.completion == NoCompletion
    case MsgRingAttr(_) => d.completion == NoCompletion
    case MsgBase(_) => forall j :: 0 <= j < |s.rings| ==> !s.rings[j].onDrain
    case RqBhRun(r, _) => s.rqs[r].batch[0].Start? ==> !s.rings[s.rqs[r].batch[0].i].startedRq
    case RqBhStep(r) => s.rqs[r].pc.StartChecked? ==> !s.rings[s.rqs[r].pc.i].startedRq
    case _ => true
  }

  lemma CompletionSet(d: Dev, oldMm: nat, pc: CtlPc)
    requires MsgInv(d, oldMm, pc)
    ensures d.handling > 0 ==> d.completion != NoCompletion
  {}

  lemma BhAsserts(s: State, ok: bool)
    requires Inv(s) && Enabled(s, CtlBhRun(ok)) && !s.batch[0].StopWork?
    ensures AssertsHold(s, CtlBhRun(ok))
  {
    hide Homed, Bags, Addressed, StopWorks, CountInv, RefInv, MsgInv, WaitInv, PassInv, SessionInv, MapInv, RingsInv,
         Empty;
    Open(s);
    var i, b := s.batch[0].i, Bags(s);
    Popped(s, s.(batch := s.batch[1..]));
    RingAt(s.rings, b, s.pc, i);
    CountsAtLeast(s.dev, s.rings, b, s.pc, i);
    CompletionSet(s.dev, s.maps.oldMm, s.pc);
  }

  lemma WorkFree(d: Dev, pc: CtlPc, works: nat)
    requires SessionInv(d, pc, works) && works > 0
    ensures !d.work && d.listening
  {}

  lemma WorkAsserts(s: State, ok: bool)
    requires Inv(s) && Enabled(s, CtlBhRun(ok)) && s.batch[0].StopWork?
    ensures AssertsHold(s, CtlBhRun(ok))
  {
    hide Homed, Bags, Addressed, StopWorks, CountInv, RefInv, MsgInv, WaitInv, PassInv, SessionInv, MapInv, RingsInv,
         Empty;
    Open(s);
    Popped(s, s.(batch := s.batch[1..]));
    WorkFree(s.dev, s.pc, StopWorks(s));
  }

  lemma CtlStepAsserts(s: State)
    requires Inv(s) && Enabled(s, CtlStep)
    ensures AssertsHold(s, CtlStep)
  {
    hide Homed, Bags, Addressed, StopWorks, CountInv, RefInv, MsgInv, WaitInv, PassInv, SessionInv, MapInv, RingsInv,
         Empty;
    Open(s);
    if s.pc.Disconnecting? && !s.pc.after.Finish? {
      var i, b := s.pc.after.i, Bags(s);
      RingAt(s.rings, b, s.pc, i);
      OwedBounds(s.rings, b, s.pc);
      CountsAtLeast(s.dev, s.rings, b, s.pc, i);
    }
  }

  lemma AcceptAsserts(s: State)
    requires Inv(s) && Enabled(s, Accept)
    ensures AssertsHold(s, Accept)
  {
    hide Homed, Bags, Addressed, StopWorks, CountInv, RefInv, WaitInv, PassInv, MapInv, RingsInv, Empty;
    Open(s);
  }

  lemma MsgAsserts(s: State, l: Label)
    requires Inv(s) && Enabled(s, l) && CanRead(s)
    requires l.MsgTable? || l.MsgLog? || l.MsgFeatures? || l.MsgRingFd? || l.MsgRingAttr? || l.MsgBase?
    ensures AssertsHold(s, l)
  {
    hide Inv, Bags, NoTokens;
    ReadFacts(s);
  }

  lemma PendingStart(s: State, i: nat)
    requires Inv(s) && i < |s.rings| && Bags(s)[i].todo.starts > 0
    ensures !s.rings[i].startedRq
  {
    hide Homed, Bags, Addressed, StopWorks, CountInv, RefInv, MsgInv, WaitInv, PassInv, RingOk, SessionInv, MapInv,
         RingsInv, Empty;
    Open(s);
    NotRunning(s.rings, Bags(s), s.pc, i);
  }

  lemma RqAsserts(s: State, l: Label)
    requires Inv(s) && Enabled(s, l) && (l.RqBhRun? || l.RqBhStep?)
    ensures AssertsHold(s, l)
  {
    hide CountInv, RefInv, MsgInv, WaitInv, PassInv, SessionInv, MapInv, RingsInv, Empty, BagsOf, Homed;
    Open(s);
    if l.RqBhRun? && s.rqs[l.r].batch[0].Start? {
      HeadAddressed(s.pending, s.batch, s.home, s.rqs, l.r);
      BagsPopRq(s.pending, s.batch, s.home, s.rqs, l.r);
      PendingStart(s, s.rqs[l.r].batch[0].i);
    } else if l.RqBhStep? && s.rqs[l.r].pc.StartChecked? {
      assert RqAddressed(s.rqs[l.r], s.home, l.r);
      BagsLeavePc(s.pending, s.batch, s.home, s.rqs, l.r);
      PendingStart(s, s.rqs[l.r].pc.i);
    }
  }

  /** No assertion outside the clean-up fires on any run. */
  lemma NoAssertFires(s: State, l: Label)
    requires Reachable(s) && Enabled(s, l)
    ensures AssertsHold(s, l)
  {
    ReachableInv(s);
    if l.CtlBhRun? {
      hide Inv, Reachable, AssertsHold;
      if s.batch[0].StopWork? { WorkAsserts(s, l.ok); } else { BhAsserts(s, l.ok); }
    } else if l.CtlStep? {
      hide Inv, Reachable, AssertsHold;
      CtlStepAsserts(s);
    } else if l.Accept? {
      hide Inv, Reachable, AssertsHold;
      AcceptAsserts(s);
    } else if l.MsgKick? {
      hide Inv, Reachable;
      KickKeeps(s, l.i);
      ReadConn(s);
    } else if l.RqBhRun? || l.RqBhStep? {
      hide Inv, Reachable, AssertsHold;
      RqAsserts(s, l);
    } else if l.MsgTable? || l.MsgLog? || l.MsgFeatures? || l.MsgRingFd? || l.MsgRingAttr? || l.MsgBase? {
      hide Inv, Reachable, AssertsHold;
      MsgAsserts(s, l);
    }
  }

  lemma FinishedRunsOn()
    ensures forall s: State :: MaybeFinished(s).crashed == s.crashed && |MaybeFinished(s).rings| == |s.rings|
  {}

  lemma FailRunsOn()
    ensures forall s: State, i: nat | i < |s.rings| :: FailTail(s, i).crashed == s.crashed
  {
    hide Reply, AckStop, AckDrain, MaybeFinished;
    FinishedRunsOn();
  }

  lemma HandlersRunOn()
    ensures forall s: State, ok: bool :: RunMsgHandled(s, ok).crashed == s.crashed
    ensures forall s: State, i: nat, ok: bool | i < |s.rings| :: RunDrained(s, i, ok).crashed == s.crashed
    ensures forall s: State, i: nat, ok: bool | i < |s.rings| :: RunStartFailed(s, i, ok).crashed == s.crashed
    ensures forall s: State, i: nat | i < |s.rings| :: MarkStopped(s, i).crashed == s.crashed
    ensures forall s: State :: RunStopWork(s).crashed == s.crashed
  {
    hide Reply, AckStop, AckDrain, MaybeFinished, FailTail, HandledDev, HandledMaps;
    FinishedRunsOn();
    FailRunsOn();
  }

  lemma BhRunsOn(s: State, ok: bool)
    requires Enabled(s, CtlBhRun(ok))
    ensures !Apply(s, CtlBhRun(ok)).crashed
  {
    hide Shape, Apply, RunMsgHandled, RunDrained, RunStartFailed, RunStopWork, MarkStopped;
    HandlersRunOn();
    assert Apply(s, CtlBhRun(ok)) == CtlRun(s, ok) by { hide *; ApplyRuns(s, ok); }
  }

  lemma ApplyRuns(s: State, ok: bool)
    requires Enabled(s, CtlBhRun(ok))
    ensures Apply(s, CtlBhRun(ok)) == CtlRun(s, ok)
  {
    hide CtlRun, Shape;
  }

  lemma StepRunsOn(s: State)
    requires Enabled(s, CtlStep)
    ensures !Apply(s, CtlStep).crashed
  {
    hide Shape, FailTail, MaybeFinished, PostedRq;
    FinishedRunsOn();
    FailRunsOn();
  }

  /**
   * The process dies on a missing memory map exactly when a client starts a ring before it has
   * sent a memory table.
   */
  lemma CrashIff(s: State, l: Label)
    requires Reachable(s) && Enabled(s, l)
    ensures Apply(s, l).crashed <==> l.MsgKick? && s.maps.mm == 0
  {
    if l.CtlBhRun? {
      BhRunsOn(s, l.ok);
    } else if l.CtlStep? {
      StepRunsOn(s);
    } else {
      hide Reachable, Shape, DisconnectRing, DisconnectEnd, CtlRun;
    }
  }

  // ----- requests of a ring

  /** Every ring has the requests it had. */
  ghost predicate SameWork(rings: seq<Ring>, rings': seq<Ring>) {
    && |rings'| == |rings|
    && (forall j :: 0 <= j < |rings| ==> rings'[j].queued == rings[j].queued && rings'[j].busy == rings[j].busy)
  }

  lemma FinishedWork()
    ensures forall s: State :: SameWork(s.rings, MaybeFinished(s).rings)
  {}

  lemma StoppedWork()
    ensures forall s: State, i: nat | i < |s.rings| :: SameWork(s.rings, MarkStopped(s, i).rings)
  {
    hide MaybeFinished;
    FinishedWork();
  }

  lemma BackWork()
    ensures forall s: State, i: nat | i < |s.rings| :: SameWork(s.rings, DrainBack(s, i).rings)
  {
    hide MaybeFinished;
    FinishedWork();
  }

  lemma TailWork()
    ensures forall s: State, i: nat | i < |s.rings| :: SameWork(s.rings, FailTail(s, i).rings)
  {
    hide MaybeFinished, MarkStopped, DrainBack, Reply;
    StoppedWork();
    BackWork();
  }

  lemma HandlersWork()
    ensures forall s: State, ok: bool :: SameWork(s.rings, RunMsgHandled(s, ok).rings)
    ensures forall s: State, i: nat, ok: bool | i < |s.rings| :: SameWork(s.rings, RunDrained(s, i, ok).rings)
    ensures forall s: State, i: nat, ok: bool | i < |s.rings| :: SameWork(s.rings, RunStartFailed(s, i, ok).rings)
    ensures forall s: State :: SameWork(s.rings, RunStopWork(s).rings)
  {
    hide MaybeFinished, FailTail, DrainBack, Reply, HandledDev, HandledMaps;
    FinishedWork();
    BackWork();
    TailWork();
  }

  lemma BhWork(s: State, ok: bool)
    requires Enabled(s, CtlBhRun(ok))
    ensures SameWork(s.rings, Apply(s, CtlBhRun(ok)).rings)
  {
    hide Shape, Apply, RunMsgHandled, RunDrained, RunStartFailed, RunStopWork, MarkStopped, SameWork;
    HandlersWork();
    StoppedWork();
    ApplyRuns(s, ok);
  }

  lemma CtlStepWork(s: State)
    requires Enabled(s, CtlStep)
    ensures SameWork(s.rings, Apply(s, CtlStep).rings)
  {
    hide Shape, FailTail, DrainBack, MaybeFinished, PostedRq;
    FinishedWork();
    BackWork();
    TailWork();
  }

  /** The step is the dataplane's stop of a running ring. */
  predicate StopsRunning(s: State, l: Label, i: nat) {
    && l.RqBhRun? && l.r < |s.rqs| && s.rqs[l.r].batch != [] && s.rqs[l.r].batch[0] == Stop(i)
    && i < |s.rings| && s.rings[i].startedRq
  }

  lemma RqWork(s: State, l: Label, i: nat)
    requires Enabled(s, l) && l.RqBhRun? && i < |s.rings|
    ensures var t := Apply(s, l);
            && |t.rings| == |s.rings| && t.rings[i].busy == s.rings[i].busy
            && t.rings[i].queued
               == if StopsRunning(s, l, i) && s.rings[i].disconnecting then [] else s.rings[i].queued
  {
    hide Shape, Dropped, Cancelled, PoppedRq, WithPc;
  }

  /**
   * A ring's requests wait in the order they were fetched; the backend takes the first, and besides it
   * only a stop takes them, all at once, exactly if the ring is being disconnected.
   */
  lemma RequestsMove(s: State, l: Label, i: nat)
    requires Reachable(s) && Enabled(s, l) && i < |s.rings|
    ensures var t, queued, busy := Apply(s, l), s.rings[i].queued, s.rings[i].busy;
            && |t.rings| == |s.rings|
            && t.rings[i].queued == (
                 if l == Fetch(i) then queued + [s.rings[i].mm]
                 else if l == Submit(i) then queued[1..]
                 else if StopsRunning(s, l, i) && s.rings[i].disconnecting then []
                 else queued)
            && t.rings[i].busy == (
                 if l == Submit(i) then busy + [queued[0]]
                 else if l.Finished? && l.i == i then busy[..l.k] + busy[l.k + 1..]
                 else busy)
  {
    if l.CtlBhRun? {
      hide Reachable, Enabled, Apply;
      BhWork(s, l.ok);
    } else if l.CtlStep? {
      hide Reachable, Enabled, Apply;
      CtlStepWork(s);
    } else if l.RqBhRun? {
      hide Reachable, Apply, Shape;
      RqWork(s, l, i);
    } else {
      hide Reachable, Apply, Shape;
      OtherWork(s, l, i);
    }
  }

  lemma OtherWork(s: State, l: Label, i: nat)
    requires Enabled(s, l) && i < |s.rings| && !l.CtlBhRun? && !l.CtlStep? && !l.RqBhRun?
    ensures var t, queued, busy := Apply(s, l), s.rings[i].queued, s.rings[i].busy;
            && |t.rings| == |s.rings|
            && t.rings[i].queued == (
                 if l == Fetch(i) then queued + [s.rings[i].mm] else if l == Submit(i) then queued[1..] else queued)
            && t.rings[i].busy == (
                 if l == Submit(i) then busy + [queued[0]]
                 else if l.Finished? && l.i == i then busy[..l.k] + busy[l.k + 1..]
                 else busy)
  {
    if l.Fetch? || l.Submit? || l.Finished? {
      hide Shape, CtlRun, Step, RqRun, RqStep, Bump, SetKick, NewTable, NewLog, Defer, DeferOne, PostRq;
    } else {
      hide Apply;
      MessageWork(s, l);
    }
  }

  lemma MessageWork(s: State, l: Label)
    requires Enabled(s, l) && !l.CtlBhRun? && !l.CtlStep? && !l.RqBhRun?
    requires !l.Fetch? && !l.Submit? && !l.Finished?
    ensures SameWork(s.rings, Apply(s, l).rings)
  {
    hide Shape, CtlRun, Step, RqRun, PostedRq, WithPc, Bump, FetchReq, CompleteReq, SubmittedRing;
  }

  /**
   * A stop cancels the waiting requests of a ring exactly if its client is gone, touches none the
   * backend has, and drops one map reference for each request that left.
   */
  lemma StopCancelsIff(s: State, r: nat, ok: bool)
    requires Reachable(s) && Enabled(s, RqBhRun(r, ok)) && s.rqs[r].batch[0].Stop?
    requires s.rings[s.rqs[r].batch[0].i].startedRq
    ensures var t, i := Apply(s, RqBhRun(r, ok)), s.rqs[r].batch[0].i;
            && |t.rings| == |s.rings| && !t.rings[i].startedRq && t.rings[i].busy == s.rings[i].busy
            && t.rings[i].queued == (if s.rings[i].disconnecting then [] else s.rings[i].queued)
            && |t.maps.refs| == |s.maps.refs|
            && (forall k: int :: 0 <= k < |s.maps.refs| ==>
                  t.maps.refs[k] == s.maps.refs[k] - Occ<int>(s.rings[i].queued, k) + Occ<int>(t.rings[i].queued, k))
  {
    hide Reachable, Shape, PoppedRq, WithPc;
  }

  // ----- over runs

  /** Ring `i` is not being disconnected at any moment of the run. */
  ghost predicate StaysConnected(s: State, ls: seq<Label>, i: nat)
    decreases |ls|
  {
    && i < |s.rings| && !s.rings[i].disconnecting
    && (ls != [] && Enabled(s, ls[0]) ==> StaysConnected(Apply(s, ls[0]), ls[1..], i))
  }

  /** The maps of the requests fetched from ring `i`, and of those given to the backend. */
  ghost function Fetched(s: State, ls: seq<Label>, i: nat): seq<int>
    decreases |ls|
  {
    if ls == [] || i >= |s.rings| || !Enabled(s, ls[0]) then []
    else (if ls[0] == Fetch(i) then [s.rings[i].mm] else []) + Fetched(Apply(s, ls[0]), ls[1..], i)
  }

  ghost function Submitted(s: State, ls: seq<Label>, i: nat): seq<int>
    decreases |ls|
  {
    if ls == [] || i >= |s.rings| || !Enabled(s, ls[0]) then []
    else (if ls[0] == Submit(i) then [s.rings[i].queued[0]] else []) + Submitted(Apply(s, ls[0]), ls[1..], i)
  }

  /** While its client stays a ring loses no request: those given to the backend are the first fetched, in order. */
  lemma {:induction false} NoneLost(s: State, ls: seq<Label>, t: State, i: nat)
    requires Reachable(s) && Run(s, ls, t) && StaysConnected(s, ls, i)
    ensures i < |t.rings| && s.rings[i].queued + Fetched(s, ls, i) == Submitted(s, ls, i) + t.rings[i].queued
    decreases |ls|
  {
    hide Enabled, Apply, Reachable;
    if ls == [] {
      assert s.rings[i].queued + [] == [] + s.rings[i].queued;
    } else {
      var l := ls[0];
      var u := Apply(s, l);
      RequestsMove(s, l, i);
      Next(s, l);
      NoneLost(u, ls[1..], t, i);
      var q, f, m := s.rings[i].queued, Fetched(u, ls[1..], i), Submitted(u, ls[1..], i);
      if l == Submit(i) { TakesFirst(s, i); }
      Shifts(q, u.rings[i].queued, if l == Fetch(i) then [s.rings[i].mm] else [],
             if l == Submit(i) then [q[0]] else [], f, m, t.rings[i].queued);
    }
  }

  lemma Shifts(q: seq<int>, q': seq<int>, new_: seq<int>, gone: seq<int>, f: seq<int>, m: seq<int>, last: seq<int>)
    requires q + new_ == gone + q' && q' + f == m + last
    ensures q + (new_ + f) == (gone + m) + last
  {
    calc {
      q + (new_ + f);
      (q + new_) + f;
      gone + (q' + f);
      (gone + m) + last;
    }
  }

  lemma TakesFirst(s: State, i: nat)
    requires Enabled(s, Submit(i))
    ensures i < |s.rings| && s.rings[i].queued != []
  {}

  // ----- clean-up

  /**
   * Whenever the client's socket is closed the device is at rest: disconnected, no ring started in
   * either plane, no request in flight, nothing of a message left and no acknowledgement queued.
   */
  lemma ClosedAtRest(s: State)
    requires Reachable(s) && !s.dev.connOpen
    ensures !InUse(s.dev) && s.pc.CtlIdle? && Shape(s) && AllQuiet(s)
  {
    ReachableInv(s);
    ShapeOf(s);
    NotUsed(s.dev, s.pc, StopWorks(s));
    hide Inv, Reachable, AllQuiet;
    NotInUse(s);
  }

  lemma NotUsed(d: Dev, pc: CtlPc, works: nat)
    requires SessionInv(d, pc, works) && !d.connOpen
    ensures !InUse(d) && pc.CtlIdle? && (d.aborted <==> d.req)
  {}

  /** The clean-up's assertion that no message is left fails exactly when a deferred reply could not be sent. */
  lemma AbortIff(s: State)
    requires Reachable(s)
    ensures s.dev.aborted <==> !s.dev.connOpen && s.dev.replyFailed
  {
    ReachableInv(s);
    Open(s);
    if !s.dev.connOpen {
      ClosedAtRest(s);
      hide Reachable, Homed, Bags, Addressed, CountInv, RefInv, MsgInv, WaitInv, PassInv, RingOk, MapInv, RingsInv;
    } else {
      hide Reachable, Homed, Bags, Addressed, CountInv, RefInv, MsgInv, WaitInv, PassInv, RingOk, MapInv, RingsInv,
           AllQuiet;
    }
  }

  // ----- the stop work

  /** The user's stop call has returned. */
  predicate Retired(d: Dev) {
    d.stopAsked && !d.listening && !d.work
  }

  /** Neither listening again nor new stop work. */
  predicate StaysRetired(d: Dev, e: Dev) {
    (e.stopAsked <==> d.stopAsked) && (e.listening ==> d.listening) && (e.work ==> d.work)
  }

  lemma FinishRetired(s: State)
    ensures StaysRetired(s.dev, MaybeFinished(s).dev)
  {
    hide ResetRings, Bump;
  }

  lemma HandledRetired(d: Dev, ok: bool)
    ensures StaysRetired(d, HandledDev(d, ok))
  {}

  lemma MarkStoppedRetired(s: State, i: nat)
    requires i < |s.rings|
    ensures StaysRetired(s.dev, MarkStopped(s, i).dev)
  {
    hide MaybeFinished, AckStop, Dec;
    FinishRetired(SetRing(s, i, AckStop(s.rings[i])).(dev := s.dev.(started := Dec(s.dev.started))));
  }

  lemma DrainRetired(s: State, i: nat, ok: bool)
    requires i < |s.rings|
    ensures StaysRetired(s.dev, DrainFront(s, i, ok).dev) && StaysRetired(s.dev, DrainBack(s, i).dev)
  {
    hide MaybeFinished, AckDrain, Dec;
    FinishRetired(SetRing(s, i, s.rings[i].(inited := false)).(dev := s.dev.(inFlight := Dec(s.dev.inFlight))));
  }

  lemma FinishRings(s: State)
    ensures |MaybeFinished(s).rings| == |s.rings|
  {
    hide Bump, WorkDone;
  }

  lemma FailRetired(s: State, i: nat)
    requires i < |s.rings|
    ensures StaysRetired(s.dev, FailTail(s, i).dev)
  {
    hide MaybeFinished, DrainFront, DrainBack, AckStop;
    FinishRings(SetRing(s, i, AckStop(s.rings[i])).(dev := s.dev.(started := Dec(s.dev.started))));
    var a := MarkStopped(s, i);
    MarkStoppedRetired(s, i);
    DrainRetired(a, i, true);
    FrontRings(a, i);
    DrainRetired(DrainFront(a, i, true), i, true);
  }

  lemma FrontRings(s: State, i: nat)
    requires i < |s.rings|
    ensures |DrainFront(s, i, true).rings| == |s.rings|
  {}

  lemma DrainedRetired(a: State, i: nat, ok: bool)
    requires i < |a.rings|
    ensures StaysRetired(a.dev, RunDrained(a, i, ok).dev)
  {
    hide DrainFront, DrainBack;
    DrainRetired(a, i, ok);
    DrainRings(a, i, ok);
    DrainRetired(DrainFront(a, i, ok), i, ok);
  }

  lemma StartFailedRetired(a: State, i: nat, ok: bool)
    requires i < |a.rings|
    ensures StaysRetired(a.dev, RunStartFailed(a, i, ok).dev)
  {
    hide FailTail, HandledDev, HandledMaps;
    var c := a.dev.(completion := JustAck);
    HandledRetired(c, ok);
    FailRetired(MarkMsgHandled(a.(dev := c), ok), i);
  }

  lemma MsgHandledRetired(a: State, ok: bool)
    ensures StaysRetired(a.dev, RunMsgHandled(a, ok).dev)
  {
    hide HandledDev, HandledMaps;
    HandledRetired(a.dev, ok);
  }

  lemma BhRetired(s: State, ok: bool)
    requires Enabled(s, CtlBhRun(ok)) && !s.batch[0].StopWork?
    ensures StaysRetired(s.dev, Apply(s, CtlBhRun(ok)).dev)
  {
    hide Shape, StaysRetired, MarkStopped, RunMsgHandled, RunDrained, RunStartFailed;
    var a := s.(batch := s.batch[1..]);
    match s.batch[0]
    case MsgHandled(_) => MsgHandledRetired(a, ok);
    case Stopped(i) => MarkStoppedRetired(a, i);
    case Drained(i) => DrainedRetired(a, i, ok);
    case StartFailed(i) => StartFailedRetired(a, i, ok);
  }

  lemma DrainRings(s: State, i: nat, ok: bool)
    requires i < |s.rings|
    ensures |DrainFront(s, i, ok).rings| == |s.rings|
  {}

  lemma EndRetired(s: State)
    requires s.pc.Disconnecting? && (s.pc.after.Finish? || s.pc.after.i < |s.rings|)
    ensures StaysRetired(s.dev, DisconnectEnd(s).dev)
  {
    hide MaybeFinished, DrainBack, FailTail;
    var idle := s.(pc := CtlIdle);
    FinishRetired(idle);
    FinishRings(idle);
    match s.pc.after
    case Finish =>
    case FailedTail(i) => FailRetired(MaybeFinished(idle), i);
    case DrainTail(i) => DrainRetired(MaybeFinished(idle), i, true);
  }

  lemma PassRetired(s: State)
    requires s.pc.Syncing? && At(s, s.pc.k)
    ensures StaysRetired(s.dev, SyncRing(s, s.pc.k).dev)
  {
    hide PostedRq;
  }

  lemma TellRetired(s: State)
    requires s.pc.Disconnecting? && At(s, s.pc.k)
    ensures DisconnectRing(s, s.pc.k).dev == s.dev
  {
    hide PostedRq;
  }

  lemma StepRetired(s: State)
    requires Enabled(s, CtlStep)
    ensures StaysRetired(s.dev, Apply(s, CtlStep).dev)
  {
    hide DisconnectEnd, DisconnectRing, SyncRing;
    if s.pc.Syncing? {
      PassRetired(s);
    } else if At(s, s.pc.k) {
      TellRetired(s);
    } else {
      EndRetired(s);
    }
  }

  /** Nothing starts a ring, connects a client or listens once the stop call has returned. */
  lemma RetiredStep(s: State, l: Label)
    requires Inv(s) && Enabled(s, l) && Retired(s.dev)
    ensures Retired(Apply(s, l).dev) && !l.Fetch?
  {
    if l.CtlBhRun? {
      hide Inv, Apply, Enabled;
      NoWorkLeft(s, l.ok);
      BhRetired(s, l.ok);
    } else if l.CtlStep? {
      hide Inv, Apply, Enabled;
      StepRetired(s);
    } else {
      hide Inv, Shape, CtlRun, Step, RqRun, RqStep, Bump, Dropped, PostedRq, Kicked;
      RetiredIdle(s);
      Unread(s);
      if l.RqBhRun? { RqRunSame(s, l.r, l.ok); }
      if l.RqBhStep? { DataSame(s, l); }
    }
  }

  /** The stop function's work is done, so none of it is left in the batch. */
  lemma NoWorkLeft(s: State, ok: bool)
    requires Inv(s) && Enabled(s, CtlBhRun(ok)) && Retired(s.dev)
    ensures !s.batch[0].StopWork?
  {
    hide Homed, Bags, Addressed, CountInv, RefInv, MsgInv, WaitInv, PassInv, RingOk, MapInv, RingsInv;
    Open(s);
    Popped(s, s.(batch := s.batch[1..]));
  }

  lemma Unread(s: State)
    requires Inv(s) && Retired(s.dev)
    ensures !s.dev.connAttached && !s.dev.listenAttached && s.dev.stopAsked
  {
    hide Homed, Bags, Addressed, CountInv, RefInv, WaitInv, PassInv, RingOk, MapInv, RingsInv;
    Open(s);
  }

  lemma RetiredIdle(s: State)
    requires Inv(s) && Retired(s.dev)
    ensures forall i :: 0 <= i < |s.rings| ==>
              !s.rings[i].startedRq && !s.rings[i].kickOpen && Bags(s)[i].todo.starts == 0
  {
    hide Homed, Bags, Addressed, StopWorks, RefInv, MsgInv, WaitInv, PassInv, RingOk, MapInv, RingsInv, CountInv;
    Open(s);
    forall i | 0 <= i < |s.rings| ensures !s.rings[i].startedRq && !s.rings[i].kickOpen && Bags(s)[i].todo.starts == 0 {
      CountsAtLeast(s.dev, s.rings, Bags(s), s.pc, i);
      RingAt(s.rings, Bags(s), s.pc, i);
      RetiredRing(s.rings[i], Bags(s)[i], Ft(s.pc, i), Dt(s.pc, i));
    }
  }

  lemma RetiredRing(r: Ring, b: Bag, ft: nat, dt: nat)
    requires RingOk(r, b, ft, dt) && StopsOwed(r) <= 0
    ensures !r.startedRq && !r.kickOpen && b.todo.starts == 0
  {}

  lemma {:induction false} RetiredRun(s: State, ls: seq<Label>, t: State)
    requires Inv(s) && Retired(s.dev) && Run(s, ls, t)
    ensures Inv(t) && Retired(t.dev)
    ensures forall k :: 0 <= k < |ls| ==> !ls[k].Fetch?
    decreases |ls|
  {
    hide Inv, Enabled, Apply;
    if ls != [] {
      RetiredStep(s, ls[0]);
      StepKeeps(s, ls[0]);
      RetiredRun(Apply(s, ls[0]), ls[1..], t);
      assert forall k :: 0 < k < |ls| ==> ls[k] == ls[1..][k - 1];
    }
  }

  /** Once the stop call has returned no ring of the device is ever fetched from again. */
  lemma StopIsFinal(s: State, ls: seq<Label>, t: State)
    requires Reachable(s) && Retired(s.dev) && Run(s, ls, t)
    ensures forall k :: 0 <= k < |ls| ==> !ls[k].Fetch?
    ensures forall i :: 0 <= i < |t.rings| ==> !t.rings[i].startedRq && !t.rings[i].kickOpen
  {
    hide Inv, Enabled, Apply, Run, Reachable, Bags;
    ReachableInv(s);
    RetiredRun(s, ls, t);
    RetiredIdle(t);
  }

  // ----- memory maps

  lemma {:induction false} HeldAtLeast(rings: seq<Ring>, i: nat, k: int)
    requires i < |rings|
    ensures Held(rings, k) >= RefsOf(rings[i], k)
  {
    if i > 0 { HeldAtLeast(rings[1..], i - 1, k); }
  }

  /** The map of a running ring and of every outstanding request is live, by counts that are exact. */
  lemma MapsLive(s: State, i: nat)
    requires Reachable(s) && i < |s.rings|
    ensures forall k :: 0 < k < |s.maps.refs| ==>
              s.maps.refs[k] == One(k == s.maps.mm) + One(k == s.maps.oldMm) + Held(s.rings, k)
    ensures s.rings[i].startedRq ==> s.rings[i].mm < |s.maps.refs| && s.maps.refs[s.rings[i].mm] > 0
    ensures forall m :: m in s.rings[i].queued || m in s.rings[i].busy ==> 0 < m < |s.maps.refs| && s.maps.refs[m] > 0
  {
    hide Reachable, Homed, Bags, Addressed, StopWorks, MsgInv, WaitInv, PassInv, RingOk, SessionInv, MapInv, RingsInv,
         CountInv,
         Held;
    ReachableInv(s);
    Open(s);
    var r := s.rings[i];
    if r.startedRq { MapAt(s.maps.mm, s.maps.oldMm, s.dev, s.rings, Bags(s), s.pc, i); }
    NamedAt(s.maps, s.rings, i);
    forall m | m in r.queued || m in r.busy ensures 0 < m < |s.maps.refs| && s.maps.refs[m] > 0 {
      HeldAtLeast(s.rings, i, m);
      if m in r.queued {
        var j :| 0 <= j < |r.queued| && r.queued[j] == m;
        OccAt(r.queued, j);
      } else {
        var j :| 0 <= j < |r.busy| && r.busy[j] == m;
        OccAt(r.busy, j);
      }
    }
  }

  /** Once the superseded map is dropped every running ring uses the current one. */
  lemma OldMapUnused(s: State, i: nat)
    requires Reachable(s) && i < |s.rings| && s.rings[i].startedRq && s.maps.oldMm == 0
    ensures s.rings[i].mm == s.maps.mm != 0
  {
    hide Reachable, Homed, Bags, Addressed, StopWorks, MsgInv, WaitInv, PassInv, RingOk, SessionInv, MapInv, RingsInv,
         CountInv, Held;
    ReachableInv(s);
    Open(s);
    MapAt(s.maps.mm, s.maps.oldMm, s.dev, s.rings, Bags(s), s.pc, i);
  }

  /** A map is replaced at once only when no request holds one. */
  lemma SwapAtOnce(s: State)
    requires Reachable(s) && Enabled(s, MsgTable) && s.dev.inFlight == 0
    ensures forall i :: 0 <= i < |s.rings| ==> Empty(s.rings[i])
    ensures forall k :: 0 < k < |s.maps.refs| ==> s.maps.refs[k] == One(k == s.maps.mm)
  {
    hide Reachable, Homed, Bags, Addressed, StopWorks, MsgInv, WaitInv, PassInv, RingOk, SessionInv, MapInv, RingsInv,
         CountInv, Held;
    ReachableInv(s);
    Open(s);
    ReadConn(s);
    NoneRunning(s.dev, s.rings, Bags(s), s.pc);
    forall k: int ensures Held(s.rings, k) == 0 {
      NoReqs(s.rings, k);
    }
  }

  // ----- a disconnect reaches every ring

  /** A stop bottom half is on its way to the ring. */
  predicate StopSent(q: Rq, i: nat) {
    Stop(i) in q.pending || Stop(i) in q.batch
  }

  /** Running, or past the check that could still have kept it from running. */
  predicate Runs(r: Ring, q: Rq, i: nat) {
    r.startedRq || q.pc == StartChecked(i)
  }

  predicate Reached(r: Ring, q: Rq, i: nat) {
    (r.disconnecting || r.onDrain) && Runs(r, q, i) ==> StopSent(q, i)
  }

  /** The disconnect has passed this ring. */
  predicate Told(d: Dev, pc: CtlPc, i: nat) {
    !d.conn && (pc.Disconnecting? ==> i < pc.k)
  }

  ghost predicate ReachInv(rings: seq<Ring>, home: seq<int>, rqs: seq<Rq>)
    requires |home| == |rings| && Homed(home, |rqs|)
  {
    forall i :: 0 <= i < |rings| ==> Reached(rings[i], rqs[home[i]], i)
  }

  ghost predicate ToldInv(rings: seq<Ring>, d: Dev, pc: CtlPc) {
    forall i :: 0 <= i < |rings| && Told(d, pc, i) && rings[i].startedCtl ==> rings[i].disconnecting
  }

  ghost predicate TellInv(s: State) {
    Shape(s) && ReachInv(s.rings, s.home, s.rqs) && ToldInv(s.rings, s.dev, s.pc)
  }

  /** What the control loop's handlers do to a ring; only a clean-up takes `disconnecting` back. */
  predicate Calmer(r: Ring, r': Ring, open: bool) {
    && (r'.startedRq ==> r.startedRq) && (r'.onDrain ==> r.onDrain) && (r'.disconnecting ==> r.disconnecting)
    && (r'.startedCtl ==> r.startedCtl) && (open && r.disconnecting ==> r'.disconnecting)
  }

  ghost predicate CalmerAll(rings: seq<Ring>, rings': seq<Ring>, open: bool) {
    |rings'| == |rings| && forall i :: 0 <= i < |rings| ==> Calmer(rings[i], rings'[i], open)
  }

  lemma CalmReach(rings: seq<Ring>, rings': seq<Ring>, open: bool, home: seq<int>, rqs: seq<Rq>)
    requires |home| == |rings| && Homed(home, |rqs|) && ReachInv(rings, home, rqs) && CalmerAll(rings, rings', open)
    ensures ReachInv(rings', home, rqs)
  {
    forall i | 0 <= i < |rings'| ensures Reached(rings'[i], rqs[home[i]], i) {
      assert Reached(rings[i], rqs[home[i]], i) && Calmer(rings[i], rings'[i], open);
    }
  }

  lemma CalmTold(rings: seq<Ring>, rings': seq<Ring>, d: Dev, d': Dev, pc: CtlPc, pc': CtlPc)
    requires ToldInv(rings, d, pc) && CalmerAll(rings, rings', d'.connOpen)
    requires forall i :: 0 <= i < |rings| && Told(d', pc', i) ==> Told(d, pc, i)
    requires !d'.connOpen ==> forall i :: 0 <= i < |rings'| ==> !rings'[i].startedCtl
    ensures ToldInv(rings', d', pc')
  {
    forall i | 0 <= i < |rings'| && Told(d', pc', i) && rings'[i].startedCtl ensures rings'[i].disconnecting {
      assert Told(d, pc, i) && Calmer(rings[i], rings'[i], d'.connOpen);
    }
  }

  /** A handler of the control loop that posts nothing to a request queue. */
  lemma CalmTell(s: State, t: State)
    requires Inv(s) && TellInv(s) && Inv(t) && t.home == s.home && t.rqs == s.rqs
    requires CalmerAll(s.rings, t.rings, t.dev.connOpen)
    requires forall i :: 0 <= i < |s.rings| && Told(t.dev, t.pc, i) ==> Told(s.dev, s.pc, i)
    ensures TellInv(t)
  {
    Open(s);
    Open(t);
    if !t.dev.connOpen { ClosedRings(t); }
    hide Homed, Bags, Addressed, StopWorks, RefInv, MsgInv, WaitInv, PassInv, RingOk, SessionInv, MapInv, RingsInv,
         CountInv, ReachInv, ToldInv, CalmerAll, Told;
    CalmReach(s.rings, t.rings, t.dev.connOpen, s.home, s.rqs);
    CalmTold(s.rings, t.rings, s.dev, t.dev, s.pc, t.pc);
  }

  lemma ClosedRings(s: State)
    requires Inv(s) && !s.dev.connOpen
    ensures forall i :: 0 <= i < |s.rings| ==> !s.rings[i].startedCtl
  {
    ShapeOf(s);
    NotUsed(s.dev, s.pc, StopWorks(s));
    hide Inv;
    NotInUse(s);
  }

  /** A piece of a handler that changes neither the connection nor the place of the control loop. */
  ghost predicate CalmStep(s: State, t: State) {
    && CalmerAll(s.rings, t.rings, t.dev.connOpen) && (t.dev.connOpen ==> s.dev.connOpen)
    && t.home == s.home && t.rqs == s.rqs && t.dev.conn == s.dev.conn && t.pc == s.pc
  }

  lemma CalmTrans(s: State, t: State, u: State)
    requires CalmStep(s, t) && CalmStep(t, u)
    ensures CalmStep(s, u)
  {
    forall i | 0 <= i < |s.rings| ensures Calmer(s.rings[i], u.rings[i], u.dev.connOpen) {
      assert Calmer(s.rings[i], t.rings[i], t.dev.connOpen) && Calmer(t.rings[i], u.rings[i], u.dev.connOpen);
    }
  }

  lemma FinishCalm(s: State)
    ensures CalmStep(s, MaybeFinished(s))
  {
    hide Bump, InUse;
  }

  lemma SetCalm(s: State, i: nat, r: Ring, e: Dev)
    requires i < |s.rings| && Calmer(s.rings[i], r, true) && e.conn == s.dev.conn && e.connOpen == s.dev.connOpen
    ensures CalmStep(s, SetRing(s, i, r).(dev := e))
  {}

  lemma StoppedCalm(s: State, i: nat)
    requires i < |s.rings|
    ensures CalmStep(s, MarkStopped(s, i))
  {
    hide CalmStep, MaybeFinished, Dec;
    var r, e := AckStop(s.rings[i]), s.dev.(started := Dec(s.dev.started));
    SetCalm(s, i, r, e);
    FinishCalm(SetRing(s, i, r).(dev := e));
    CalmTrans(s, SetRing(s, i, r).(dev := e), MarkStopped(s, i));
  }

  lemma ReplyConn(d: Dev, due: bool, ok: bool)
    ensures Reply(d, due, ok).conn == d.conn && Reply(d, due, ok).connOpen == d.connOpen
  {}

  lemma FrontCalm(s: State, i: nat, ok: bool)
    requires i < |s.rings|
    ensures CalmStep(s, DrainFront(s, i, ok)) && |DrainFront(s, i, ok).rings| == |s.rings|
  {
    hide CalmStep, Reply;
    ReplyConn(s.dev, s.rings[i].onDrain, ok);
    SetCalm(s, i, AckDrain(s.rings[i]), Reply(s.dev, s.rings[i].onDrain, ok));
  }

  lemma BackCalm(s: State, i: nat)
    requires i < |s.rings|
    ensures CalmStep(s, DrainBack(s, i))
  {
    hide CalmStep, MaybeFinished, Dec;
    var r, e := s.rings[i].(inited := false), s.dev.(inFlight := Dec(s.dev.inFlight));
    SetCalm(s, i, r, e);
    FinishCalm(SetRing(s, i, r).(dev := e));
    CalmTrans(s, SetRing(s, i, r).(dev := e), DrainBack(s, i));
  }

  lemma FailCalm(s: State, i: nat)
    requires i < |s.rings|
    ensures CalmStep(s, FailTail(s, i))
  {
    hide MarkStopped, DrainFront, DrainBack, CalmerAll;
    StoppedCalm(s, i);
    var a := MarkStopped(s, i);
    assert |a.rings| == |s.rings| by { CalmLength(s, a); }
    FrontCalm(a, i, true);
    var b := DrainFront(a, i, true);
    BackCalm(b, i);
    CalmTrans(s, a, b);
    CalmTrans(s, b, DrainBack(b, i));
  }

  lemma CalmLength(s: State, t: State)
    requires CalmStep(s, t)
    ensures |t.rings| == |s.rings|
  {}

  /** What a bottom half of the control loop does to the rings and to who has been told. */
  ghost predicate CalmRun(s: State, t: State) {
    && CalmerAll(s.rings, t.rings, t.dev.connOpen) && t.home == s.home && t.rqs == s.rqs
    && (forall i :: 0 <= i < |s.rings| && Told(t.dev, t.pc, i) ==> Told(s.dev, s.pc, i))
  }

  lemma CalmIs(s: State, t: State)
    requires CalmStep(s, t)
    ensures CalmRun(s, t)
  {
    hide CalmerAll;
  }

  lemma DropIs(s: State, t: State, after: After)
    requires CalmStep(s, t)
    ensures CalmRun(s, Disconnect(t, after))
  {
    hide CalmerAll;
  }

  lemma HandledCalm(s: State, ok: bool)
    ensures CalmStep(s, MarkMsgHandled(s, ok))
  {
    hide HandledMaps;
  }

  lemma SameCalm(s: State, e: Dev, batch: seq<CtlBh>)
    requires e.conn == s.dev.conn && e.connOpen == s.dev.connOpen
    ensures CalmStep(s, s.(batch := batch, dev := e))
  {}

  lemma DrainedCalm(s: State, i: nat, ok: bool)
    requires i < |s.rings|
    ensures CalmRun(s, RunDrained(s, i, ok))
  {
    hide CalmStep, CalmRun, DrainFront, DrainBack;
    FrontCalm(s, i, ok);
    var b := DrainFront(s, i, ok);
    BackCalm(b, i);
    CalmTrans(s, b, DrainBack(b, i));
    CalmIs(s, DrainBack(b, i));
    DropIs(s, b, DrainTail(i));
  }

  lemma StartFailedCalm(s: State, i: nat, ok: bool)
    requires i < |s.rings|
    ensures CalmRun(s, RunStartFailed(s, i, ok))
  {
    hide CalmStep, CalmRun, FailTail, HandledDev, HandledMaps;
    var c := s.(dev := s.dev.(completion := JustAck));
    SameCalm(s, c.dev, s.batch);
    HandledCalm(c, ok);
    var b := MarkMsgHandled(c, ok);
    CalmTrans(s, c, b);
    FailCalm(b, i);
    CalmTrans(s, b, FailTail(b, i));
    CalmIs(s, FailTail(b, i));
    DropIs(s, b, FailedTail(i));
  }

  lemma StopWorkCalm(s: State)
    ensures CalmRun(s, RunStopWork(s))
  {
    hide CalmStep, CalmRun, MaybeFinished;
    var b := s.(dev := Stopping(s.dev));
    SameCalm(s, b.dev, s.batch);
    FinishCalm(b);
    CalmTrans(s, b, MaybeFinished(b));
    CalmIs(s, MaybeFinished(b));
    DropIs(s, b, Finish);
  }

  lemma MsgHandledCalm(s: State, ok: bool)
    ensures CalmRun(s, RunMsgHandled(s, ok))
  {
    hide CalmStep, CalmRun, HandledDev, HandledMaps;
    HandledCalm(s, ok);
    CalmIs(s, MarkMsgHandled(s, ok));
    DropIs(s, MarkMsgHandled(s, ok), Finish);
  }

  lemma CalmPop(s: State, batch: seq<CtlBh>, t: State)
    requires CalmRun(s.(batch := batch), t)
    ensures CalmRun(s, t)
  {
    hide CalmerAll;
  }

  lemma BhCalm(s: State, ok: bool)
    requires Enabled(s, CtlBhRun(ok))
    ensures CalmRun(s, Apply(s, CtlBhRun(ok)))
  {
    hide CalmStep, CalmRun, RunMsgHandled, MarkStopped, RunDrained, RunStartFailed, RunStopWork;
    var a, t := s.(batch := s.batch[1..]), Apply(s, CtlBhRun(ok));
    match s.batch[0] {
      case MsgHandled(_) => MsgHandledCalm(a, ok);
      case Stopped(i) => StoppedCalm(a, i); CalmIs(a, t);
      case Drained(i) => DrainedCalm(a, i, ok);
      case StartFailed(i) => StartFailedCalm(a, i, ok);
      case StopWork => StopWorkCalm(a);
    }
    CalmPop(s, s.batch[1..], t);
  }

  lemma EndCalm(s: State)
    requires s.pc.Disconnecting? && s.pc.k >= |s.rings| && (s.pc.after.Finish? || s.pc.after.i < |s.rings|)
    ensures CalmRun(s, DisconnectEnd(s))
  {
    hide CalmStep, MaybeFinished, FailTail, DrainBack, CalmerAll;
    var idle := s.(pc := CtlIdle);
    FinishCalm(idle);
    var a, t := MaybeFinished(idle), DisconnectEnd(s);
    CalmLength(idle, a);
    if s.pc.after.FailedTail? {
      FailCalm(a, s.pc.after.i);
      CalmTrans(idle, a, t);
    } else if s.pc.after.DrainTail? {
      BackCalm(a, s.pc.after.i);
      CalmTrans(idle, a, t);
    }
    CalmIs(idle, t);
  }

  // posts and request queues

  lemma PostReach(rings: seq<Ring>, home: seq<int>, rqs: seq<Rq>, bh: RqBh)
    requires |home| == |rings| && Homed(home, |rqs|) && ReachInv(rings, home, rqs) && bh.i < |home|
    ensures ReachInv(rings, home, PostedRq(rqs, home[bh.i], bh))
  {
    var rqs' := PostedRq(rqs, home[bh.i], bh);
    forall i | 0 <= i < |rings| ensures Reached(rings[i], rqs'[home[i]], i) {
      assert Reached(rings[i], rqs[home[i]], i);
    }
  }

  /** A stop posted to a ring reaches it whatever the ring's flags become. */
  lemma StopReach(rings: seq<Ring>, home: seq<int>, rqs: seq<Rq>, k: nat, r: Ring)
    requires |home| == |rings| && Homed(home, |rqs|) && ReachInv(rings, home, rqs) && k < |home|
    ensures ReachInv(rings[k := r], home, PostedRq(rqs, home[k], Stop(k)))
  {
    PostReach(rings, home, rqs, Stop(k));
    var rqs' := PostedRq(rqs, home[k], Stop(k));
    forall i | 0 <= i < |rings| ensures Reached(rings[k := r][i], rqs'[home[i]], i) {
      assert Reached(rings[i], rqs'[home[i]], i);
      assert i == k ==> rqs'[home[k]].pending[0] == Stop(k);
    }
  }

  /** Ring `i` and its request queue change; the queue keeps what it held for other rings. */
  lemma RqReach(rings: seq<Ring>, home: seq<int>, rqs: seq<Rq>, i: nat, r: Ring, q: Rq)
    requires |home| == |rings| && Homed(home, |rqs|) && ReachInv(rings, home, rqs) && i < |rings|
    requires Reached(r, q, i)
    requires forall j :: j != i && StopSent(rqs[home[i]], j) ==> StopSent(q, j)
    requires q.pc == StartChecked(i) || !q.pc.StartChecked? || q.pc == rqs[home[i]].pc
    ensures ReachInv(rings[i := r], home, rqs[home[i] := q])
  {
    hide StopSent;
    forall j | 0 <= j < |rings| ensures Reached(rings[i := r][j], rqs[home[i] := q][home[j]], j) {
      assert Reached(rings[j], rqs[home[j]], j);
    }
  }

  lemma SameFlagsReach(rings: seq<Ring>, home: seq<int>, rqs: seq<Rq>, i: nat, r: Ring)
    requires |home| == |rings| && Homed(home, |rqs|) && ReachInv(rings, home, rqs) && i < |rings|
    requires r.startedRq == rings[i].startedRq && r.disconnecting == rings[i].disconnecting
    requires r.onDrain == rings[i].onDrain
    ensures ReachInv(rings[i := r], home, rqs)
  {
    forall j | 0 <= j < |rings| ensures Reached(rings[i := r][j], rqs[home[j]], j) {
      assert Reached(rings[j], rqs[home[j]], j);
    }
  }

  lemma SameFlagsTold(rings: seq<Ring>, d: Dev, pc: CtlPc, i: nat, r: Ring)
    requires ToldInv(rings, d, pc) && i < |rings|
    requires r.startedCtl == rings[i].startedCtl && r.disconnecting == rings[i].disconnecting
    ensures ToldInv(rings[i := r], d, pc)
  {}

  // every step

  lemma ShapeOf(s: State)
    requires Inv(s)
    ensures Shape(s) && PcInv(s.pc, |s.rings|) && SessionInv(s.dev, s.pc, StopWorks(s))
  {
    Open(s);
  }

  lemma BhTells(s: State, ok: bool)
    requires Inv(s) && TellInv(s) && Enabled(s, CtlBhRun(ok)) && Inv(Apply(s, CtlBhRun(ok)))
    ensures TellInv(Apply(s, CtlBhRun(ok)))
  {
    hide Inv, TellInv, Apply, Enabled;
    BhCalm(s, ok);
    CalmTell(s, Apply(s, CtlBhRun(ok)));
  }

  lemma EndTells(s: State)
    requires Inv(s) && TellInv(s) && s.pc.Disconnecting? && !At(s, s.pc.k) && Enabled(s, CtlStep)
    requires Inv(DisconnectEnd(s))
    ensures TellInv(DisconnectEnd(s))
  {
    hide Inv, TellInv, DisconnectEnd, SessionInv;
    ShapeOf(s);
    PastEnd(s);
    EndCalm(s);
    CalmTell(s, DisconnectEnd(s));
  }

  lemma PastEnd(s: State)
    requires Shape(s) && s.pc.Disconnecting? && !At(s, s.pc.k)
    ensures s.pc.k >= |s.rings|
  {}

  lemma NextTells(s: State)
    requires Inv(s) && TellInv(s) && s.pc.Disconnecting? && At(s, s.pc.k) && Inv(DisconnectRing(s, s.pc.k))
    ensures TellInv(DisconnectRing(s, s.pc.k))
  {
    hide Inv, ReachInv, Homed, SessionInv, PostedRq;
    ShapeOf(s);
    ShapeOf(DisconnectRing(s, s.pc.k));
    var k, t := s.pc.k, DisconnectRing(s, s.pc.k);
    if s.rings[k].startedCtl {
      StopReach(s.rings, s.home, s.rqs, k, t.rings[k]);
    }
  }

  lemma PassTells(s: State)
    requires Inv(s) && TellInv(s) && s.pc.Syncing? && At(s, s.pc.k) && Inv(SyncRing(s, s.pc.k))
    ensures TellInv(SyncRing(s, s.pc.k))
  {
    hide Inv, ReachInv, Homed, SessionInv, PostedRq;
    ShapeOf(s);
    ShapeOf(SyncRing(s, s.pc.k));
    PostReach(s.rings, s.home, s.rqs, Sync(s.pc.k));
  }

  lemma CtlStepTells(s: State)
    requires Inv(s) && TellInv(s) && Enabled(s, CtlStep)
    ensures TellInv(Apply(s, CtlStep))
  {
    StepKeeps(s, CtlStep);
    if s.pc.Syncing? {
      hide Inv, TellInv, SyncRing;
      PassTells(s);
    } else if At(s, s.pc.k) {
      hide Inv, TellInv, DisconnectRing;
      NextTells(s);
    } else {
      hide Inv, TellInv, DisconnectEnd;
      EndTells(s);
    }
  }

  /** A message leaves the client connected. */
  lemma ConnTells(s: State, t: State)
    requires Shape(s) && TellInv(s) && Shape(t) && t.dev.conn && t.home == s.home && ReachInv(t.rings, t.home, t.rqs)
    ensures TellInv(t)
  {
    hide ReachInv, Homed;
  }

  lemma ReadTells(s: State, l: Label)
    requires Inv(s) && TellInv(s) && Enabled(s, l) && CanRead(s) && Inv(Apply(s, l))
    requires l.MsgKick? || l.MsgBase? || l.MsgRingFd? || l.MsgRingAttr?
    ensures TellInv(Apply(s, l))
  {
    hide Inv, ReachInv, Homed, PostedRq, ToldInv;
    ReadConn(s);
    var i, t := l.i, Apply(s, l);
    ShapeOf(s);
    ShapeOf(t);
    if l.MsgBase? {
      StopReach(s.rings, s.home, s.rqs, i, t.rings[i]);
    } else if l.MsgKick? && s.maps.mm != 0 {
      SameFlagsReach(s.rings, s.home, s.rqs, i, t.rings[i]);
      PostReach(t.rings, s.home, s.rqs, Start(i));
    } else if !l.MsgKick? {
      PostReach(s.rings, s.home, s.rqs, Sync(i));
    }
    ConnTells(s, t);
  }

  lemma DeferTells(s: State, l: Label)
    requires Inv(s) && TellInv(s) && Enabled(s, l) && CanRead(s) && Inv(Apply(s, l))
    requires l.MsgTable? || l.MsgLog? || l.MsgFeatures?
    ensures TellInv(Apply(s, l))
  {
    hide Inv, ReachInv, Homed, ToldInv, Bump;
    ReadConn(s);
    ShapeOf(s);
    ShapeOf(Apply(s, l));
    ConnTells(s, Apply(s, l));
  }

  /** Steps that touch neither rings nor request queues. */
  lemma QuietTells(s: State, l: Label)
    requires Inv(s) && TellInv(s) && Enabled(s, l) && Inv(Apply(s, l))
    requires l.MsgDone? || l.MsgBad? || l.Accept? || l.CtlSteal? || l.AskStop?
    ensures TellInv(Apply(s, l))
  {
    hide Inv, ReachInv, Homed;
    ShapeOf(s);
    ShapeOf(Apply(s, l));
  }

  lemma StealTells(s: State, r: nat)
    requires Inv(s) && TellInv(s) && Enabled(s, RqSteal(r)) && Inv(Apply(s, RqSteal(r)))
    ensures TellInv(Apply(s, RqSteal(r)))
  {
    hide Inv, SessionInv, ToldInv;
    ShapeOf(s);
    var t := Apply(s, RqSteal(r));
    ShapeOf(t);
    forall j | 0 <= j < |s.rings| ensures Reached(t.rings[j], t.rqs[t.home[j]], j) {
      assert Reached(s.rings[j], s.rqs[s.home[j]], j);
    }
  }

  lemma DataTells(s: State, l: Label)
    requires Inv(s) && TellInv(s) && Enabled(s, l) && Inv(Apply(s, l)) && (l.Fetch? || l.Submit? || l.Finished?)
    ensures TellInv(Apply(s, l))
  {
    hide Inv, ReachInv, Homed, ToldInv, Empty, Bump, RemovedAt;
    ShapeOf(Apply(s, l));
    FlagsTell(s, Apply(s, l), l.i);
  }

  /** Requests come and go without a ring's flags. */
  lemma FlagsTell(s: State, t: State, i: nat)
    requires TellInv(s) && Shape(t) && t.home == s.home && t.dev == s.dev && t.pc == s.pc && t.rqs == s.rqs
    requires i < |s.rings| == |t.rings| && t.rings == s.rings[i := t.rings[i]]
    requires t.rings[i].startedRq == s.rings[i].startedRq && t.rings[i].startedCtl == s.rings[i].startedCtl
    requires t.rings[i].disconnecting == s.rings[i].disconnecting && t.rings[i].onDrain == s.rings[i].onDrain
    ensures TellInv(t)
  {
    hide ReachInv, Homed, ToldInv;
    SameFlagsReach(s.rings, s.home, s.rqs, i, t.rings[i]);
    SameFlagsTold(s.rings, s.dev, s.pc, i, t.rings[i]);
  }

  /** A start passes its check only while no stop is asked of the ring. */
  lemma StartUnasked(s: State, i: nat)
    requires Inv(s) && i < |s.rings| && Bags(s)[i].todo.starts > 0
    ensures !s.rings[i].onDrain
  {
    hide Homed, Bags, Addressed, StopWorks, CountInv, RefInv, MsgInv, WaitInv, PassInv, RingOk, SessionInv, MapInv,
         RingsInv, Moved, Empty;
    Open(s);
    CountsAtLeast(s.dev, s.rings, Bags(s), s.pc, i);
    NotWaiting(s.dev, s.rings, s.pc, i);
  }

  lemma StartPending(s: State, r: nat)
    requires Inv(s) && r < |s.rqs| && s.rqs[r].batch != [] && s.rqs[r].batch[0].Start?
    ensures var i := s.rqs[r].batch[0].i; i < |s.rings| && !s.rings[i].onDrain
  {
    hide CountInv, RefInv, MsgInv, WaitInv, PassInv, SessionInv, MapInv, RingsInv, Empty, BagsOf, Homed;
    Open(s);
    HeadAddressed(s.pending, s.batch, s.home, s.rqs, r);
    BagsPopRq(s.pending, s.batch, s.home, s.rqs, r);
    StartUnasked(s, s.rqs[r].batch[0].i);
  }

  lemma HomeOf(s: State, r: nat)
    requires Inv(s) && r < |s.rqs|
    ensures s.rqs[r].batch != [] ==> s.rqs[r].batch[0].i < |s.home| && s.home[s.rqs[r].batch[0].i] == r
    ensures !s.rqs[r].pc.RqIdle? ==> s.rqs[r].pc.i < |s.home| && s.home[s.rqs[r].pc.i] == r
  {
    hide CountInv, RefInv, MsgInv, WaitInv, PassInv, SessionInv, MapInv, RingsInv, Empty, Bags, Homed;
    Open(s);
    assert RqAddressed(s.rqs[r], s.home, r);
  }

  lemma PopKeepsStops(q: Rq, i: nat)
    requires q.batch != [] && q.batch[0].i == i
    ensures forall j :: j != i && StopSent(q, j) ==> StopSent(q.(batch := q.batch[1..]), j)
    ensures !q.batch[0].Stop? && StopSent(q, i) ==> StopSent(q.(batch := q.batch[1..]), i)
  {
    assert q.batch == [q.batch[0]] + q.batch[1..];
  }

  lemma StopSentPc(q: Rq, pc: RqPc)
    ensures forall j :: StopSent(q.(pc := pc), j) == StopSent(q, j)
  {}

  /** A request queue's step keeps its ring's control flags and every stop for another ring. */
  lemma RqTells(s: State, t: State, i: nat)
    requires TellInv(s) && Shape(t) && t.home == s.home && t.dev == s.dev && t.pc == s.pc && i < |s.rings|
    requires |t.rings| == |s.rings| && t.rings == s.rings[i := t.rings[i]]
    requires t.rqs == s.rqs[s.home[i] := t.rqs[s.home[i]]]
    requires t.rings[i].startedCtl == s.rings[i].startedCtl && t.rings[i].disconnecting == s.rings[i].disconnecting
    requires Reached(t.rings[i], t.rqs[s.home[i]], i)
    requires forall j :: j != i && StopSent(s.rqs[s.home[i]], j) ==> StopSent(t.rqs[s.home[i]], j)
    requires var pc := t.rqs[s.home[i]].pc; pc == StartChecked(i) || !pc.StartChecked?
    ensures TellInv(t)
  {
    hide ReachInv, ToldInv, StopSent;
    RqReach(s.rings, s.home, s.rqs, i, t.rings[i], t.rqs[s.home[i]]);
    SameFlagsTold(s.rings, s.dev, s.pc, i, t.rings[i]);
  }

  lemma StartTells(s: State, r: nat, ok: bool)
    requires Inv(s) && TellInv(s) && Enabled(s, RqBhRun(r, ok)) && Inv(Apply(s, RqBhRun(r, ok)))
    requires s.rqs[r].batch[0].Start?
    ensures TellInv(Apply(s, RqBhRun(r, ok)))
  {
    hide Homed, Inv, ReachInv, ToldInv, StopSent;
    HeadReached(s, r);
    StartPending(s, r);
    var t, q := Apply(s, RqBhRun(r, ok)), s.rqs[r];
    ShapeOf(t);
    StopSentPc(q.(batch := q.batch[1..]), t.rqs[r].pc);
    RqTells(s, t, q.batch[0].i);
  }

  lemma StopTells(s: State, r: nat, ok: bool)
    requires Inv(s) && TellInv(s) && Enabled(s, RqBhRun(r, ok)) && Inv(Apply(s, RqBhRun(r, ok)))
    requires s.rqs[r].batch[0].Stop?
    ensures TellInv(Apply(s, RqBhRun(r, ok)))
  {
    hide Homed, Inv, ReachInv, ToldInv, StopSent, Cancelled, Dropped;
    HeadReached(s, r);
    var t, q := Apply(s, RqBhRun(r, ok)), s.rqs[r];
    ShapeOf(t);
    StopSentPc(q.(batch := q.batch[1..]), t.rqs[r].pc);
    RqTells(s, t, q.batch[0].i);
  }

  lemma SyncTells(s: State, r: nat, ok: bool)
    requires Inv(s) && TellInv(s) && Enabled(s, RqBhRun(r, ok)) && Inv(Apply(s, RqBhRun(r, ok)))
    requires s.rqs[r].batch[0].Sync?
    ensures TellInv(Apply(s, RqBhRun(r, ok)))
  {
    hide Homed, Inv, ReachInv, ToldInv, StopSent;
    HeadReached(s, r);
    ShapeOf(Apply(s, RqBhRun(r, ok)));
    RqTells(s, Apply(s, RqBhRun(r, ok)), s.rqs[r].batch[0].i);
  }

  /** Taking up a bottom half loses no stop but its own. */
  lemma HeadReached(s: State, r: nat)
    requires Inv(s) && TellInv(s) && r < |s.rqs| && s.rqs[r].batch != []
    ensures var q := s.rqs[r];
            var i, p := q.batch[0].i, q.(batch := q.batch[1..]);
            && i < |s.home| && s.home[i] == r && Reached(s.rings[i], q, i)
            && (forall j :: j != i && StopSent(q, j) ==> StopSent(p, j))
            && (!q.batch[0].Stop? && StopSent(q, i) ==> StopSent(p, i))
  {
    hide Homed, ReachInv, Inv, ToldInv, StopSent;
    ShapeOf(s);
    HomeOf(s, r);
    PopKeepsStops(s.rqs[r], s.rqs[r].batch[0].i);
    ReachAt(s.rings, s.home, s.rqs, s.rqs[r].batch[0].i);
  }

  lemma RqRunTells(s: State, r: nat, ok: bool)
    requires Inv(s) && TellInv(s) && Enabled(s, RqBhRun(r, ok)) && Inv(Apply(s, RqBhRun(r, ok)))
    ensures TellInv(Apply(s, RqBhRun(r, ok)))
  {
    hide Inv, TellInv, Apply;
    match s.rqs[r].batch[0]
    case Start(_) => StartTells(s, r, ok);
    case Stop(_) => StopTells(s, r, ok);
    case Sync(_) => SyncTells(s, r, ok);
  }

  lemma ReachAt(rings: seq<Ring>, home: seq<int>, rqs: seq<Rq>, i: nat)
    requires |home| == |rings| && Homed(home, |rqs|) && ReachInv(rings, home, rqs) && i < |rings|
    ensures home[i] < |rqs| && Reached(rings[i], rqs[home[i]], i)
  {}

  lemma RqStepTells(s: State, r: nat)
    requires Inv(s) && TellInv(s) && Enabled(s, RqBhStep(r)) && Inv(Apply(s, RqBhStep(r)))
    ensures TellInv(Apply(s, RqBhStep(r)))
  {
    hide Homed, ReachInv, Inv, ToldInv, StopSent, SessionInv, Empty;
    var t, q := Apply(s, RqBhStep(r)), s.rqs[r];
    ShapeOf(s);
    ShapeOf(t);
    HomeOf(s, r);
    var i := q.pc.i;
    StopSentPc(q, RqIdle);
    assert t.rqs == s.rqs[r := q.(pc := RqIdle)] && t.rings == s.rings[i := t.rings[i]];
    ReachAt(s.rings, s.home, s.rqs, i);
    RqTells(s, t, i);
  }

  lemma StepTells(s: State, l: Label)
    requires Inv(s) && TellInv(s) && Enabled(s, l)
    ensures Inv(Apply(s, l)) && TellInv(Apply(s, l))
  {
    StepKeeps(s, l);
    match l
    case CtlBhRun(ok) => hide Inv, TellInv, Apply; BhTells(s, ok);
    case CtlStep => hide Inv, TellInv, Apply; CtlStepTells(s);
    case RqSteal(r) => hide Inv, TellInv, Apply; StealTells(s, r);
    case RqBhRun(r, ok) => hide Inv, TellInv, Apply; RqRunTells(s, r, ok);
    case RqBhStep(r) => hide Inv, TellInv, Apply; RqStepTells(s, r);
    case MsgTable => hide Inv, TellInv, Apply; DeferTells(s, l);
    case MsgLog => hide Inv, TellInv, Apply; DeferTells(s, l);
    case MsgFeatures => hide Inv, TellInv, Apply; DeferTells(s, l);
    case MsgKick(_) => hide Inv, TellInv, Apply; ReadTells(s, l);
    case MsgBase(_) => hide Inv, TellInv, Apply; ReadTells(s, l);
    case MsgRingFd(_, _) => hide Inv, TellInv, Apply; ReadTells(s, l);
    case MsgRingAttr(_) => hide Inv, TellInv, Apply; ReadTells(s, l);
    case Fetch(_) => hide Inv, TellInv, Apply; DataTells(s, l);
    case Submit(_) => hide Inv, TellInv, Apply; DataTells(s, l);
    case Finished(_, _) => hide Inv, TellInv, Apply; DataTells(s, l);
    case _ => hide Inv, TellInv, Apply; QuietTells(s, l);
  }

  lemma {:induction false} RunTells(s: State, ls: seq<Label>, t: State)
    requires Inv(s) && TellInv(s) && Run(s, ls, t)
    ensures Inv(t) && TellInv(t)
    decreases |ls|
  {
    hide Inv, Enabled, Apply, TellInv;
    if ls != [] {
      StepTells(s, ls[0]);
      RunTells(Apply(s, ls[0]), ls[1..], t);
    }
  }

  lemma InitTells(s: State)
    requires Init(s)
    ensures TellInv(s)
  {}

  lemma ReachableTells(s: State)
    requires Reachable(s)
    ensures Inv(s) && TellInv(s)
  {
    hide Inv, Init, Run, TellInv;
    var s0, ls :| Init(s0) && Run(s0, ls, s);
    InitInv(s0);
    InitTells(s0);
    RunTells(s0, ls, s);
  }

  /**
   * However a start and the stop of a disconnect are reordered: once every ring has been told, a
   * ring that runs or can no longer be kept from running has a stop on its way, and any other start
   * still queued will fail.
   */
  lemma DisconnectReachesAll(s: State, i: nat)
    requires Reachable(s) && !s.dev.conn && s.pc.CtlIdle? && i < |s.rings|
    ensures At(s, i) && (s.rings[i].startedCtl ==> s.rings[i].disconnecting)
    ensures Runs(s.rings[i], s.rqs[s.home[i]], i) ==> StopSent(s.rqs[s.home[i]], i)
  {
    hide Inv, Reachable, Runs, StopSent;
    ReachableTells(s);
    ShapeOf(s);
    RunsStarted(s, i);
    ReachAt(s.rings, s.home, s.rqs, i);
  }

  /** A ring that runs or has passed its check is started in the control loop. */
  lemma RunsStarted(s: State, i: nat)
    requires Inv(s) && i < |s.rings|
    ensures At(s, i) && (Runs(s.rings[i], s.rqs[s.home[i]], i) ==> s.rings[i].startedCtl)
  {
    hide Addressed, StopWorks, CountInv, RefInv, MsgInv, WaitInv, PassInv, SessionInv, MapInv, RingsInv, Moved, Empty,
         Occ;
    Open(s);
    RingAt(s.rings, Bags(s), s.pc, i);
  }

  // ----- the device never waits for nothing

  /** A connected client is listened to unless its message is in progress; a failed reply drops it. */
  predicate Ready(d: Dev) {
    (d.conn && !d.connAttached ==> d.req) && (d.replyFailed ==> !d.conn)
  }

  predicate SameReady(d: Dev, e: Dev) {
    e.conn == d.conn && e.connAttached == d.connAttached && e.req == d.req && e.replyFailed == d.replyFailed
  }

  lemma FinishReady(s: State)
    ensures SameReady(s.dev, MaybeFinished(s).dev)
  {
    hide ResetRings, Bump;
  }

  lemma StoppedReady(s: State, i: nat)
    requires i < |s.rings|
    ensures SameReady(s.dev, MarkStopped(s, i).dev) && |MarkStopped(s, i).rings| == |s.rings|
  {
    hide MaybeFinished, AckStop, Dec;
    FinishReady(SetRing(s, i, AckStop(s.rings[i])).(dev := s.dev.(started := Dec(s.dev.started))));
    FinishRings(SetRing(s, i, AckStop(s.rings[i])).(dev := s.dev.(started := Dec(s.dev.started))));
  }

  lemma BackReady(s: State, i: nat)
    requires i < |s.rings|
    ensures SameReady(s.dev, DrainBack(s, i).dev)
  {
    hide MaybeFinished, Dec;
    FinishReady(SetRing(s, i, s.rings[i].(inited := false)).(dev := s.dev.(inFlight := Dec(s.dev.inFlight))));
  }

  /** The start that failed has its message handled; no reply is due in the rest of it. */
  lemma FailReady(s: State, i: nat)
    requires i < |s.rings| && s.dev.inFlight > 0 && !s.rings[i].onDrain
    ensures SameReady(s.dev, FailTail(s, i).dev)
  {
    hide MaybeFinished, FailTail, WorkDone;
    FailTailIs(s, i);
    FinishReady(Worked(FailAcked(s, i)));
    WorkReady(FailAcked(s, i).dev);
  }

  lemma WorkReady(d: Dev)
    ensures SameReady(d, WorkDone(d))
  {}

  lemma RepliedReady(d: Dev, due: bool, ok: bool)
    requires Ready(d) && (due ==> d.req && !d.replyFailed)
    ensures var e := Reply(d, due, ok); (due && !ok && e.conn) || Ready(e)
    ensures var e := Reply(d, due, ok); Ready(e.(conn := false, connAttached := false))
  {}

  lemma HandledReady(d: Dev, oldMm: nat, rings: seq<Ring>, pc: CtlPc, ok: bool)
    requires MsgInv(d, oldMm, pc) && WaitInv(d, rings, pc) && Ready(d) && d.handling > 0
    ensures var e := HandledDev(d, ok);
            && ((e.handling == 0 && !ok && e.conn) || Ready(e))
            && Ready(e.(conn := false, connAttached := false))
  {}

  lemma MsgHandledReady(s: State, ok: bool)
    requires Inv(s) && Enabled(s, CtlBhRun(ok)) && s.batch[0].MsgHandled? && Ready(s.dev)
    ensures Ready(Apply(s, CtlBhRun(ok)).dev)
  {
    hide Homed, Bags, Addressed, StopWorks, CountInv, RefInv, MsgInv, WaitInv, PassInv, RingOk, SessionInv, MapInv,
         RingsInv, Moved, Empty, HandledDev, HandledMaps, Ready;
    Open(s);
    Popped(s, s.(batch := s.batch[1..]));
    CountsAtLeast(s.dev, s.rings, Bags(s), s.pc, s.batch[0].i);
    HandledReady(s.dev, s.maps.oldMm, s.rings, s.pc, ok);
  }

  lemma StartFailedIs(s: State, ok: bool)
    requires Enabled(s, CtlBhRun(ok)) && s.batch[0].StartFailed? && s.dev.completion.JustAck?
    ensures var i, b := s.batch[0].i, FailedMsg(s, ok);
            && |b.rings| == |s.rings|
            && Apply(s, CtlBhRun(ok))
               == (if b.dev.handling == 0 && !ok && b.dev.conn then Disconnect(b, FailedTail(i)) else FailTail(b, i))
  {
    hide Shape, HandledDev, HandledMaps, FailTail;
    assert s.dev.(completion := JustAck) == s.dev;
  }

  lemma StartFailedReady(s: State, ok: bool)
    requires Inv(s) && Enabled(s, CtlBhRun(ok)) && s.batch[0].StartFailed? && Ready(s.dev)
    ensures Ready(Apply(s, CtlBhRun(ok)).dev)
  {
    hide Homed, Bags, Addressed, StopWorks, CountInv, RefInv, MsgInv, WaitInv, PassInv, RingOk, SessionInv, MapInv,
         RingsInv, Moved, Empty, HandledDev, HandledMaps, Ready, FailTail, Apply;
    Open(s);
    var i := s.batch[0].i;
    StartFailedMsg(s, i, ok);
    StartFailedIs(s, ok);
    var b := FailedMsg(s, ok);
    HandledReady(s.dev, s.maps.oldMm, s.rings, s.pc, ok);
    FailReady(b, i);
    ReadySame(b.dev, FailTail(b, i).dev);
  }

  lemma ReadySame(d: Dev, e: Dev)
    requires SameReady(d, e)
    ensures Ready(d) ==> Ready(e)
  {}

  lemma DrainDue(d: Dev, rings: seq<Ring>, pc: CtlPc, i: nat)
    requires WaitInv(d, rings, pc) && i < |rings|
    ensures rings[i].onDrain ==> d.req && !d.replyFailed
  {}

  lemma DrainedReady(s: State, ok: bool)
    requires Inv(s) && Enabled(s, CtlBhRun(ok)) && s.batch[0].Drained? && Ready(s.dev)
    ensures Ready(Apply(s, CtlBhRun(ok)).dev)
  {
    hide Homed, Bags, Addressed, StopWorks, CountInv, RefInv, MsgInv, WaitInv, PassInv, RingOk, SessionInv, MapInv,
         RingsInv, Moved, Empty, Reply, Ready, DrainBack, AckDrain;
    Open(s);
    var i, a := s.batch[0].i, s.(batch := s.batch[1..]);
    DrainDue(s.dev, s.rings, s.pc, i);
    RepliedReady(s.dev, s.rings[i].onDrain, ok);
    var b := DrainFront(a, i, ok);
    BackReady(b, i);
    ReadySame(b.dev, DrainBack(b, i).dev);
  }

  lemma BhReady(s: State, ok: bool)
    requires Inv(s) && Enabled(s, CtlBhRun(ok)) && Ready(s.dev)
    ensures Ready(Apply(s, CtlBhRun(ok)).dev)
  {
    match s.batch[0]
    case MsgHandled(_) => hide Inv, Apply, Ready; MsgHandledReady(s, ok);
    case StartFailed(_) => hide Inv, Apply, Ready; StartFailedReady(s, ok);
    case Drained(_) => hide Inv, Apply, Ready; DrainedReady(s, ok);
    case Stopped(i) =>
      hide Inv, MarkStopped;
      StoppedReady(s.(batch := s.batch[1..]), i);
    case StopWork =>
      hide Inv, MaybeFinished;
      FinishReady(s.(batch := s.batch[1..], dev := Stopping(s.dev)));
  }

  lemma EndReady(s: State)
    requires Inv(s) && s.pc.Disconnecting? && Ready(s.dev) && (s.pc.after.Finish? || s.pc.after.i < |s.rings|)
    ensures Ready(DisconnectEnd(s).dev)
  {
    hide Inv, MaybeFinished, FailTail, DrainBack, WorkDone;
    var idle := s.(pc := CtlIdle);
    var a := MaybeFinished(idle);
    FinishReady(idle);
    FinishRings(idle);
    match s.pc.after
    case Finish =>
    case FailedTail(i) =>
      EndFailTail(s, i);
      StillInUse(idle);
      WorkReady(s.dev);
      WorkFlight(s.dev);
      FailReady(a, i);
    case DrainTail(i) => BackReady(a, i);
  }

  lemma WorkFlight(d: Dev)
    ensures WorkDone(d).inFlight == d.inFlight && WorkDone(d).started == d.started
  {}

  lemma CtlStepReady(s: State)
    requires Inv(s) && Enabled(s, CtlStep) && Ready(s.dev)
    ensures Ready(Apply(s, CtlStep).dev)
  {
    hide Inv, DisconnectEnd, DisconnectRing, PostedRq;
    if s.pc.Disconnecting? {
      EndReady(s);
      if At(s, s.pc.k) { TellRetired(s); }
    }
  }

  lemma AcceptReady(s: State)
    requires Inv(s) && Enabled(s, Accept) && Ready(s.dev)
    ensures Ready(Apply(s, Accept).dev)
  {
    hide Homed, Bags, Addressed, CountInv, RefInv, MsgInv, PassInv, RingOk, MapInv, RingsInv, StopWorks;
    Open(s);
  }

  lemma DeferReady(s: State, completion: Completion)
    requires Ready(s.dev)
    ensures Ready(Defer(s, completion).dev)
  {}

  lemma TableReady(s: State, l: Label)
    requires Enabled(s, l) && Ready(s.dev) && (l.MsgTable? || l.MsgLog?)
    ensures Ready(Apply(s, l).dev)
  {
    hide Shape, Bump, Ready, Defer;
    if l.MsgTable? {
      if s.dev.inFlight != 0 {
        DeferReady(s.(maps := Maps(|s.maps.refs|, s.maps.mm, s.maps.refs + [1])), DropOldMap);
      }
    } else {
      var e := s.dev.(log := true, oldLog := s.dev.log);
      ReadySame(s.dev, s.dev.(log := true));
      ReadySame(s.dev, e);
      DeferReady(s.(dev := e), DropOldLog);
    }
  }

  lemma ReadReady(s: State, l: Label)
    requires Enabled(s, l) && Ready(s.dev)
    requires l.MsgBad? || l.MsgKick? || l.MsgBase? || l.MsgFeatures? || l.MsgRingFd? || l.MsgRingAttr?
    ensures Ready(Apply(s, l).dev)
  {
    hide Shape, PostedRq, Kicked;
  }

  lemma RqRunSame(s: State, r: nat, ok: bool)
    requires Enabled(s, RqBhRun(r, ok))
    ensures Apply(s, RqBhRun(r, ok)).dev == s.dev
  {
    hide Shape, Cancelled, PoppedRq, WithPc;
  }

  lemma DataSame(s: State, l: Label)
    requires Enabled(s, l)
    requires l.RqSteal? || l.RqBhStep? || l.Fetch? || l.Submit? || l.Finished?
             || l.CtlSteal? || l.MsgDone? || l.AskStop?
    ensures SameReady(s.dev, Apply(s, l).dev)
  {
    hide Shape, Empty, WithPc;
  }

  lemma StepReady(s: State, l: Label)
    requires Inv(s) && Enabled(s, l) && Ready(s.dev)
    ensures Ready(Apply(s, l).dev)
  {
    if l.CtlBhRun? {
      hide Inv, Apply, Enabled, Ready;
      BhReady(s, l.ok);
    } else if l.CtlStep? {
      hide Inv, Apply, Enabled, Ready;
      CtlStepReady(s);
    } else if l.Accept? {
      hide Inv, Apply, Enabled, Ready;
      AcceptReady(s);
    } else if l.MsgTable? || l.MsgLog? {
      hide Inv, Apply, Enabled, Ready;
      TableReady(s, l);
    } else if l.MsgBad? || l.MsgKick? || l.MsgBase? || l.MsgFeatures? || l.MsgRingFd? || l.MsgRingAttr? {
      hide Inv, Apply, Enabled, Ready;
      ReadReady(s, l);
    } else if l.RqBhRun? {
      hide Inv, Apply, Enabled, Ready;
      RqRunSame(s, l.r, l.ok);
    } else {
      hide Inv, Enabled, Ready;
      DataSame(s, l);
      ReadySame(s.dev, Apply(s, l).dev);
    }
  }

  lemma {:induction false} RunReady(s: State, ls: seq<Label>, t: State)
    requires Inv(s) && Ready(s.dev) && Run(s, ls, t)
    ensures Ready(t.dev)
    decreases |ls|
  {
    hide Inv, Enabled, Apply, Ready;
    if ls != [] {
      StepReady(s, ls[0]);
      StepKeeps(s, ls[0]);
      RunReady(Apply(s, ls[0]), ls[1..], t);
    }
  }

  lemma InitReady(s: State)
    requires Init(s)
    ensures Ready(s.dev)
  {}

  lemma ReachableReady(s: State)
    requires Reachable(s)
    ensures Ready(s.dev)
  {
    hide Inv, Init, Run, Ready;
    var s0, ls :| Init(s0) && Run(s0, ls, s);
    InitInv(s0);
    InitReady(s0);
    RunReady(s0, ls, s);
  }

  predicate RqAtRest(q: Rq) {
    q.pending == [] && q.batch == [] && q.pc.RqIdle?
  }

  /** No bottom half anywhere, every loop between handlers, no request with the backend or waiting for it. */
  ghost predicate NothingPending(s: State) {
    && s.pc.CtlIdle? && s.pending == [] && s.batch == []
    && (forall r :: 0 <= r < |s.rqs| ==> RqAtRest(s.rqs[r]))
    && (forall i :: 0 <= i < |s.rings| ==> Empty(s.rings[i]))
  }

  lemma NothingBare(s: State, i: nat)
    requires Shape(s) && NothingPending(s) && i < |s.rings|
    ensures At(s, i) && RqAtRest(s.rqs[s.home[i]]) && Bare(Bags(s)[i]) && Empty(s.rings[i])
  {}

  lemma BareRing(r: Ring, b: Bag)
    requires RingOk(r, b, 0, 0) && Bare(b) && Empty(r)
    ensures StopsOwed(r) == One(r.startedRq) && DrainsOwed(r) == One(r.startedRq)
    ensures r.onDrain ==> r.startedRq
  {}

  /** With nothing pending, a ring that was asked to stop has stopped. */
  lemma NothingRuns(s: State, i: nat)
    requires Inv(s) && TellInv(s) && NothingPending(s) && i < |s.rings|
    ensures var r := s.rings[i];
            && Tokens(Bags(s)[i]) == 0
            && StopsOwed(r) == One(r.startedRq) && DrainsOwed(r) == One(r.startedRq)
            && (!s.dev.conn ==> !r.startedRq) && !r.onDrain
  {
    hide Homed, Bags, Addressed, StopWorks, CountInv, RefInv, MsgInv, WaitInv, PassInv, RingOk, SessionInv, MapInv,
         RingsInv, Moved, Empty, ReachInv, NothingPending;
    Open(s);
    NothingBare(s, i);
    RingAt(s.rings, Bags(s), s.pc, i);
    NothingIdle(s);
    BareRing(s.rings[i], Bags(s)[i]);
    RunsStarted(s, i);
    ReachAt(s.rings, s.home, s.rqs, i);
  }

  lemma NothingIdle(s: State)
    requires NothingPending(s)
    ensures s.pc.CtlIdle?
  {}

  /**
   * Whenever nothing is pending, a connected device reads its next message and an unconnected one
   * is not in use: no message and no disconnect ever waits for an acknowledgement that nobody owes.
   */
  lemma NeverStuck(s: State)
    requires Reachable(s) && NothingPending(s)
    ensures if s.dev.conn then CanRead(s) && s.dev.handling == 0 else !InUse(s.dev)
  {
    hide Homed, Bags, Addressed, StopWorks, CountInv, RefInv, MsgInv, WaitInv, PassInv, RingOk, SessionInv, MapInv,
         RingsInv, Moved, Empty, TellInv, Tokens, Reachable;
    ReachableTells(s);
    Open(s);
    ReachableReady(s);
    forall i | 0 <= i < |s.rings|
      ensures Tokens(Bags(s)[i]) == 0 && !s.rings[i].onDrain && DrainsOwed(s.rings[i]) == One(s.rings[i].startedRq)
              && StopsOwed(s.rings[i]) == One(s.rings[i].startedRq) && (!s.dev.conn ==> !s.rings[i].startedRq)
    {
      NothingRuns(s, i);
    }
    SumZero(Bags(s), Tokens);
    NothingCounts(s.dev, s.rings, Bags(s), s.pc);
    NothingWaits(s.dev, s.maps.oldMm, s.rings, s.pc);
  }

  lemma NothingCounts(d: Dev, rings: seq<Ring>, bags: seq<Bag>, pc: CtlPc)
    requires CountInv(d, rings, bags, pc) && pc.CtlIdle? && Sum(bags, Tokens) == 0
    requires forall i :: 0 <= i < |rings| ==>
               DrainsOwed(rings[i]) == One(rings[i].startedRq) && StopsOwed(rings[i]) == One(rings[i].startedRq)
               && (!d.conn ==> !rings[i].startedRq)
    ensures d.handling == 0 && (!d.conn ==> d.started == 0 && d.inFlight == 0)
  {
    if !d.conn {
      SumZero(rings, StopsOwed);
      SumZero(rings, DrainsOwed);
    }
  }

  lemma NothingWaits(d: Dev, oldMm: nat, rings: seq<Ring>, pc: CtlPc)
    requires MsgInv(d, oldMm, pc) && WaitInv(d, rings, pc) && Ready(d) && d.handling == 0 && pc.CtlIdle?
    requires forall i :: 0 <= i < |rings| ==> !rings[i].onDrain
    ensures d.conn ==> d.connAttached
  {}

  // ----- a device that is done but never cleans up

  /** Nothing in use and the clean-up not done: no handler is left that would do it. */
  predicate Stranded(s: State) {
    s.pc.CtlIdle? && !InUse(s.dev) && s.dev.connOpen
  }

  lemma FinishCleans(s: State)
    ensures !Stranded(MaybeFinished(s))
  {
    hide ResetRings, Bump, WorkDone;
  }

  lemma StoppedCleans(s: State, i: nat)
    requires i < |s.rings|
    ensures !Stranded(MarkStopped(s, i))
  {
    hide MaybeFinished, Stranded;
    FinishCleans(SetRing(s, i, AckStop(s.rings[i])).(dev := s.dev.(started := Dec(s.dev.started))));
  }

  lemma BackCleans(s: State, i: nat)
    requires i < |s.rings|
    ensures !Stranded(DrainBack(s, i))
  {
    hide MaybeFinished, Stranded;
    FinishCleans(SetRing(s, i, s.rings[i].(inited := false)).(dev := s.dev.(inFlight := Dec(s.dev.inFlight))));
  }

  lemma FailCleans(s: State, i: nat)
    requires i < |s.rings|
    ensures !Stranded(FailTail(s, i))
  {
    hide MarkStopped, DrainBack, Stranded, Reply;
    StoppedReady(s, i);
    BackCleans(DrainFront(MarkStopped(s, i), i, true), i);
  }

  lemma BhCleans(s: State, ok: bool)
    requires Enabled(s, CtlBhRun(ok)) && !s.batch[0].MsgHandled?
    ensures !Stranded(Apply(s, CtlBhRun(ok)))
  {
    hide Shape, MarkStopped, DrainBack, FailTail, MaybeFinished, Reply, HandledDev, HandledMaps;
    var a := s.(batch := s.batch[1..]);
    match s.batch[0]
    case Stopped(i) => StoppedCleans(a, i);
    case Drained(i) => BackCleans(DrainFront(a, i, ok), i);
    case StartFailed(i) => FailCleans(MarkMsgHandled(a.(dev := a.dev.(completion := JustAck)), ok), i);
    case StopWork => FinishCleans(a.(dev := Stopping(a.dev)));
  }

  lemma MsgHandledStrands(s: State, ok: bool)
    requires Inv(s) && Enabled(s, CtlBhRun(ok)) && s.batch[0].MsgHandled? && !Stranded(s)
    ensures var d := s.dev;
            Stranded(Apply(s, CtlBhRun(ok))) <==> d.handling == 1 && d.started == 0 && d.inFlight == 0 && !d.conn
  {
    hide Homed, Bags, Addressed, StopWorks, CountInv, RefInv, MsgInv, WaitInv, PassInv, RingOk, SessionInv, MapInv,
         RingsInv, Moved, Empty, HandledMaps;
    Open(s);
    Popped(s, s.(batch := s.batch[1..]));
    CountsAtLeast(s.dev, s.rings, Bags(s), s.pc, s.batch[0].i);
    InUseOpen(s.dev, s.pc, StopWorks(s));
  }

  lemma InUseOpen(d: Dev, pc: CtlPc, works: nat)
    requires SessionInv(d, pc, works)
    ensures InUse(d) ==> d.connOpen
  {}

  lemma EndCleans(s: State)
    requires s.pc.Disconnecting? && (s.pc.after.Finish? || s.pc.after.i < |s.rings|)
    ensures !Stranded(DisconnectEnd(s))
  {
    hide MaybeFinished, FailTail, DrainBack, Stranded;
    var idle := s.(pc := CtlIdle);
    FinishCleans(idle);
    FinishRings(idle);
    match s.pc.after
    case Finish =>
    case FailedTail(i) => FailCleans(MaybeFinished(idle), i);
    case DrainTail(i) => BackCleans(MaybeFinished(idle), i);
  }

  lemma PassConn(s: State)
    requires Inv(s) && s.pc.Syncing?
    ensures s.dev.conn
  {
    hide Homed, Bags, Addressed, StopWorks, CountInv, RefInv, MsgInv, WaitInv, RingOk, SessionInv, MapInv, RingsInv;
    Open(s);
  }

  lemma CtlStepCleans(s: State)
    requires Inv(s) && Enabled(s, CtlStep)
    ensures !Stranded(Apply(s, CtlStep))
  {
    hide Inv, PostedRq, DisconnectEnd;
    if s.pc.Syncing? {
      PassConn(s);
    } else {
      EndCleans(s);
    }
  }

  lemma MsgCleans(s: State, l: Label)
    requires Inv(s) && Enabled(s, l) && CanRead(s)
    requires l.MsgKick? || l.MsgBase? || l.MsgRingFd? || l.MsgRingAttr? || l.MsgBad? || l.MsgFeatures?
    ensures !Stranded(Apply(s, l))
  {
    hide Inv, Shape, PostedRq, Kicked;
    ReadConn(s);
  }

  lemma TableCleans(s: State, l: Label)
    requires Inv(s) && Enabled(s, l) && CanRead(s) && (l.MsgTable? || l.MsgLog?)
    ensures !Stranded(Apply(s, l))
  {
    hide Inv, Shape, Bump, Defer;
    ReadConn(s);
    if s.dev.inFlight != 0 {
      if l.MsgTable? {
        DeferConn(s.(maps := Maps(|s.maps.refs|, s.maps.mm, s.maps.refs + [1])), DropOldMap);
      } else {
        DeferConn(s.(dev := s.dev.(log := true, oldLog := s.dev.log)), DropOldLog);
      }
    }
  }

  lemma DeferConn(s: State, completion: Completion)
    ensures Defer(s, completion).dev.conn == s.dev.conn
  {}

  lemma DataStrands(s: State, l: Label)
    requires Enabled(s, l) && !Stranded(s)
    requires l.RqSteal? || l.RqBhStep? || l.Fetch? || l.Submit? || l.Finished?
             || l.CtlSteal? || l.MsgDone? || l.AskStop? || l.Accept?
    ensures !Stranded(Apply(s, l))
  {
    hide Shape, Empty, WithPc;
  }

  /**
   * The device is left without its clean-up exactly by the last ring to handle a message doing so
   * when the client is gone and every ring has been acknowledged stopped and drained: that handler
   * alone does not ask whether the device is finished.
   */
  lemma StrandedIff(s: State, l: Label)
    requires Reachable(s) && Enabled(s, l) && !Stranded(s)
    ensures var d := s.dev;
            Stranded(Apply(s, l)) <==>
              && l.CtlBhRun? && s.batch[0].MsgHandled?
              && d.handling == 1 && d.started == 0 && d.inFlight == 0 && !d.conn
  {
    ReachableInv(s);
    if l.CtlBhRun? && s.batch[0].MsgHandled? {
      hide Inv, Reachable, Apply, Stranded;
      MsgHandledStrands(s, l.ok);
    } else if l.CtlBhRun? {
      hide Inv, Reachable, Apply, Stranded;
      BhCleans(s, l.ok);
    } else if l.CtlStep? {
      hide Inv, Reachable, Apply, Stranded;
      CtlStepCleans(s);
    } else if l.RqBhRun? {
      hide Inv, Reachable, Shape, Cancelled, PoppedRq, WithPc;
      RqRunSame(s, l.r, l.ok);
    } else if l.MsgTable? || l.MsgLog? {
      hide Inv, Reachable, Apply, Stranded;
      TableCleans(s, l);
    } else if l.MsgKick? || l.MsgBase? || l.MsgRingFd? || l.MsgRingAttr? || l.MsgBad? || l.MsgFeatures? {
      hide Inv, Reachable, Apply, Stranded;
      MsgCleans(s, l);
    } else {
      hide Inv, Reachable, Apply, Stranded;
      DataStrands(s, l);
    }
  }
}
