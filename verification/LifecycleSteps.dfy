/** What each step of the life of a device does to the flags of its rings and of the device. */
module LifecycleSteps {
  import opened Sequences
  import opened Lifecycle
  import opened LifecycleSafety

  // ----- what the control loop runs

  predicate Runs(s: State, l: Label, bh: CtlBh) {
    l.CtlBhRun? && s.batch != [] && s.batch[0] == bh
  }

  /** A reply that could not be sent makes the handler drop the client first; what is left of it waits. */
  predicate Breaks(s: State, l: Label) {
    && l.CtlBhRun? && !l.ok && s.batch != [] && s.dev.conn
    && match s.batch[0]
       case MsgHandled(_) => s.dev.handling <= 1
       case StartFailed(_) => s.dev.handling <= 1
       case Drained(i) => i < |s.rings| && s.rings[i].onDrain
       case _ => false
  }

  /** The loop has told every ring and takes up what the disconnect interrupted. */
  predicate TakesUp(s: State, l: Label, after: After) {
    l.CtlStep? && s.pc.Disconnecting? && s.pc.k >= |s.rings| && s.pc.after == after
  }

  /** The failed start of ring `i` is acknowledged. */
  predicate Fails(s: State, l: Label, i: nat) {
    (Runs(s, l, StartFailed(i)) && !Breaks(s, l)) || TakesUp(s, l, FailedTail(i))
  }

  /** A start of ring `i` is accepted. */
  predicate Accepts(s: State, l: Label, i: nat) {
    l == MsgKick(i) && s.maps.mm != 0
  }

  predicate Tells(s: State, l: Label, i: nat) {
    l.CtlStep? && s.pc.Disconnecting? && s.pc.k == i < |s.rings| && s.rings[i].startedCtl
  }

  predicate RqRuns(s: State, l: Label, bh: RqBh) {
    l.RqBhRun? && l.r < |s.rqs| && s.rqs[l.r].batch != [] && s.rqs[l.r].batch[0] == bh
  }

  predicate Begins(s: State, l: Label, i: nat) {
    l.RqBhStep? && l.r < |s.rqs| && s.rqs[l.r].pc == StartChecked(i)
  }

  // ----- the flags a step leaves a ring with

  /** As it is to be, but for what a clean-up takes back. */
  predicate Left(flag: bool, was: bool, open: bool) {
    (flag ==> was) && (open ==> flag == was)
  }

  /** Those of the control loop; a ring `r` becomes `q`. */
  predicate CtlFlags(s: State, l: Label, i: nat, r: Ring, q: Ring) {
    var drained := Runs(s, l, Drained(i));
    && q.startedCtl == (Accepts(s, l, i) || (r.startedCtl && !drained && !Fails(s, l, i)))
    && q.onDrain == (l == MsgBase(i) || (r.onDrain && !drained && !Fails(s, l, i)))
    && q.inited == (|| Accepts(s, l, i)
                    || (r.inited && !(drained && !Breaks(s, l)) && !TakesUp(s, l, DrainTail(i)) && !Fails(s, l, i)))
  }

  predicate OpenFlags(s: State, l: Label, i: nat, r: Ring, q: Ring, open: bool) {
    && Left(q.kickOpen, Accepts(s, l, i) || (r.kickOpen && !Runs(s, l, Stopped(i)) && !Fails(s, l, i)), open)
    && Left(q.disconnecting, Tells(s, l, i) || r.disconnecting, open)
  }

  predicate RqFlags(s: State, l: Label, i: nat, r: Ring, q: Ring) {
    && q.startedRq == (Begins(s, l, i) || (r.startedRq && !RqRuns(s, l, Stop(i))))
    && q.mm == if Accepts(s, l, i) || Begins(s, l, i) || RqRuns(s, l, Sync(i)) then s.maps.mm else r.mm
  }

  /** The same but for the kick descriptor and the disconnect, which a clean-up takes back. */
  predicate FlaggedAs(r: Ring, t: Ring, open: bool) {
    && t.startedCtl == r.startedCtl && t.onDrain == r.onDrain && t.inited == r.inited && t.startedRq == r.startedRq
    && t.mm == r.mm
    && Left(t.kickOpen, r.kickOpen, open) && Left(t.disconnecting, r.disconnecting, open)
  }

  /** Rings as they were, but for what a clean-up takes back. */
  ghost predicate Swept(rings: seq<Ring>, t: State) {
    && |t.rings| == |rings|
    && (forall j :: 0 <= j < |rings| ==> FlaggedAs(rings[j], t.rings[j], t.dev.connOpen))
  }

  lemma FinishSweeps(s: State)
    ensures Swept(s.rings, MaybeFinished(s)) && (MaybeFinished(s).dev.connOpen ==> s.dev.connOpen)
  {
    hide Bump;
  }

  lemma StopSweeps(s: State, i: nat)
    requires i < |s.rings|
    ensures Swept(s.rings[i := AckStop(s.rings[i])], MarkStopped(s, i))
    ensures MarkStopped(s, i).dev.connOpen ==> s.dev.connOpen
  {
    hide MaybeFinished, Swept, AckStop;
    FinishSweeps(SetRing(s, i, AckStop(s.rings[i])).(dev := s.dev.(started := Dec(s.dev.started))));
  }

  lemma BackSweeps(s: State, i: nat)
    requires i < |s.rings|
    ensures Swept(s.rings[i := s.rings[i].(inited := false)], DrainBack(s, i))
    ensures DrainBack(s, i).dev.connOpen ==> s.dev.connOpen
  {
    hide MaybeFinished, Swept;
    FinishSweeps(SetRing(s, i, s.rings[i].(inited := false)).(dev := s.dev.(inFlight := Dec(s.dev.inFlight))));
  }

  lemma FrontIs(s: State, i: nat, ok: bool)
    requires i < |s.rings|
    ensures DrainFront(s, i, ok).rings == s.rings[i := AckDrain(s.rings[i])]
    ensures DrainFront(s, i, ok).dev.connOpen == s.dev.connOpen && DrainFront(s, i, ok).dev.conn == s.dev.conn
  {
    hide AckDrain;
  }

  lemma TailSweeps(s: State, i: nat)
    requires i < |s.rings|
    ensures Swept(s.rings[i := AckDrain(AckStop(s.rings[i])).(inited := false)], FailTail(s, i))
    ensures FailTail(s, i).dev.connOpen ==> s.dev.connOpen
  {
    hide MarkStopped, DrainBack, DrainFront;
    var a := MarkStopped(s, i);
    StopSweeps(s, i);
    var b := DrainFront(a, i, true);
    FrontIs(a, i, true);
    BackSweeps(b, i);
  }

  lemma HandledIs(s: State, ok: bool)
    ensures var t := MarkMsgHandled(s, ok);
            && t.rings == s.rings && t.dev.conn == s.dev.conn && t.dev.connOpen == s.dev.connOpen
            && t.dev.handling == Dec(s.dev.handling)
  {
    hide HandledMaps;
  }

  lemma HandledLink(s: State, ok: bool)
    ensures var t := MarkMsgHandled(s, ok); t.dev.listening == s.dev.listening && t.dev.stopAsked == s.dev.stopAsked
  {
    hide HandledMaps;
  }

  /** The step leaves ring `i` with the flags it is said to. */
  predicate Flags(s: State, l: Label, t: State, i: nat)
    requires i < |s.rings|
  {
    && |t.rings| == |s.rings| && CtlFlags(s, l, i, s.rings[i], t.rings[i])
    && OpenFlags(s, l, i, s.rings[i], t.rings[i], t.dev.connOpen) && RqFlags(s, l, i, s.rings[i], t.rings[i])
  }

  // ----- bottom halves of the control loop

  lemma MsgHandledFlags(s: State, ok: bool, i: nat)
    requires Enabled(s, CtlBhRun(ok)) && s.batch[0].MsgHandled? && i < |s.rings|
    ensures Flags(s, CtlBhRun(ok), Apply(s, CtlBhRun(ok)), i)
  {
    hide Shape, MarkMsgHandled;
    HandledIs(s.(batch := s.batch[1..]), ok);
  }

  lemma StoppedFlags(s: State, ok: bool, i: nat)
    requires Enabled(s, CtlBhRun(ok)) && s.batch[0].Stopped? && i < |s.rings|
    ensures Flags(s, CtlBhRun(ok), Apply(s, CtlBhRun(ok)), i)
  {
    hide Shape, MarkStopped;
    StopSweeps(s.(batch := s.batch[1..]), s.batch[0].i);
  }

  lemma DrainedFlags(s: State, ok: bool, i: nat)
    requires Enabled(s, CtlBhRun(ok)) && s.batch[0].Drained? && i < |s.rings|
    ensures Flags(s, CtlBhRun(ok), Apply(s, CtlBhRun(ok)), i)
  {
    hide Shape, Apply, RunDrained;
    ApplyRuns(s, ok);
    DrainedIs(s.(batch := s.batch[1..]), s.batch[0].i, ok);
  }

  lemma DrainedIs(a: State, i: nat, ok: bool)
    requires i < |a.rings|
    ensures var t := RunDrained(a, i, ok);
            if a.rings[i].onDrain && !ok && a.dev.conn then
              t.rings == a.rings[i := AckDrain(a.rings[i])] && t.dev.connOpen == a.dev.connOpen
            else Swept(a.rings[i := AckDrain(a.rings[i]).(inited := false)], t)
  {
    hide DrainFront, DrainBack, Swept, AckDrain;
    FrontIs(a, i, ok);
    BackSweeps(DrainFront(a, i, ok), i);
    var r := AckDrain(a.rings[i]);
    assert a.rings[i := r][i := r.(inited := false)] == a.rings[i := r.(inited := false)];
  }

  lemma StartFailedFlags(s: State, ok: bool, i: nat)
    requires Enabled(s, CtlBhRun(ok)) && s.batch[0].StartFailed? && i < |s.rings|
    ensures Flags(s, CtlBhRun(ok), Apply(s, CtlBhRun(ok)), i)
  {
    hide Shape, Apply, RunStartFailed;
    ApplyRuns(s, ok);
    FailedIs(s.(batch := s.batch[1..]), s.batch[0].i, ok);
  }

  lemma FailedIs(a: State, i: nat, ok: bool)
    requires i < |a.rings|
    ensures var t := RunStartFailed(a, i, ok);
            if a.dev.handling <= 1 && !ok && a.dev.conn then t.rings == a.rings && t.dev.connOpen == a.dev.connOpen
            else Swept(a.rings[i := AckDrain(AckStop(a.rings[i])).(inited := false)], t)
  {
    hide MarkMsgHandled, FailTail, Swept, AckDrain, AckStop;
    var b := a.(dev := a.dev.(completion := JustAck));
    HandledIs(b, ok);
    TailSweeps(MarkMsgHandled(b, ok), i);
  }

  lemma StopWorkFlags(s: State, ok: bool, i: nat)
    requires Enabled(s, CtlBhRun(ok)) && s.batch[0].StopWork? && i < |s.rings|
    ensures Flags(s, CtlBhRun(ok), Apply(s, CtlBhRun(ok)), i)
  {
    hide Shape, MaybeFinished;
    var a := s.(batch := s.batch[1..]);
    FinishSweeps(a.(dev := a.dev.(listening := false, listenAttached := false, work := true)));
  }

  lemma TellFlags(s: State, i: nat)
    requires Enabled(s, CtlStep) && i < |s.rings| && (s.pc.Syncing? || At(s, s.pc.k))
    ensures Flags(s, CtlStep, Apply(s, CtlStep), i)
  {
    hide DisconnectEnd, PostedRq, Homed, CtlRun;
  }

  lemma EndFlags(s: State, i: nat)
    requires Enabled(s, CtlStep) && i < |s.rings| && s.pc.Disconnecting? && !At(s, s.pc.k)
    ensures Flags(s, CtlStep, Apply(s, CtlStep), i)
  {
    hide DisconnectEnd, CtlRun, SyncRing, DisconnectRing;
    assert Apply(s, CtlStep) == DisconnectEnd(s);
    EndIs(s);
  }

  lemma EndIs(s: State)
    requires s.pc.Disconnecting? && (s.pc.after.Finish? || s.pc.after.i < |s.rings|)
    ensures var rs, t := s.rings, DisconnectEnd(s);
            match s.pc.after
            case Finish => Swept(rs, t)
            case FailedTail(k) => Swept(rs[k := AckDrain(AckStop(rs[k])).(inited := false)], t)
            case DrainTail(k) => Swept(rs[k := rs[k].(inited := false)], t)
  {
    hide MaybeFinished, FailTail, DrainBack;
    var a := MaybeFinished(s.(pc := CtlIdle));
    FinishSweeps(s.(pc := CtlIdle));
    match s.pc.after
    case Finish =>
    case FailedTail(k) => TailSweeps(a, k);
    case DrainTail(k) => BackSweeps(a, k);
  }

  lemma CtlStepFlags(s: State, i: nat)
    requires Enabled(s, CtlStep) && i < |s.rings|
    ensures Flags(s, CtlStep, Apply(s, CtlStep), i)
  {
    hide Apply, Flags;
    if s.pc.Syncing? || At(s, s.pc.k) { TellFlags(s, i); } else { EndFlags(s, i); }
  }

  lemma BhFlags(s: State, ok: bool, i: nat)
    requires Enabled(s, CtlBhRun(ok)) && i < |s.rings|
    ensures Flags(s, CtlBhRun(ok), Apply(s, CtlBhRun(ok)), i)
  {
    hide Apply, Flags;
    match s.batch[0]
    case MsgHandled(_) => MsgHandledFlags(s, ok, i);
    case Stopped(_) => StoppedFlags(s, ok, i);
    case Drained(_) => DrainedFlags(s, ok, i);
    case StartFailed(_) => StartFailedFlags(s, ok, i);
    case StopWork => StopWorkFlags(s, ok, i);
  }

  // ----- request queues, messages, requests

  lemma RunRings(s: State, r: nat, ok: bool)
    requires r < |s.rqs| && s.rqs[r].batch != [] && s.rqs[r].batch[0].i < |s.rings|
    ensures var t, rs, i := RqRun(s, r, ok), s.rings, s.rqs[r].batch[0].i;
            && t.dev == s.dev
            && t.rings == match s.rqs[r].batch[0]
                          case Start(_) => rs
                          case Stop(_) => if rs[i].startedRq then rs[i := StoppedRing(rs[i])] else rs
                          case Sync(_) => rs[i := rs[i].(mm := s.maps.mm)]
  {
    hide Dropped, Cancelled, PoppedRq, WithPc, StoppedRing;
  }

  lemma RunFlags(s: State, l: Label, i: nat)
    requires Enabled(s, l) && l.RqBhRun? && i < |s.rings|
    ensures Flags(s, l, Apply(s, l), i)
  {
    hide Shape, RqRun, RqStep, CtlRun, Step, Disconnect, SetKick, NewTable, NewLog, Defer, DeferOne, FetchReq,
         CompleteReq, PostRq, Flags;
    RunFlagged(s, l, Apply(s, l), i);
  }

  lemma RunFlagged(s: State, l: Label, t: State, i: nat)
    requires l.RqBhRun? && l.r < |s.rqs| && s.rqs[l.r].batch != [] && s.rqs[l.r].batch[0].i < |s.rings| && i < |s.rings|
    requires t == RqRun(s, l.r, l.ok)
    ensures Flags(s, l, t, i)
  {
    hide RqRun;
    RunRings(s, l.r, l.ok);
  }

  lemma StepRings(s: State, r: nat)
    requires r < |s.rqs| && !s.rqs[r].pc.RqIdle? && s.rqs[r].pc.i < |s.rings|
    ensures var t, rs, i := RqStep(s, r), s.rings, s.rqs[r].pc.i;
            && t.dev == s.dev
            && t.rings == if s.rqs[r].pc.StartChecked? then rs[i := rs[i].(startedRq := true, mm := s.maps.mm)] else rs
  {
    hide WithPc, Empty;
  }

  lemma BeginFlags(s: State, l: Label, i: nat)
    requires Enabled(s, l) && l.RqBhStep? && i < |s.rings|
    ensures Flags(s, l, Apply(s, l), i)
  {
    hide Shape, RqRun, RqStep, CtlRun, Step, Disconnect, SetKick, NewTable, NewLog, Defer, DeferOne, FetchReq,
         CompleteReq, PostRq;
    StepRings(s, l.r);
  }

  lemma StartFlags(s: State, l: Label, i: nat)
    requires Enabled(s, l) && i < |s.rings| && (l.MsgKick? || l.MsgBase?)
    ensures Flags(s, l, Apply(s, l), i)
  {
    hide Shape, CtlRun, Step, RqRun, RqStep, PostedRq, FetchReq, CompleteReq, SubmittedRing, NewTable, NewLog, Defer;
  }

  /** A step that is none of those leaves the flags as they are. */
  predicate Plain(l: Label) {
    !l.CtlBhRun? && !l.CtlStep? && !l.RqBhRun? && !l.RqBhStep? && !l.MsgKick? && !l.MsgBase?
  }

  lemma PlainFlags(s: State, l: Label, t: State, i: nat)
    requires Plain(l) && i < |s.rings| == |t.rings| && FlaggedAs(s.rings[i], t.rings[i], true)
    ensures Flags(s, l, t, i)
  {}

  lemma MessageFlags(s: State, l: Label, i: nat)
    requires Enabled(s, l) && i < |s.rings| && Plain(l) && !l.Fetch? && !l.Submit? && !l.Finished?
    ensures Flags(s, l, Apply(s, l), i)
  {
    hide Shape, CtlRun, Step, RqRun, RqStep, PostedRq, Bump, FetchReq, CompleteReq, SubmittedRing, SetKick, Flags;
    assert Apply(s, l).rings == s.rings;
    PlainFlags(s, l, Apply(s, l), i);
  }

  lemma DataFlags(s: State, l: Label, i: nat)
    requires Enabled(s, l) && i < |s.rings| && (l.Fetch? || l.Submit? || l.Finished?)
    ensures Flags(s, l, Apply(s, l), i)
  {
    hide Shape, CtlRun, Step, RqRun, RqStep, Bump, SetKick, NewTable, NewLog, Defer, DeferOne, PostRq, RemovedAt, Empty,
         Flags;
    PlainFlags(s, l, Apply(s, l), i);
  }

  /**
   * Every flag of a ring is set and cleared exactly by the steps that are to: started in control from
   * an accepted kick to its drained or failed acknowledgement, started in the dataplane from the end of
   * a start that passed its check to a stop, its kick descriptor open from the kick to the stopped
   * acknowledgement, its virtqueue initialised from the kick to the end of the drained one, waiting to
   * answer GET_VRING_BASE until drained, told of a disconnect when it is started, and its map taken over
   * by a kick, the end of a start and a sync.
   */
  lemma FlagsMove(s: State, l: Label, i: nat)
    requires Enabled(s, l) && i < |s.rings|
    ensures Flags(s, l, Apply(s, l), i)
  {
    hide Apply, Flags;
    if l.CtlBhRun? {
      BhFlags(s, l.ok, i);
    } else if l.CtlStep? {
      CtlStepFlags(s, i);
    } else if l.RqBhRun? {
      RunFlags(s, l, i);
    } else if l.RqBhStep? {
      BeginFlags(s, l, i);
    } else if l.Fetch? || l.Submit? || l.Finished? {
      DataFlags(s, l, i);
    } else if l.MsgKick? || l.MsgBase? {
      StartFlags(s, l, i);
    } else {
      MessageFlags(s, l, i);
    }
  }

  // ----- the device's connection

  predicate SameLink(d: Dev, e: Dev) {
    e.conn == d.conn && e.listening == d.listening && e.stopAsked == d.stopAsked
  }

  lemma FinishLink(s: State)
    ensures SameLink(s.dev, MaybeFinished(s).dev)
  {
    hide Bump, ResetRings;
  }

  lemma StopLink(s: State, i: nat)
    requires i < |s.rings|
    ensures SameLink(s.dev, MarkStopped(s, i).dev)
  {
    hide MaybeFinished, AckStop;
    FinishLink(SetRing(s, i, AckStop(s.rings[i])).(dev := s.dev.(started := Dec(s.dev.started))));
  }

  lemma BackLink(s: State, i: nat)
    requires i < |s.rings|
    ensures SameLink(s.dev, DrainBack(s, i).dev)
  {
    hide MaybeFinished;
    FinishLink(SetRing(s, i, s.rings[i].(inited := false)).(dev := s.dev.(inFlight := Dec(s.dev.inFlight))));
  }

  lemma FrontLink(s: State, i: nat, ok: bool)
    requires i < |s.rings|
    ensures SameLink(s.dev, DrainFront(s, i, ok).dev) && |DrainFront(s, i, ok).rings| == |s.rings|
  {
    hide AckDrain;
  }

  lemma TailLink(s: State, i: nat)
    requires i < |s.rings|
    ensures SameLink(s.dev, FailTail(s, i).dev)
  {
    hide MarkStopped, DrainBack, DrainFront;
    StopLink(s, i);
    StopSweeps(s, i);
    FrontLink(MarkStopped(s, i), i, true);
    BackLink(DrainFront(MarkStopped(s, i), i, true), i);
  }

  /** Connected from an accept to a bad message, a reply that could not be sent, or the stop. */
  predicate Link(s: State, l: Label, e: Dev) {
    && e.conn == (l.Accept? || (s.dev.conn && !l.MsgBad? && !Breaks(s, l) && !Runs(s, l, StopWork)))
    && e.listening == (s.dev.listening && !Runs(s, l, StopWork))
    && e.stopAsked == (s.dev.stopAsked || l.AskStop?)
  }

  lemma DropLink(s: State, after: After)
    ensures var e := Disconnect(s, after).dev;
            !e.conn && e.listening == s.dev.listening && e.stopAsked == s.dev.stopAsked
  {}

  lemma MsgHandledLink(s: State, ok: bool)
    requires Enabled(s, CtlBhRun(ok)) && s.batch[0].MsgHandled?
    ensures Link(s, CtlBhRun(ok), Apply(s, CtlBhRun(ok)).dev)
  {
    hide Shape, Apply, MarkMsgHandled, Disconnect;
    ApplyRuns(s, ok);
    var a := s.(batch := s.batch[1..]);
    HandledIs(a, ok);
    HandledLink(a, ok);
    DropLink(MarkMsgHandled(a, ok), Finish);
  }

  lemma DrainedLink(s: State, ok: bool)
    requires Enabled(s, CtlBhRun(ok)) && s.batch[0].Drained?
    ensures Link(s, CtlBhRun(ok), Apply(s, CtlBhRun(ok)).dev)
  {
    hide Shape, Apply, DrainBack, DrainFront, Disconnect;
    ApplyRuns(s, ok);
    var a, i := s.(batch := s.batch[1..]), s.batch[0].i;
    FrontLink(a, i, ok);
    BackLink(DrainFront(a, i, ok), i);
    DropLink(DrainFront(a, i, ok), DrainTail(i));
  }

  lemma StartFailedLink(s: State, ok: bool)
    requires Enabled(s, CtlBhRun(ok)) && s.batch[0].StartFailed?
    ensures Link(s, CtlBhRun(ok), Apply(s, CtlBhRun(ok)).dev)
  {
    hide Shape, Apply, FailTail, MarkMsgHandled, Disconnect;
    ApplyRuns(s, ok);
    var b := s.(batch := s.batch[1..], dev := s.dev.(completion := JustAck));
    HandledIs(b, ok);
    HandledLink(b, ok);
    DropLink(MarkMsgHandled(b, ok), FailedTail(s.batch[0].i));
    TailLink(MarkMsgHandled(b, ok), s.batch[0].i);
  }

  lemma StoppedLink(s: State, ok: bool)
    requires Enabled(s, CtlBhRun(ok)) && s.batch[0].Stopped?
    ensures Link(s, CtlBhRun(ok), Apply(s, CtlBhRun(ok)).dev)
  {
    hide Shape, MarkStopped;
    StopLink(s.(batch := s.batch[1..]), s.batch[0].i);
  }

  lemma StopWorkLink(s: State, ok: bool)
    requires Enabled(s, CtlBhRun(ok)) && s.batch[0].StopWork?
    ensures Link(s, CtlBhRun(ok), Apply(s, CtlBhRun(ok)).dev)
  {
    hide Shape, Apply, RunStopWork;
    ApplyRuns(s, ok);
    StopWorkIs(s.(batch := s.batch[1..]));
  }

  lemma StopWorkIs(a: State)
    ensures var e := RunStopWork(a).dev; !e.conn && !e.listening && e.stopAsked == a.dev.stopAsked
  {
    hide MaybeFinished;
    FinishLink(a.(dev := a.dev.(listening := false, listenAttached := false, work := true)));
  }

  lemma CtlStepLink(s: State)
    requires Enabled(s, CtlStep)
    ensures Link(s, CtlStep, Apply(s, CtlStep).dev)
  {
    hide DisconnectEnd, PostedRq, CtlRun;
    if s.pc.Disconnecting? { EndLink(s); }
  }

  lemma EndLink(s: State)
    requires s.pc.Disconnecting? && (s.pc.after.Finish? || s.pc.after.i < |s.rings|)
    ensures SameLink(s.dev, DisconnectEnd(s).dev)
  {
    hide MaybeFinished, FailTail, DrainBack;
    var a := MaybeFinished(s.(pc := CtlIdle));
    FinishLink(s.(pc := CtlIdle));
    FinishSweeps(s.(pc := CtlIdle));
    match s.pc.after
    case Finish =>
    case FailedTail(k) => TailLink(a, k);
    case DrainTail(k) => BackLink(a, k);
  }

  lemma AcceptLink(s: State)
    requires Enabled(s, Accept)
    ensures Link(s, Accept, Apply(s, Accept).dev)
  {
    hide Shape, CtlRun, Step, RqRun, RqStep, SetKick, NewTable, NewLog, Defer, DeferOne, PostRq, FetchReq, CompleteReq;
  }

  lemma DeferLink(s: State, c: Completion)
    ensures SameLink(s.dev, Defer(s, c).dev)
  {}

  lemma OneLink(s: State, bh: RqBh, c: Completion)
    requires At(s, bh.i)
    ensures SameLink(s.dev, DeferOne(s, bh, c).dev)
  {
    hide PostedRq;
  }

  lemma LogSame(d: Dev, log: bool, oldLog: bool)
    ensures SameLink(d, d.(log := log, oldLog := oldLog)) && SameLink(d, d.(log := log))
  {}

  lemma LinkOn(d: Dev, e: Dev, f: Dev)
    requires SameLink(d, e) && SameLink(e, f)
    ensures SameLink(d, f)
  {}

  lemma LogLink(s: State)
    ensures SameLink(s.dev, NewLog(s).dev)
  {
    hide Defer, SameLink;
    var a := s.(dev := s.dev.(log := true, oldLog := s.dev.log));
    LogSame(s.dev, true, s.dev.log);
    DeferLink(a, DropOldLog);
    LinkOn(s.dev, a.dev, Defer(a, DropOldLog).dev);
  }

  lemma TableLink(s: State)
    ensures SameLink(s.dev, NewTable(s).dev)
  {
    hide Defer, Bump;
    DeferLink(s.(maps := Maps(|s.maps.refs|, s.maps.mm, s.maps.refs + [1])), DropOldMap);
  }

  lemma AllRingsLink(s: State, l: Label)
    requires Enabled(s, l) && (l.MsgTable? || l.MsgLog? || l.MsgFeatures?)
    ensures Link(s, l, Apply(s, l).dev)
  {
    hide Shape, CtlRun, Step, RqRun, RqStep, PostRq, SetKick, FetchReq, CompleteReq, DeferOne, Disconnect, NewLog,
         NewTable,
         Defer;
    LogLink(s);
    TableLink(s);
    DeferLink(s, JustAck);
  }

  lemma KickLink(s: State, i: nat)
    requires At(s, i)
    ensures SameLink(s.dev, SetKick(s, i).dev)
  {
    hide Kicked, DeferOne;
    var a := SetRing(s, i, Kicked(s.rings[i], s.maps.mm));
    OneLink(a.(dev := s.dev.(started := s.dev.started + 1, inFlight := s.dev.inFlight + 1)), Start(i), JustAck);
  }

  lemma RingLink(s: State, l: Label)
    requires Enabled(s, l) && (l.MsgRingFd? || l.MsgRingAttr? || l.MsgKick?)
    ensures Link(s, l, Apply(s, l).dev)
  {
    hide Shape, CtlRun, Step, RqRun, RqStep, SetKick, FetchReq, CompleteReq, DeferOne, NewTable, NewLog, Defer,
         Disconnect, PostRq, Link;
    assert SameLink(s.dev, Apply(s, l).dev) by {
      match l
      case MsgKick(i) => KickLink(s, i);
      case MsgRingFd(i, hadFd) => OneLink(s.(dev := s.dev.(keepFd := hadFd)), Sync(i), CloseKeptFd);
      case MsgRingAttr(i) => OneLink(s, Sync(i), JustAck);
    }
    SameLinked(s, l, Apply(s, l).dev);
  }

  lemma BaseLink(s: State, l: Label)
    requires Enabled(s, l) && (l.MsgBase? || l.MsgBad?)
    ensures Link(s, l, Apply(s, l).dev)
  {
    hide Shape, CtlRun, Step, RqRun, RqStep, PostedRq, SetKick, FetchReq, CompleteReq, NewTable, NewLog, Defer,
         DeferOne;
  }

  /** A step that leaves the device's connection and its rings' starts alone. */
  predicate Aside(l: Label) {
    || l.CtlSteal? || l.MsgDone? || l.AskStop? || l.RqSteal? || l.RqBhStep?
    || l.Fetch? || l.Submit? || l.Finished?
  }

  lemma RestLink(s: State, l: Label)
    requires Enabled(s, l) && Aside(l)
    ensures Link(s, l, Apply(s, l).dev)
  {
    hide Shape, CtlRun, Step, RqRun, SetKick, NewTable, NewLog, Defer, DeferOne, PostRq, Bump, RemovedAt, Empty, WithPc,
         Link;
    if l.AskStop? {
      AskLink(s);
    } else {
      assert Apply(s, l).dev == s.dev;
      SameLinked(s, l, s.dev);
    }
  }

  lemma AskLink(s: State)
    ensures Link(s, AskStop, PostCtl(s.(dev := s.dev.(stopAsked := true)), StopWork).dev)
  {}

  /**
   * The client is connected from its accept until a bad message, a deferred reply that could not be
   * sent or the stop work ends the session; only the stop work ends the listening.
   */
  lemma LinkMoves(s: State, l: Label)
    requires Enabled(s, l)
    ensures Link(s, l, Apply(s, l).dev)
  {
    hide Apply, Link;
    if l.CtlBhRun? {
      match s.batch[0]
      case MsgHandled(_) => MsgHandledLink(s, l.ok);
      case Drained(_) => DrainedLink(s, l.ok);
      case StartFailed(_) => StartFailedLink(s, l.ok);
      case Stopped(_) => StoppedLink(s, l.ok);
      case StopWork => StopWorkLink(s, l.ok);
    } else if l.CtlStep? {
      CtlStepLink(s);
    } else if l.RqBhRun? {
      RqRunSame(s, l.r, l.ok);
      SameLinked(s, l, s.dev);
    } else if l.Accept? {
      AcceptLink(s);
    } else if Aside(l) {
      RestLink(s, l);
    } else if l.MsgTable? || l.MsgLog? || l.MsgFeatures? {
      AllRingsLink(s, l);
    } else if l.MsgBase? || l.MsgBad? {
      BaseLink(s, l);
    } else {
      RingLink(s, l);
    }
  }

  lemma SameLinked(s: State, l: Label, e: Dev)
    requires SameLink(s.dev, e) && !l.CtlBhRun? && !l.Accept? && !l.MsgBad? && !l.AskStop?
    ensures Link(s, l, e)
  {}

  // ----- closed and stopped

  /** A closed device listens again exactly if it may, and is released exactly if it may not. */
  predicate Closed(d: Dev) {
    !d.connOpen ==> d.listenAttached == d.listening && d.released == !d.listening
  }

  /** Stop work that is left has a ring to wait for. */
  predicate Waits(d: Dev) {
    d.work ==> d.started > 0 || d.listening
  }

  predicate Rests(d: Dev, pc: CtlPc) {
    Closed(d) && (pc.CtlIdle? ==> Waits(d))
  }

  predicate SameRest(d: Dev, e: Dev) {
    && e.connOpen == d.connOpen && e.listenAttached == d.listenAttached && e.released == d.released
    && e.listening == d.listening && e.work == d.work && e.started >= d.started
  }

  lemma SameRests(d: Dev, e: Dev, pc: CtlPc)
    requires SameRest(d, e)
    ensures (Closed(d) ==> Closed(e)) && (Rests(d, pc) ==> Rests(e, pc))
  {}

  lemma FinishRests(s: State)
    requires Closed(s.dev) || !InUse(s.dev)
    ensures Closed(MaybeFinished(s).dev) && Waits(MaybeFinished(s).dev)
  {
    hide Bump, ResetRings;
  }

  lemma StopRests(s: State, i: nat)
    requires i < |s.rings| && Closed(s.dev)
    ensures Closed(MarkStopped(s, i).dev) && Waits(MarkStopped(s, i).dev)
  {
    hide MaybeFinished, AckStop;
    FinishRests(SetRing(s, i, AckStop(s.rings[i])).(dev := s.dev.(started := Dec(s.dev.started))));
  }

  lemma BackRests(s: State, i: nat)
    requires i < |s.rings| && Closed(s.dev)
    ensures Closed(DrainBack(s, i).dev) && Waits(DrainBack(s, i).dev)
  {
    hide MaybeFinished;
    FinishRests(SetRing(s, i, s.rings[i].(inited := false)).(dev := s.dev.(inFlight := Dec(s.dev.inFlight))));
  }

  lemma FrontRests(s: State, i: nat, ok: bool)
    requires i < |s.rings|
    ensures SameRest(s.dev, DrainFront(s, i, ok).dev) && |DrainFront(s, i, ok).rings| == |s.rings|
  {
    hide AckDrain;
  }

  lemma TailRests(s: State, i: nat)
    requires i < |s.rings| && Closed(s.dev)
    ensures Closed(FailTail(s, i).dev) && Waits(FailTail(s, i).dev)
  {
    hide MarkStopped, DrainBack, DrainFront, Closed, Waits, SameRest;
    StopRests(s, i);
    StopSweeps(s, i);
    FrontRests(MarkStopped(s, i), i, true);
    SameRests(MarkStopped(s, i).dev, DrainFront(MarkStopped(s, i), i, true).dev, CtlIdle);
    BackRests(DrainFront(MarkStopped(s, i), i, true), i);
  }

  lemma HandledRests(s: State, ok: bool)
    ensures SameRest(s.dev, MarkMsgHandled(s, ok).dev)
  {
    hide HandledMaps;
  }

  lemma MsgHandledRests(a: State, ok: bool)
    requires Rests(a.dev, a.pc)
    ensures var t := RunMsgHandled(a, ok); Rests(t.dev, t.pc)
  {
    hide MarkMsgHandled, Closed, Waits;
    HandledRests(a, ok);
    HandledIs(a, ok);
    SameRests(a.dev, MarkMsgHandled(a, ok).dev, a.pc);
    MarkPc(a, ok);
    DropRests(MarkMsgHandled(a, ok), Finish);
  }

  lemma MarkPc(a: State, ok: bool)
    ensures MarkMsgHandled(a, ok).pc == a.pc
  {
    hide HandledMaps, HandledDev;
  }

  lemma DropRests(a: State, after: After)
    ensures var t := Disconnect(a, after); (Closed(a.dev) ==> Rests(t.dev, t.pc))
  {}

  lemma DrainedRests(a: State, i: nat, ok: bool)
    requires i < |a.rings| && Closed(a.dev)
    ensures var t := RunDrained(a, i, ok); Rests(t.dev, t.pc)
  {
    hide DrainFront, DrainBack, Closed, Waits, SameRest, Disconnect;
    var b := DrainFront(a, i, ok);
    FrontRests(a, i, ok);
    SameRests(a.dev, b.dev, a.pc);
    DropRests(b, DrainTail(i));
    BackRests(b, i);
  }

  lemma FailedRests(a: State, i: nat, ok: bool)
    requires i < |a.rings| && Closed(a.dev)
    ensures var t := RunStartFailed(a, i, ok); Rests(t.dev, t.pc)
  {
    hide MarkMsgHandled, FailTail, Closed, Waits, SameRest, Disconnect;
    var c := a.(dev := a.dev.(completion := JustAck));
    AckRests(a.dev);
    var b := MarkMsgHandled(c, ok);
    HandledRests(c, ok);
    HandledIs(c, ok);
    SameRests(a.dev, c.dev, CtlIdle);
    SameRests(c.dev, b.dev, CtlIdle);
    DropRests(b, FailedTail(i));
    TailRests(b, i);
  }

  lemma AckRests(d: Dev)
    ensures SameRest(d, d.(completion := JustAck))
  {}

  lemma StopWorkRests(a: State)
    requires InUse(a.dev) ==> a.dev.connOpen
    ensures var t := RunStopWork(a); Rests(t.dev, t.pc)
  {
    hide MaybeFinished;
    var b := a.(dev := a.dev.(listening := false, listenAttached := false, work := true));
    assert InUse(b.dev) == InUse(a.dev) && (a.dev.connOpen ==> Closed(b.dev));
    FinishRests(b);
  }

  lemma UsedIsOpen(s: State)
    requires Inv(s)
    ensures (InUse(s.dev) ==> s.dev.connOpen) && (s.pc.Syncing? ==> !s.dev.work) && (s.dev.conn ==> s.dev.listening)
  {
    hide Homed, Bags, Addressed, CountInv, RefInv, MsgInv, WaitInv, RingOk, MapInv, RingsInv;
    Open(s);
  }

  lemma BhRests(s: State, ok: bool)
    requires Inv(s) && Enabled(s, CtlBhRun(ok)) && Rests(s.dev, s.pc)
    ensures var t := Apply(s, CtlBhRun(ok)); Rests(t.dev, t.pc)
  {
    hide Inv, Shape, Apply, RunMsgHandled, RunDrained, RunStartFailed, RunStopWork, MarkStopped;
    ApplyRuns(s, ok);
    var a := s.(batch := s.batch[1..]);
    match s.batch[0]
    case MsgHandled(_) => MsgHandledRests(a, ok);
    case Drained(i) => DrainedRests(a, i, ok);
    case StartFailed(i) => FailedRests(a, i, ok);
    case Stopped(i) => StopRests(a, i);
    case StopWork => UsedIsOpen(s); StopWorkRests(a);
  }

  lemma EndRests(s: State)
    requires s.pc.Disconnecting? && (s.pc.after.Finish? || s.pc.after.i < |s.rings|) && Closed(s.dev)
    ensures Closed(DisconnectEnd(s).dev) && Waits(DisconnectEnd(s).dev)
  {
    hide MaybeFinished, FailTail, DrainBack, Closed, Waits;
    var a := MaybeFinished(s.(pc := CtlIdle));
    FinishRests(s.(pc := CtlIdle));
    FinishSweeps(s.(pc := CtlIdle));
    match s.pc.after
    case Finish =>
    case FailedTail(k) => TailRests(a, k);
    case DrainTail(k) => BackRests(a, k);
  }

  lemma CtlStepRests(s: State)
    requires Inv(s) && Enabled(s, CtlStep) && Rests(s.dev, s.pc)
    ensures var t := Apply(s, CtlStep); Rests(t.dev, t.pc)
  {
    hide Inv, DisconnectEnd, PostedRq, CtlRun;
    UsedIsOpen(s);
    if s.pc.Disconnecting? { EndRests(s); }
  }

  lemma DeferRests(s: State, c: Completion)
    ensures SameRest(s.dev, Defer(s, c).dev) && SameRest(s.dev, Deferred(s.dev, c))
    ensures !Defer(s, c).pc.CtlIdle?
  {}

  lemma LogRests(d: Dev, log: bool, oldLog: bool)
    ensures SameRest(d, d.(log := log, oldLog := oldLog)) && SameRest(d, d.(log := log))
  {}

  lemma RestOn(d: Dev, e: Dev, f: Dev)
    requires SameRest(d, e) && SameRest(e, f)
    ensures SameRest(d, f)
  {}

  lemma LogKeepsRest(s: State)
    ensures SameRest(s.dev, NewLog(s).dev)
  {
    hide Defer, SameRest;
    var a := s.(dev := s.dev.(log := true, oldLog := s.dev.log));
    LogRests(s.dev, true, s.dev.log);
    DeferRests(a, DropOldLog);
    RestOn(s.dev, a.dev, Defer(a, DropOldLog).dev);
  }

  lemma LogPc(s: State)
    ensures NewLog(s).pc == s.pc || !NewLog(s).pc.CtlIdle?
  {
    hide Deferred;
  }

  lemma TableKeepsRest(s: State)
    ensures SameRest(s.dev, NewTable(s).dev) && (NewTable(s).pc == s.pc || !NewTable(s).pc.CtlIdle?)
  {
    hide Defer, Bump;
    DeferRests(s.(maps := Maps(|s.maps.refs|, s.maps.mm, s.maps.refs + [1])), DropOldMap);
  }

  lemma AllRingsRest(s: State, l: Label)
    requires Enabled(s, l) && (l.MsgTable? || l.MsgLog? || l.MsgFeatures?) && Rests(s.dev, s.pc)
    ensures var t := Apply(s, l); Rests(t.dev, t.pc)
  {
    hide Shape, CtlRun, Step, RqRun, RqStep, PostRq, SetKick, FetchReq, CompleteReq, DeferOne, Disconnect, NewLog,
         NewTable,
         Defer, SameRest, Closed, Waits;
    LogKeepsRest(s);
    LogPc(s);
    TableKeepsRest(s);
    DeferRests(s, JustAck);
    SameRests(s.dev, Apply(s, l).dev, s.pc);
  }

  lemma RingRests(s: State, l: Label)
    requires Enabled(s, l) && (l.MsgRingFd? || l.MsgRingAttr? || l.MsgKick?) && Rests(s.dev, s.pc)
    ensures var t := Apply(s, l); Rests(t.dev, t.pc)
  {
    hide Shape, CtlRun, Step, RqRun, RqStep, PostedRq, Kicked, FetchReq, CompleteReq, NewTable, NewLog, Defer,
         Disconnect;
    assert SameRest(s.dev, Apply(s, l).dev);
    SameRests(s.dev, Apply(s, l).dev, s.pc);
  }

  lemma BaseRests(s: State, l: Label)
    requires Enabled(s, l) && (l.MsgBase? || l.MsgBad?) && Rests(s.dev, s.pc)
    ensures var t := Apply(s, l); Rests(t.dev, t.pc)
  {
    hide Shape, CtlRun, Step, RqRun, RqStep, PostedRq, SetKick, FetchReq, CompleteReq, NewTable, NewLog, Defer,
         DeferOne;
  }

  lemma AcceptRests(s: State)
    requires Inv(s) && Enabled(s, Accept) && Rests(s.dev, s.pc)
    ensures var t := Apply(s, Accept); Rests(t.dev, t.pc)
  {
    hide Inv, Shape, CtlRun, Step, RqRun, RqStep, SetKick, NewTable, NewLog, Defer, DeferOne, PostRq, FetchReq,
         CompleteReq;
  }

  lemma QuietRests(s: State, l: Label)
    requires Enabled(s, l) && Rests(s.dev, s.pc)
    requires Aside(l)
    ensures var t := Apply(s, l); Rests(t.dev, t.pc)
  {
    hide Shape, CtlRun, Step, RqRun, SetKick, NewTable, NewLog, Defer, DeferOne, PostRq, Bump, RemovedAt, Empty, WithPc;
  }

  lemma RqRunPc(s: State, r: nat, ok: bool)
    requires Enabled(s, RqBhRun(r, ok))
    ensures Apply(s, RqBhRun(r, ok)).pc == s.pc
  {
    hide Shape, Cancelled, PoppedRq, WithPc;
  }

  lemma StepRests(s: State, l: Label)
    requires Inv(s) && Enabled(s, l) && Rests(s.dev, s.pc)
    ensures var t := Apply(s, l); Rests(t.dev, t.pc)
  {
    hide Inv, Apply, Rests;
    if l.CtlBhRun? {
      BhRests(s, l.ok);
    } else if l.CtlStep? {
      CtlStepRests(s);
    } else if l.RqBhRun? {
      RqRunSame(s, l.r, l.ok);
      RqRunPc(s, l.r, l.ok);
    } else if l.Accept? {
      AcceptRests(s);
    } else if l.MsgTable? || l.MsgLog? || l.MsgFeatures? {
      AllRingsRest(s, l);
    } else if l.MsgBase? || l.MsgBad? {
      BaseRests(s, l);
    } else if l.MsgRingFd? || l.MsgRingAttr? || l.MsgKick? {
      RingRests(s, l);
    } else {
      QuietRests(s, l);
    }
  }

  lemma {:induction false} RunRests(s: State, ls: seq<Label>, t: State)
    requires Inv(s) && Rests(s.dev, s.pc) && Run(s, ls, t)
    ensures Rests(t.dev, t.pc)
    decreases |ls|
  {
    hide Inv, Enabled, Apply, Rests;
    if ls != [] {
      StepRests(s, ls[0]);
      StepKeeps(s, ls[0]);
      RunRests(Apply(s, ls[0]), ls[1..], t);
    }
  }

  lemma InitRests(s: State)
    requires Init(s)
    ensures Rests(s.dev, s.pc)
  {}

  /**
   * Whenever the client's socket is closed the device listens for the next client, or, once it was
   * stopped, is released; and the stop call has returned unless a ring has still to be stopped or the
   * loop is telling the rings.
   */
  lemma ClosedAndStopped(s: State)
    requires Reachable(s)
    ensures !s.dev.connOpen ==> s.dev.listenAttached == s.dev.listening && s.dev.released == !s.dev.listening
    ensures s.dev.work && s.pc.CtlIdle? ==> s.dev.started > 0 && !s.dev.listening
  {
    ReachableInv(s);
    ShapeOf(s);
    hide Inv, Init, Run;
    var s0, ls :| Init(s0) && Run(s0, ls, s);
    InitInv(s0);
    InitRests(s0);
    RunRests(s0, ls, s);
  }

  // ----- messages, logs and maps

  /** What a clean-up may take back, and nothing else, is different. */
  predicate Kept(s: State, t: State) {
    && t.dev.completion == s.dev.completion && t.dev.oldLog == s.dev.oldLog && t.dev.keepFd == s.dev.keepFd
    && t.maps.oldMm == s.maps.oldMm && (t.dev.connOpen ==> s.dev.connOpen)
    && (t.dev.log ==> s.dev.log) && (t.maps.mm == s.maps.mm || t.maps.mm == 0)
    && (t.dev.connOpen ==> t.dev.log == s.dev.log && t.maps.mm == s.maps.mm)
  }

  lemma KeptOn(s: State, t: State, u: State)
    requires Kept(s, t) && Kept(t, u)
    ensures Kept(s, u)
  {}

  lemma FinishKept(s: State)
    ensures Kept(s, MaybeFinished(s))
  {
    hide Bump, ResetRings;
  }

  lemma StopKept(s: State, i: nat)
    requires i < |s.rings|
    ensures Kept(s, MarkStopped(s, i))
  {
    hide MaybeFinished, AckStop;
    var a := SetRing(s, i, AckStop(s.rings[i])).(dev := s.dev.(started := Dec(s.dev.started)));
    FinishKept(a);
  }

  lemma BackKept(s: State, i: nat)
    requires i < |s.rings|
    ensures Kept(s, DrainBack(s, i))
  {
    hide MaybeFinished;
    FinishKept(SetRing(s, i, s.rings[i].(inited := false)).(dev := s.dev.(inFlight := Dec(s.dev.inFlight))));
  }

  lemma FrontKept(s: State, i: nat, ok: bool)
    requires i < |s.rings|
    ensures Kept(s, DrainFront(s, i, ok)) && |DrainFront(s, i, ok).rings| == |s.rings|
  {
    hide AckDrain;
  }

  lemma TailKept(s: State, i: nat)
    requires i < |s.rings|
    ensures Kept(s, FailTail(s, i))
  {
    hide MarkStopped, DrainBack, DrainFront, Kept;
    StopKept(s, i);
    StopSweeps(s, i);
    var a := MarkStopped(s, i);
    FrontKept(a, i, true);
    BackKept(DrainFront(a, i, true), i);
    KeptOn(s, a, DrainFront(a, i, true));
    KeptOn(s, DrainFront(a, i, true), FailTail(s, i));
  }

  lemma DropKept(s: State, after: After)
    ensures Kept(s, Disconnect(s, after))
  {}

  /** The last ring to handle the message does so. */
  predicate Ends(s: State, l: Label) {
    l.CtlBhRun? && s.batch != [] && s.batch[0].MsgHandled? && s.dev.handling <= 1
  }

  /** What becomes of the message being handled. */
  function Completing(s: State, l: Label): Completion {
    if Ends(s, l) || (l.CtlBhRun? && s.batch != [] && s.batch[0].StartFailed? && s.dev.handling <= 1) then NoCompletion
    else if l.CtlBhRun? && s.batch != [] && s.batch[0].StartFailed? then JustAck
    else if l.MsgTable? && s.dev.inFlight != 0 then DropOldMap
    else if l.MsgLog? && s.dev.inFlight != 0 then DropOldLog
    else if l.MsgRingFd? then CloseKeptFd
    else if l.MsgFeatures? || l.MsgRingAttr? || (l.MsgKick? && s.maps.mm != 0) then JustAck
    else s.dev.completion
  }

  predicate Message(s: State, l: Label, t: State) {
    && t.dev.completion == Completing(s, l)
    && t.dev.oldLog == (if l.MsgLog? && s.dev.inFlight != 0 then s.dev.log
                        else s.dev.oldLog && !(Ends(s, l) && s.dev.completion.DropOldLog?))
    && t.dev.keepFd == (if l.MsgRingFd? then l.hadFd
                        else s.dev.keepFd && !(Ends(s, l) && s.dev.completion.CloseKeptFd?))
    && t.maps.oldMm == (if l.MsgTable? then (if s.dev.inFlight == 0 then 0 else s.maps.mm)
                        else if Ends(s, l) && s.dev.completion.DropOldMap? then 0 else s.maps.oldMm)
    && var log, mm := l.MsgLog? || s.dev.log, if l.MsgTable? then |s.maps.refs| else s.maps.mm;
       && (t.dev.log ==> log) && (t.maps.mm == mm || t.maps.mm == 0)
       && (t.dev.connOpen ==> t.dev.log == log && t.maps.mm == mm)
  }

  lemma KeptMessage(s: State, l: Label, t: State)
    requires Kept(s, t) && Completing(s, l) == s.dev.completion && !Ends(s, l)
    requires !l.MsgLog? && !l.MsgRingFd? && !l.MsgTable?
    ensures Message(s, l, t)
  {}

  lemma MarkedMessage(a: State, ok: bool)
    ensures var t, last := MarkMsgHandled(a, ok), a.dev.handling <= 1;
            && t.dev.completion == (if last then NoCompletion else a.dev.completion)
            && t.dev.oldLog == (a.dev.oldLog && !(last && a.dev.completion.DropOldLog?))
            && t.dev.keepFd == (a.dev.keepFd && !(last && a.dev.completion.CloseKeptFd?))
            && t.maps.oldMm == (if last && a.dev.completion.DropOldMap? then 0 else a.maps.oldMm)
            && t.dev.log == a.dev.log && t.maps.mm == a.maps.mm && t.dev.connOpen == a.dev.connOpen
  {
    hide Bump;
  }

  lemma MsgHandledMessage(s: State, ok: bool)
    requires Enabled(s, CtlBhRun(ok)) && s.batch[0].MsgHandled?
    ensures Message(s, CtlBhRun(ok), Apply(s, CtlBhRun(ok)))
  {
    hide Shape, Apply, MarkMsgHandled, Disconnect, Kept;
    ApplyRuns(s, ok);
    var a := s.(batch := s.batch[1..]);
    MarkedMessage(a, ok);
    DropMessage(MarkMsgHandled(a, ok), Finish);
  }

  lemma DropMessage(s: State, after: After)
    ensures var t := Disconnect(s, after);
            && t.dev.completion == s.dev.completion && t.dev.oldLog == s.dev.oldLog && t.dev.keepFd == s.dev.keepFd
            && t.maps == s.maps && t.dev.log == s.dev.log && t.dev.connOpen == s.dev.connOpen
  {}

  lemma StartFailedMessage(s: State, ok: bool)
    requires Enabled(s, CtlBhRun(ok)) && s.batch[0].StartFailed?
    ensures Message(s, CtlBhRun(ok), Apply(s, CtlBhRun(ok)))
  {
    hide Shape, Apply, RunStartFailed, Kept;
    ApplyRuns(s, ok);
    FailedMessage(s.(batch := s.batch[1..]), s.batch[0].i, ok);
  }

  lemma FailedMessage(a: State, i: nat, ok: bool)
    requires i < |a.rings|
    ensures var t := RunStartFailed(a, i, ok);
            && t.dev.completion == (if a.dev.handling <= 1 then NoCompletion else JustAck)
            && t.dev.oldLog == a.dev.oldLog && t.dev.keepFd == a.dev.keepFd && t.maps.oldMm == a.maps.oldMm
            && (t.dev.log ==> a.dev.log) && (t.maps.mm == a.maps.mm || t.maps.mm == 0)
            && (t.dev.connOpen ==> t.dev.log == a.dev.log && t.maps.mm == a.maps.mm)
  {
    hide MarkMsgHandled, FailTail, Disconnect;
    var c := a.(dev := a.dev.(completion := JustAck));
    MarkedMessage(c, ok);
    HandledIs(c, ok);
    DropMessage(MarkMsgHandled(c, ok), FailedTail(i));
    TailKept(MarkMsgHandled(c, ok), i);
  }

  lemma AckMessage(s: State, ok: bool)
    requires Enabled(s, CtlBhRun(ok)) && (s.batch[0].Stopped? || s.batch[0].Drained?)
    ensures Message(s, CtlBhRun(ok), Apply(s, CtlBhRun(ok)))
  {
    hide Shape, Apply, MarkStopped, DrainFront, DrainBack, Disconnect, Message, MarkMsgHandled;
    ApplyRuns(s, ok);
    var a, i := s.(batch := s.batch[1..]), s.batch[0].i;
    StopKept(a, i);
    FrontKept(a, i, ok);
    var b := DrainFront(a, i, ok);
    BackKept(b, i);
    DropKept(b, DrainTail(i));
    KeptMessage(s, CtlBhRun(ok), Apply(s, CtlBhRun(ok)));
  }

  lemma WorkKept(a: State)
    ensures Kept(a, RunStopWork(a))
  {
    hide MaybeFinished, Disconnect, Kept;
    var b := a.(dev := a.dev.(listening := false, listenAttached := false, work := true));
    assert Kept(a, b) by { SameKept(a, b); }
    DropKept(b, Finish);
    FinishKept(b);
    KeptOn(a, b, RunStopWork(a));
  }

  lemma SameKept(s: State, t: State)
    requires t.dev.completion == s.dev.completion && t.dev.oldLog == s.dev.oldLog && t.dev.keepFd == s.dev.keepFd
    requires t.dev.log == s.dev.log && t.dev.connOpen == s.dev.connOpen
    requires t.maps.mm == s.maps.mm && t.maps.oldMm == s.maps.oldMm
    ensures Kept(s, t)
  {}

  lemma WorkMessage(s: State, ok: bool)
    requires Enabled(s, CtlBhRun(ok)) && s.batch[0].StopWork?
    ensures Message(s, CtlBhRun(ok), Apply(s, CtlBhRun(ok)))
  {
    hide Shape, Apply, RunStopWork, Message;
    ApplyRuns(s, ok);
    WorkKept(s.(batch := s.batch[1..]));
    KeptMessage(s, CtlBhRun(ok), Apply(s, CtlBhRun(ok)));
  }

  lemma EndKept(s: State)
    requires s.pc.Disconnecting? && (s.pc.after.Finish? || s.pc.after.i < |s.rings|)
    ensures Kept(s, DisconnectEnd(s))
  {
    hide MaybeFinished, FailTail, DrainBack, Kept;
    var b := s.(pc := CtlIdle);
    var a := MaybeFinished(b);
    assert Kept(s, b) by { SameKept(s, b); }
    FinishKept(b);
    FinishSweeps(b);
    KeptOn(s, b, a);
    match s.pc.after
    case Finish =>
    case FailedTail(i) => TailKept(a, i); KeptOn(s, a, FailTail(a, i));
    case DrainTail(i) => BackKept(a, i); KeptOn(s, a, DrainBack(a, i));
  }

  lemma StepMessage(s: State)
    requires Enabled(s, CtlStep)
    ensures Message(s, CtlStep, Apply(s, CtlStep))
  {
    hide Shape, DisconnectEnd, PostedRq, Homed, CtlRun, Message;
    var t := Apply(s, CtlStep);
    assert Kept(s, t) by {
      if s.pc.Disconnecting? && !At(s, s.pc.k) { EndKept(s); } else { SameKept(s, t); }
    }
    KeptMessage(s, CtlStep, t);
  }

  lemma RqMessage(s: State, l: Label)
    requires Enabled(s, l) && (l.RqBhRun? || l.RqBhStep?)
    ensures Message(s, l, Apply(s, l))
  {
    hide Shape, CtlRun, Step, SetKick, NewTable, NewLog, Defer, DeferOne, Dropped, RemovedAt, Empty, WithPc, PoppedRq,
         Message, Cancelled, FetchReq, CompleteReq, PostRq, Disconnect;
    SameKept(s, Apply(s, l));
    KeptMessage(s, l, Apply(s, l));
  }

  lemma OtherMessage(s: State, l: Label)
    requires Enabled(s, l) && !l.RqBhStep? && (l.MsgBase? || l.MsgBad? || Aside(l))
    ensures Message(s, l, Apply(s, l))
  {
    hide Shape, CtlRun, Step, SetKick, NewTable, NewLog, Defer, DeferOne, PostedRq, Bump, RemovedAt, Empty, RqRun,
         RqStep, Message;
    SameKept(s, Apply(s, l));
    KeptMessage(s, l, Apply(s, l));
  }

  lemma RingMessage(s: State, l: Label)
    requires Enabled(s, l) && (l.MsgRingFd? || l.MsgRingAttr? || l.MsgKick?)
    ensures Message(s, l, Apply(s, l))
  {
    hide Shape, CtlRun, Step, RqRun, RqStep, PostedRq, Kicked, FetchReq, CompleteReq, NewTable, NewLog, Defer,
         Disconnect;
  }

  lemma TableMessage(s: State)
    ensures var t := NewTable(s);
            && t.dev.completion == (if s.dev.inFlight == 0 then s.dev.completion else DropOldMap)
            && t.dev.oldLog == s.dev.oldLog && t.dev.keepFd == s.dev.keepFd && t.dev.log == s.dev.log
            && t.maps.mm == |s.maps.refs| && t.maps.oldMm == (if s.dev.inFlight == 0 then 0 else s.maps.mm)
  {
    hide Bump;
  }

  lemma LogMessage(s: State)
    ensures var t, d := NewLog(s), s.dev;
            && t.dev.completion == (if d.inFlight == 0 then d.completion else DropOldLog)
            && t.dev.oldLog == (if d.inFlight == 0 then d.oldLog else d.log) && t.dev.keepFd == d.keepFd
            && t.dev.log && t.maps == s.maps
  {}

  lemma RingsMessage(s: State, l: Label)
    requires Enabled(s, l) && (l.MsgTable? || l.MsgLog? || l.MsgFeatures?)
    ensures Message(s, l, Apply(s, l))
  {
    hide Shape, CtlRun, Step, RqRun, RqStep, PostRq, SetKick, FetchReq, CompleteReq, DeferOne, Disconnect, NewTable,
         NewLog;
    TableMessage(s);
    LogMessage(s);
  }

  lemma AcceptMessage(s: State)
    requires Enabled(s, Accept)
    ensures Message(s, Accept, Apply(s, Accept))
  {
    hide Shape, CtlRun, Step, RqRun, RqStep, PostRq, SetKick, FetchReq, CompleteReq, DeferOne, Disconnect, NewTable,
         NewLog, Defer;
  }

  /**
   * What finishes a deferred message is fixed by the message and forgotten once the last ring has
   * handled it; what it replaced (the old map, the old log, a ring's old descriptor) is kept until
   * exactly then, and not at all when no ring is in flight; the new map and log are in force at once
   * and until the clean-up of the session.
   */
  lemma MessageMoves(s: State, l: Label)
    requires Enabled(s, l)
    ensures Message(s, l, Apply(s, l))
  {
    hide Apply, Message;
    if l.CtlBhRun? {
      match s.batch[0]
      case MsgHandled(_) => MsgHandledMessage(s, l.ok);
      case StartFailed(_) => StartFailedMessage(s, l.ok);
      case StopWork => WorkMessage(s, l.ok);
      case _ => AckMessage(s, l.ok);
    } else if l.CtlStep? {
      StepMessage(s);
    } else if l.MsgRingFd? || l.MsgRingAttr? || l.MsgKick? {
      RingMessage(s, l);
    } else if l.MsgTable? || l.MsgLog? || l.MsgFeatures? {
      RingsMessage(s, l);
    } else if l.Accept? {
      AcceptMessage(s);
    } else if l.RqBhRun? || l.RqBhStep? {
      RqMessage(s, l);
    } else {
      OtherMessage(s, l);
    }
  }
}
