/**
 * The life of a device and its vrings across the control loop and the request queue loops.
 *
 * Each loop runs bottom halves in batches: what is posted goes on the front of `pending`, a batch
 * is stolen as a whole and run to its end, and only then are file descriptor events handled.
 * Loops interleave at every post.
 */
module Lifecycle {
  import opened Sequences
  import opened Sums

  // ----- data

  datatype CtlBh = MsgHandled(i: nat) | Stopped(i: nat) | Drained(i: nat) | StartFailed(i: nat) | StopWork

  datatype RqBh = Start(i: nat) | Stop(i: nat) | Sync(i: nat)

  /**
   * A vring.  `queued` and `busy` hold, for each of its requests waiting for the backend or in it,
   * the memory map the request was fetched under.  `kicks`, `stops` and `drains` count accepted
   * starts and the acknowledgements of stop and drain that have run.
   */
  datatype Ring = Ring(
    startedCtl: bool,
    disconnecting: bool,
    startedRq: bool,
    kickOpen: bool,
    onDrain: bool,
    inited: bool,
    mm: nat,
    queued: seq<int>,
    busy: seq<int>,
    kicks: nat,
    stops: nat,
    drains: nat)

  /** Between two accesses of one bottom half a request queue loop is in the middle of it. */
  datatype RqPc = RqIdle | StartChecked(i: nat) | StopPosted(i: nat)

  datatype Rq = Rq(pending: seq<RqBh>, batch: seq<RqBh>, pc: RqPc)

  /** What is to be done once every ring has handled the current message. */
  datatype Completion = NoCompletion | DropOldMap | DropOldLog | CloseKeptFd | JustAck

  /** What remains of the handler in whose middle a disconnect started. */
  datatype After = Finish | FailedTail(i: nat) | DrainTail(i: nat)

  datatype CtlPc = CtlIdle | Disconnecting(k: nat, after: After) | Syncing(k: nat)

  /**
   * The device's flags and counters.  `replyFailed` records that an asynchronous reply could not be
   * sent, `stopAsked` that the user called the stop function, which it may do once, and `aborted`
   * that a clean-up found a message unfinished and ended the process.
   */
  datatype Dev = Dev(
    conn: bool,
    connAttached: bool,
    connOpen: bool,
    listening: bool,
    listenAttached: bool,
    handling: nat,
    started: nat,
    inFlight: nat,
    completion: Completion,
    log: bool,
    oldLog: bool,
    keepFd: bool,
    req: bool,
    replyFailed: bool,
    stopAsked: bool,
    work: bool,
    released: bool,
    aborted: bool)

  /**
   * The device's current and superseded memory maps, 0 for none, and the reference count of every
   * map made; maps are numbered from 1.
   */
  datatype Maps = Maps(mm: nat, oldMm: nat, refs: seq<int>)

  /** `crashed` records that a message handler dereferenced the missing memory map. */
  datatype State = State(
    rings: seq<Ring>,
    home: seq<int>,
    rqs: seq<Rq>,
    pending: seq<CtlBh>,
    batch: seq<CtlBh>,
    pc: CtlPc,
    dev: Dev,
    maps: Maps,
    crashed: bool)

  predicate Fresh(r: Ring) {
    && !r.startedCtl && !r.disconnecting && !r.startedRq && !r.kickOpen && !r.onDrain && !r.inited
    && Empty(r) && r.kicks == 0 && r.stops == 0 && r.drains == 0
  }

  /** Listening for a first client. */
  predicate Unconnected(d: Dev) {
    && !d.conn && !d.connAttached && !d.connOpen && d.listening && d.listenAttached
    && d.handling == 0 && d.started == 0 && d.inFlight == 0 && d.completion == NoCompletion
    && !d.log && !d.oldLog && !d.keepFd && !d.req && !d.replyFailed && !d.stopAsked && !d.work && !d.released
    && !d.aborted
  }

  /** Every ring has its request queue for good. */
  ghost predicate Homed(home: seq<int>, n: nat) {
    forall i :: 0 <= i < |home| ==> 0 <= home[i] < n
  }

  ghost predicate Shape(s: State) {
    |s.home| == |s.rings| && Homed(s.home, |s.rqs|)
  }

  ghost predicate Init(s: State) {
    && (forall i :: 0 <= i < |s.rings| ==> Fresh(s.rings[i]))
    && Shape(s)
    && (forall r :: 0 <= r < |s.rqs| ==> s.rqs[r].pending == [] && s.rqs[r].batch == [] && s.rqs[r].pc.RqIdle?)
    && s.pending == [] && s.batch == [] && s.pc.CtlIdle?
    && Unconnected(s.dev)
    && s.maps.mm == 0 && s.maps.oldMm == 0 && s.maps.refs == [0] && !s.crashed
  }

  predicate At(s: State, i: nat) {
    i < |s.rings| && i < |s.home| && 0 <= s.home[i] < |s.rqs|
  }

  function Dec(x: nat): nat {
    if x == 0 then 0 else x - 1
  }

  /** Count one map reference up or down; no map has no count. */
  function Bump(refs: seq<int>, m: int, n: int): seq<int> {
    if 0 < m < |refs| then refs[m := refs[m] + n] else refs
  }

  /** Drop the references of a list of requests. */
  function Dropped(refs: seq<int>, ms: seq<int>): seq<int> {
    seq(|refs|, k requires 0 <= k < |refs| => refs[k] - Occ<int>(ms, k))
  }

  // ----- posting

  function PostCtl(s: State, bh: CtlBh): State {
    s.(pending := [bh] + s.pending)
  }

  function PostedRq(rqs: seq<Rq>, r: nat, bh: RqBh): seq<Rq>
    requires r < |rqs|
  {
    rqs[r := rqs[r].(pending := [bh] + rqs[r].pending)]
  }

  function PostRq(s: State, bh: RqBh): State
    requires At(s, bh.i)
  {
    s.(rqs := PostedRq(s.rqs, s.home[bh.i], bh))
  }

  function SetRing(s: State, i: nat, ring: Ring): State
    requires i < |s.rings|
  {
    s.(rings := s.rings[i := ring])
  }

  // ----- control loop pieces

  predicate InUse(d: Dev) {
    d.inFlight != 0 || d.handling != 0 || d.started != 0 || d.conn
  }

  function ResetRing(ring: Ring): Ring {
    ring.(kickOpen := false, disconnecting := false)
  }

  function ResetRings(rings: seq<Ring>): seq<Ring> {
    seq(|rings|, i requires 0 <= i < |rings| => ResetRing(rings[i]))
  }

  /** Clean up, then release the device or listen again. */
  function Cleanup(s: State): State {
    s.(rings := ResetRings(s.rings),
       maps := Maps(0, s.maps.oldMm, Bump(s.maps.refs, s.maps.mm, -1)),
       dev := s.dev.(log := false, connOpen := false, released := !s.dev.listening, listenAttached := s.dev.listening,
                       aborted := s.dev.req))
  }

  /** The stop work completes when the last ring acknowledged its stop. */
  function WorkDone(d: Dev): Dev {
    d.(work := d.work && (d.started != 0 || d.listening))
  }

  function MaybeFinished(s: State): State {
    var a := s.(dev := WorkDone(s.dev));
    if InUse(a.dev) then a else Cleanup(a)
  }

  /** A reply, if one is due, after the message was deferred; one that cannot be sent never finishes it. */
  function Reply(d: Dev, due: bool, ok: bool): Dev {
    d.(req := d.req && !(due && ok),
       connAttached := (due && ok && d.conn) || (!(due && ok) && d.connAttached),
       replyFailed := d.replyFailed || (due && !ok))
  }

  /** Drop the connection; `after` is done once every ring has been told to stop. */
  function Disconnect(s: State, after: After): State {
    s.(dev := s.dev.(conn := false, connAttached := false), pc := Disconnecting(0, after))
  }

  /** The last ring to handle a message completes it. */
  function HandledDev(d: Dev, ok: bool): Dev {
    var last := d.handling <= 1;
    Reply(d.(handling := Dec(d.handling),
             oldLog := d.oldLog && !(last && d.completion.DropOldLog?),
             keepFd := d.keepFd && !(last && d.completion.CloseKeptFd?),
             completion := if last then NoCompletion else d.completion), last, ok)
  }

  function HandledMaps(m: Maps, d: Dev): Maps {
    if d.handling <= 1 && d.completion.DropOldMap? then Maps(m.mm, 0, Bump(m.refs, m.oldMm, -1)) else m
  }

  function MarkMsgHandled(s: State, ok: bool): State {
    s.(dev := HandledDev(s.dev, ok), maps := HandledMaps(s.maps, s.dev))
  }

  function AckStop(ring: Ring): Ring {
    ring.(kickOpen := false, stops := ring.stops + 1)
  }

  function MarkStopped(s: State, i: nat): State
    requires i < |s.rings|
  {
    MaybeFinished(SetRing(s, i, AckStop(s.rings[i])).(dev := s.dev.(started := Dec(s.dev.started))))
  }

  function AckDrain(ring: Ring): Ring {
    ring.(startedCtl := false, onDrain := false, drains := ring.drains + 1)
  }

  /** The first half of vring_mark_drained: no longer started, and the reply if one waits for it. */
  function DrainFront(s: State, i: nat, ok: bool): State
    requires i < |s.rings|
  {
    SetRing(s, i, AckDrain(s.rings[i])).(dev := Reply(s.dev, s.rings[i].onDrain, ok))
  }

  /** Its second half. */
  function DrainBack(s: State, i: nat): State
    requires i < |s.rings|
  {
    MaybeFinished(SetRing(s, i, s.rings[i].(inited := false)).(dev := s.dev.(inFlight := Dec(s.dev.inFlight))))
  }

  /** The rest of vring_start_failed_bh once the message is handled. */
  function FailTail(s: State, i: nat): State
    requires i < |s.rings|
  {
    DrainBack(DrainFront(MarkStopped(s, i), i, true), i)
  }

  // ----- control loop steps

  predicate CtlFits(bh: CtlBh, n: nat) {
    bh.StopWork? || bh.i < n
  }

  function RunMsgHandled(a: State, ok: bool): State {
    var b := MarkMsgHandled(a, ok);
    if b.dev.handling == 0 && !ok && b.dev.conn then Disconnect(b, Finish) else b
  }

  function RunDrained(a: State, i: nat, ok: bool): State
    requires i < |a.rings|
  {
    var b := DrainFront(a, i, ok);
    if a.rings[i].onDrain && !ok && b.dev.conn then Disconnect(b, DrainTail(i)) else DrainBack(b, i)
  }

  function RunStartFailed(a: State, i: nat, ok: bool): State
    requires i < |a.rings|
  {
    var b := MarkMsgHandled(a.(dev := a.dev.(completion := JustAck)), ok);
    if b.dev.handling == 0 && !ok && b.dev.conn then Disconnect(b, FailedTail(i)) else FailTail(b, i)
  }

  function RunStopWork(a: State): State {
    var b := a.(dev := a.dev.(listening := false, listenAttached := false, work := true));
    if b.dev.conn then Disconnect(b, Finish) else MaybeFinished(b)
  }

  /** Run the next bottom half of the batch; `ok` says whether a reply it sends gets through. */
  function CtlRun(s: State, ok: bool): State
    requires s.batch != [] && CtlFits(s.batch[0], |s.rings|)
  {
    var a := s.(batch := s.batch[1..]);
    match s.batch[0]
    case MsgHandled(_) => RunMsgHandled(a, ok)
    case Stopped(i) => MarkStopped(a, i)
    case Drained(i) => RunDrained(a, i, ok)
    case StartFailed(i) => RunStartFailed(a, i, ok)
    case StopWork => RunStopWork(a)
  }

  /** Tell one more ring to stop. */
  function DisconnectRing(s: State, k: nat): State
    requires At(s, k) && s.pc.Disconnecting?
  {
    var tell := s.rings[k].startedCtl;
    s.(pc := Disconnecting(k + 1, s.pc.after),
       rings := if tell then s.rings[k := s.rings[k].(disconnecting := true)] else s.rings,
       rqs := if tell then PostedRq(s.rqs, s.home[k], Stop(k)) else s.rqs)
  }

  /** All rings told: vdev_disconnect ends, and with it the handler it started in. */
  function DisconnectEnd(s: State): State
    requires s.pc.Disconnecting? && (s.pc.after.Finish? || s.pc.after.i < |s.rings|)
  {
    var a := MaybeFinished(s.(pc := CtlIdle));
    match s.pc.after
    case Finish => a
    case FailedTail(i) => FailTail(a, i)
    case DrainTail(i) => DrainBack(a, i)
  }

  /** Hand the message to one more ring if it is started. */
  function SyncRing(s: State, k: nat): State
    requires At(s, k)
  {
    var tell := s.rings[k].startedCtl;
    s.(pc := if k + 1 == |s.rings| then CtlIdle else Syncing(k + 1),
       dev := s.dev.(handling := s.dev.handling + One(tell)),
       rqs := if tell then PostedRq(s.rqs, s.home[k], Sync(k)) else s.rqs)
  }

  function Deferred(d: Dev, completion: Completion): Dev {
    d.(completion := completion, req := true, connAttached := false)
  }

  /** A message all started rings must handle before it is finished. */
  function Defer(s: State, completion: Completion): State {
    s.(dev := Deferred(s.dev, completion), pc := Syncing(0))
  }

  /** A message one started ring must handle before it is finished. */
  function DeferOne(s: State, bh: RqBh, completion: Completion): State
    requires At(s, bh.i)
  {
    PostRq(s.(dev := Deferred(s.dev, completion).(handling := s.dev.handling + 1)), bh)
  }

  function Kicked(ring: Ring, m: nat): Ring {
    ring.(kickOpen := true, inited := true, startedCtl := true, mm := m, kicks := ring.kicks + 1)
  }

  /** Starting a ring translates its addresses, which takes a memory map. */
  function SetKick(s: State, i: nat): State
    requires At(s, i)
  {
    if s.maps.mm == 0 then s.(crashed := true) else StartKick(s, i)
  }

  function StartKick(s: State, i: nat): State
    requires At(s, i)
  {
    var a := SetRing(s, i, Kicked(s.rings[i], s.maps.mm));
    DeferOne(a.(dev := s.dev.(started := s.dev.started + 1, inFlight := s.dev.inFlight + 1)), Start(i), JustAck)
  }

  /** A new map takes the place of the current one, which goes once no running ring can use it. */
  function NewTable(s: State): State {
    var m, refs := |s.maps.refs|, s.maps.refs + [1];
    if s.dev.inFlight == 0 then s.(maps := Maps(m, 0, Bump(refs, s.maps.mm, -1)))
    else Defer(s.(maps := Maps(m, s.maps.mm, refs)), DropOldMap)
  }

  function NewLog(s: State): State {
    if s.dev.inFlight == 0 then s.(dev := s.dev.(log := true))
    else Defer(s.(dev := s.dev.(log := true, oldLog := s.dev.log)), DropOldLog)
  }

  // ----- request queue steps

  function PoppedRq(rqs: seq<Rq>, r: nat): seq<Rq>
    requires r < |rqs| && rqs[r].batch != []
  {
    rqs[r := rqs[r].(batch := rqs[r].batch[1..])]
  }

  function WithPc(rqs: seq<Rq>, r: nat, pc: RqPc): seq<Rq>
    requires r < |rqs|
  {
    rqs[r := rqs[r].(pc := pc)]
  }

  /** The next bottom half of a request queue's batch; `ok` says whether the kick handler attaches. */
  function RqRun(s: State, r: nat, ok: bool): State
    requires r < |s.rqs| && s.rqs[r].batch != [] && s.rqs[r].batch[0].i < |s.rings|
  {
    var bh := s.rqs[r].batch[0];
    var a := s.(rqs := PoppedRq(s.rqs, r));
    var i := bh.i;
    match bh
    case Start(_) =>
      if s.rings[i].disconnecting || !ok then PostCtl(a, StartFailed(i))
      else a.(rqs := WithPc(a.rqs, r, StartChecked(i)))
    case Stop(_) => if s.rings[i].startedRq then StopRing(a, r, i) else a
    case Sync(_) => PostCtl(SetRing(a, i, s.rings[i].(mm := s.maps.mm)), MsgHandled(i))
  }

  /** The requests a stop cancels: those the backend has not seen, when the client is gone. */
  function Cancelled(ring: Ring): seq<int> {
    if ring.disconnecting then ring.queued else []
  }

  function StoppedRing(ring: Ring): Ring {
    ring.(startedRq := false, queued := if ring.disconnecting then [] else ring.queued)
  }

  /** Up to the first of the two posts: detach, cancel if disconnecting, acknowledge the stop. */
  function StopRing(s: State, r: nat, i: nat): State
    requires r < |s.rqs| && i < |s.rings|
  {
    var a := SetRing(s, i, StoppedRing(s.rings[i]));
    var refs := Dropped(s.maps.refs, Cancelled(s.rings[i]));
    PostCtl(a.(maps := s.maps.(refs := refs), rqs := WithPc(s.rqs, r, StopPosted(i))), Stopped(i))
  }

  predicate Empty(ring: Ring) {
    ring.queued == [] && ring.busy == []
  }

  /** The rest of the bottom half in whose middle the request queue is. */
  function RqStep(s: State, r: nat): State
    requires r < |s.rqs| && !s.rqs[r].pc.RqIdle? && s.rqs[r].pc.i < |s.rings|
  {
    var i := s.rqs[r].pc.i;
    var a := s.(rqs := WithPc(s.rqs, r, RqIdle));
    match s.rqs[r].pc
    case StartChecked(_) => PostCtl(SetRing(a, i, s.rings[i].(startedRq := true, mm := s.maps.mm)), MsgHandled(i))
    case StopPosted(_) => if Empty(s.rings[i]) then PostCtl(a, Drained(i)) else a
  }

  function FetchedRing(ring: Ring): Ring {
    ring.(queued := ring.queued + [ring.mm])
  }

  /** A fetched request takes a reference on the map of its ring. */
  function FetchReq(s: State, i: nat): State
    requires i < |s.rings|
  {
    SetRing(s, i, FetchedRing(s.rings[i])).(maps := s.maps.(refs := Bump(s.maps.refs, s.rings[i].mm, 1)))
  }

  /** The backend takes the oldest waiting request. */
  function SubmittedRing(ring: Ring): Ring
    requires ring.queued != []
  {
    ring.(queued := ring.queued[1..], busy := ring.busy + [ring.queued[0]])
  }

  function CompletedRing(ring: Ring, k: nat): Ring
    requires k < |ring.busy|
  {
    ring.(busy := RemovedAt(ring.busy, k))
  }

  function CompleteReq(s: State, i: nat, k: nat): State
    requires i < |s.rings| && k < |s.rings[i].busy|
  {
    var ring := CompletedRing(s.rings[i], k);
    var a := SetRing(s, i, ring).(maps := s.maps.(refs := Bump(s.maps.refs, s.rings[i].busy[k], -1)));
    if Empty(ring) && !ring.startedRq then PostCtl(a, Drained(i)) else a
  }

  // ----- labels

  datatype Label =
    | CtlSteal
    | CtlBhRun(ok: bool)
    | CtlStep
    | Accept
    | MsgDone
    | MsgBad
    | MsgKick(i: nat)
    | MsgBase(i: nat)
    | MsgTable
    | MsgLog
    | MsgFeatures
    | MsgRingFd(i: nat, hadFd: bool)
    | MsgRingAttr(i: nat)
    | AskStop
    | RqSteal(r: nat)
    | RqBhRun(r: nat, ok: bool)
    | RqBhStep(r: nat)
    | Fetch(i: nat)
    | Submit(i: nat)
    | Finished(i: nat, k: nat)

  /** The control loop handles file descriptor events only between batches. */
  predicate CtlQuiet(s: State) {
    s.pc.CtlIdle? && s.batch == []
  }

  predicate CanRead(s: State) {
    CtlQuiet(s) && s.dev.connAttached
  }

  /** A request queue handles file descriptor events, and its user dequeues, only between batches. */
  predicate RqQuiet(s: State, i: nat)
    requires At(s, i)
  {
    s.rqs[s.home[i]].pc.RqIdle? && s.rqs[s.home[i]].batch == []
  }

  /** Premise on the user: one stop call. */
  ghost predicate Enabled(s: State, l: Label) {
    Shape(s) && !s.dev.aborted && !s.crashed &&
    match l
    case CtlSteal => s.pc.CtlIdle? && s.batch == []
    case CtlBhRun(_) => s.pc.CtlIdle? && s.batch != [] && CtlFits(s.batch[0], |s.rings|)
    case CtlStep =>
      || (s.pc.Syncing? && At(s, s.pc.k))
      || (s.pc.Disconnecting? && (s.pc.after.Finish? || s.pc.after.i < |s.rings|))
    case Accept => CtlQuiet(s) && s.dev.listenAttached
    case MsgDone => CanRead(s)
    case MsgBad => CanRead(s)
    case MsgKick(i) => CanRead(s) && At(s, i) && !s.rings[i].startedCtl
    case MsgBase(i) => CanRead(s) && At(s, i) && s.rings[i].startedCtl
    case MsgTable => CanRead(s)
    case MsgLog => CanRead(s)
    case MsgFeatures => CanRead(s) && s.dev.inFlight != 0
    case MsgRingFd(i, _) => CanRead(s) && At(s, i) && s.rings[i].startedCtl
    case MsgRingAttr(i) => CanRead(s) && At(s, i) && s.rings[i].startedCtl
    case AskStop => !s.dev.stopAsked
    case RqSteal(r) => r < |s.rqs| && s.rqs[r].pc.RqIdle? && s.rqs[r].batch == []
    case RqBhRun(r, _) => r < |s.rqs| && s.rqs[r].pc.RqIdle? && s.rqs[r].batch != [] && s.rqs[r].batch[0].i < |s.rings|
    case RqBhStep(r) => r < |s.rqs| && !s.rqs[r].pc.RqIdle? && s.rqs[r].pc.i < |s.rings|
    case Fetch(i) => At(s, i) && RqQuiet(s, i) && s.rings[i].startedRq
    case Submit(i) => At(s, i) && RqQuiet(s, i) && s.rings[i].queued != []
    case Finished(i, k) => At(s, i) && s.rqs[s.home[i]].pc.RqIdle? && k < |s.rings[i].busy|
  }

  function Step(s: State): State
    requires (s.pc.Syncing? && At(s, s.pc.k)) ||
             (s.pc.Disconnecting? && (s.pc.after.Finish? || s.pc.after.i < |s.rings|))
  {
    if s.pc.Syncing? then SyncRing(s, s.pc.k)
    else if At(s, s.pc.k) then DisconnectRing(s, s.pc.k) else DisconnectEnd(s)
  }

  ghost function Apply(s: State, l: Label): State
    requires Enabled(s, l)
  {
    match l
    case CtlSteal => s.(batch := s.pending, pending := [])
    case CtlBhRun(ok) => CtlRun(s, ok)
    case CtlStep => Step(s)
    case Accept => s.(dev := s.dev.(conn := true, connAttached := true, connOpen := true, listenAttached := false))
    case MsgDone => s
    case MsgBad => Disconnect(s, Finish)
    case MsgKick(i) => SetKick(s, i)
    case MsgBase(i) =>
      var a := SetRing(s, i, s.rings[i].(onDrain := true));
      PostRq(a.(dev := s.dev.(req := true, connAttached := false)), Stop(i))
    case MsgTable => NewTable(s)
    case MsgLog => NewLog(s)
    case MsgFeatures => Defer(s, JustAck)
    case MsgRingFd(i, hadFd) => DeferOne(s.(dev := s.dev.(keepFd := hadFd)), Sync(i), CloseKeptFd)
    case MsgRingAttr(i) => DeferOne(s, Sync(i), JustAck)
    case AskStop => PostCtl(s.(dev := s.dev.(stopAsked := true)), StopWork)
    case RqSteal(r) => s.(rqs := s.rqs[r := s.rqs[r].(batch := s.rqs[r].pending, pending := [])])
    case RqBhRun(r, ok) => RqRun(s, r, ok)
    case RqBhStep(r) => RqStep(s, r)
    case Fetch(i) => FetchReq(s, i)
    case Submit(i) => SetRing(s, i, SubmittedRing(s.rings[i]))
    case Finished(i, k) => CompleteReq(s, i, k)
  }

  // ----- what is outstanding for one ring

  /**
   * How many bottom halves of each kind are outstanding for one ring.  Stop and drain
   * acknowledgements still to be stolen (`P`) are told from those in the running batch (`B`).
   * `mid` is 1 between the two posts of a stop.
   */
  datatype Bag = Bag(todo: Todo, done: Done, mid: nat)

  /** Bottom halves that will end in the message being handled. */
  datatype Todo = Todo(starts: nat, syncs: nat, acks: nat, fails: nat)

  /** Acknowledgements of stop and drain. */
  datatype Done = Done(stopP: nat, stopB: nat, drainP: nat, drainB: nat)

  function BagOf(pending: seq<CtlBh>, batch: seq<CtlBh>, q: Rq, i: nat): Bag {
    Bag(Todo(Occ(q.pending, Start(i)) + Occ(q.batch, Start(i)) + (if q.pc == StartChecked(i) then 1 else 0),
             Occ(q.pending, Sync(i)) + Occ(q.batch, Sync(i)),
             Occ(pending, MsgHandled(i)) + Occ(batch, MsgHandled(i)),
             Occ(pending, StartFailed(i)) + Occ(batch, StartFailed(i))),
        Done(Occ(pending, Stopped(i)), Occ(batch, Stopped(i)), Occ(pending, Drained(i)), Occ(batch, Drained(i))),
        if q.pc == StopPosted(i) then 1 else 0)
  }

  ghost function BagsOf(pending: seq<CtlBh>, batch: seq<CtlBh>, home: seq<int>, rqs: seq<Rq>): (r: seq<Bag>)
    requires Homed(home, |rqs|)
    ensures |r| == |home|
  {
    seq(|home|, i requires 0 <= i < |home| => BagOf(pending, batch, rqs[home[i]], i))
  }

  ghost function Bags(s: State): (r: seq<Bag>)
    requires Shape(s)
    ensures |r| == |s.rings|
  {
    BagsOf(s.pending, s.batch, s.home, s.rqs)
  }

  function AddCtl(b: Bag, bh: CtlBh): Bag {
    match bh
    case MsgHandled(_) => b.(todo := b.todo.(acks := b.todo.acks + 1))
    case StartFailed(_) => b.(todo := b.todo.(fails := b.todo.fails + 1))
    case Stopped(_) => b.(done := b.done.(stopP := b.done.stopP + 1))
    case Drained(_) => b.(done := b.done.(drainP := b.done.drainP + 1))
    case StopWork => b
  }

  function SubCtl(b: Bag, bh: CtlBh): Bag {
    match bh
    case MsgHandled(_) => b.(todo := b.todo.(acks := Dec(b.todo.acks)))
    case StartFailed(_) => b.(todo := b.todo.(fails := Dec(b.todo.fails)))
    case Stopped(_) => b.(done := b.done.(stopB := Dec(b.done.stopB)))
    case Drained(_) => b.(done := b.done.(drainB := Dec(b.done.drainB)))
    case StopWork => b
  }

  /** What the popped bottom half was counted under. */
  function CountCtl(b: Bag, bh: CtlBh): nat {
    match bh
    case MsgHandled(_) => b.todo.acks
    case StartFailed(_) => b.todo.fails
    case Stopped(_) => b.done.stopB
    case Drained(_) => b.done.drainB
    case StopWork => 1
  }

  function AddRq(b: Bag, bh: RqBh): Bag {
    match bh
    case Start(_) => b.(todo := b.todo.(starts := b.todo.starts + 1))
    case Sync(_) => b.(todo := b.todo.(syncs := b.todo.syncs + 1))
    case Stop(_) => b
  }

  function SubRq(b: Bag, bh: RqBh): Bag {
    match bh
    case Start(_) => b.(todo := b.todo.(starts := Dec(b.todo.starts)))
    case Sync(_) => b.(todo := b.todo.(syncs := Dec(b.todo.syncs)))
    case Stop(_) => b
  }

  function CountRq(b: Bag, bh: RqBh): nat {
    match bh
    case Start(_) => b.todo.starts
    case Sync(_) => b.todo.syncs
    case Stop(_) => 1
  }

  lemma BagsPostCtl(pending: seq<CtlBh>, batch: seq<CtlBh>, home: seq<int>, rqs: seq<Rq>, bh: CtlBh)
    requires Homed(home, |rqs|) && CtlFits(bh, |home|)
    ensures var b := BagsOf(pending, batch, home, rqs);
            BagsOf([bh] + pending, batch, home, rqs) == if bh.StopWork? then b else b[bh.i := AddCtl(b[bh.i], bh)]
  {
    var b, b' := BagsOf(pending, batch, home, rqs), BagsOf([bh] + pending, batch, home, rqs);
    forall j | 0 <= j < |home|
      ensures b'[j] == if !bh.StopWork? && j == bh.i then AddCtl(b[j], bh) else b[j]
    {
      OccCons(pending, bh, MsgHandled(j));
      OccCons(pending, bh, StartFailed(j));
      OccCons(pending, bh, Stopped(j));
      OccCons(pending, bh, Drained(j));
    }
  }

  lemma BagsPopCtl(pending: seq<CtlBh>, batch: seq<CtlBh>, home: seq<int>, rqs: seq<Rq>)
    requires Homed(home, |rqs|) && batch != [] && CtlFits(batch[0], |home|)
    ensures var b, bh := BagsOf(pending, batch, home, rqs), batch[0];
            var b' := BagsOf(pending, batch[1..], home, rqs);
            if bh.StopWork? then b' == b else CountCtl(b[bh.i], bh) >= 1 && b' == b[bh.i := SubCtl(b[bh.i], bh)]
  {
    var b, bh := BagsOf(pending, batch, home, rqs), batch[0];
    var b' := BagsOf(pending, batch[1..], home, rqs);
    assert Occ(batch, bh) >= 1 by { OccTail(batch, bh); }
    forall j | 0 <= j < |home|
      ensures b'[j] == if !bh.StopWork? && j == bh.i then SubCtl(b[j], bh) else b[j]
    {
      OccTail(batch, MsgHandled(j));
      OccTail(batch, StartFailed(j));
      OccTail(batch, Stopped(j));
      OccTail(batch, Drained(j));
    }
  }

  /** A steal turns every waiting acknowledgement into one of the batch. */
  function StolenBag(b: Bag): Bag {
    b.(done := b.done.(stopP := 0, stopB := b.done.stopP, drainP := 0, drainB := b.done.drainP))
  }

  lemma BagsSteal(pending: seq<CtlBh>, home: seq<int>, rqs: seq<Rq>, j: nat)
    requires Homed(home, |rqs|) && j < |home|
    ensures BagsOf([], pending, home, rqs)[j] == StolenBag(BagsOf(pending, [], home, rqs)[j])
  {}

  lemma BagsPostRq(pending: seq<CtlBh>, batch: seq<CtlBh>, home: seq<int>, rqs: seq<Rq>, bh: RqBh)
    requires Homed(home, |rqs|) && bh.i < |home|
    ensures var b, r := BagsOf(pending, batch, home, rqs), home[bh.i];
            BagsOf(pending, batch, home, PostedRq(rqs, r, bh))
            == b[bh.i := AddRq(b[bh.i], bh)]
  {
    var b, r := BagsOf(pending, batch, home, rqs), home[bh.i];
    var rqs' := PostedRq(rqs, r, bh);
    var b' := BagsOf(pending, batch, home, rqs');
    forall j | 0 <= j < |home| ensures b'[j] == if j == bh.i then AddRq(b[j], bh) else b[j] {
      BagPostRq(pending, batch, rqs[r], bh, j);
    }
  }

  lemma BagPostRq(pending: seq<CtlBh>, batch: seq<CtlBh>, q: Rq, bh: RqBh, j: nat)
    ensures var b := BagOf(pending, batch, q, j);
            BagOf(pending, batch, q.(pending := [bh] + q.pending), j) == if j == bh.i then AddRq(b, bh) else b
  {
    OccCons(q.pending, bh, Start(j));
    OccCons(q.pending, bh, Sync(j));
  }

  lemma BagsPopRq(pending: seq<CtlBh>, batch: seq<CtlBh>, home: seq<int>, rqs: seq<Rq>, r: nat)
    requires Homed(home, |rqs|) && r < |rqs| && rqs[r].batch != []
    requires rqs[r].batch[0].i < |home| && home[rqs[r].batch[0].i] == r
    ensures var b, bh := BagsOf(pending, batch, home, rqs), rqs[r].batch[0];
            && CountRq(b[bh.i], bh) >= 1
            && BagsOf(pending, batch, home, PoppedRq(rqs, r)) == b[bh.i := SubRq(b[bh.i], bh)]
  {
    var b, q := BagsOf(pending, batch, home, rqs), rqs[r];
    var bh := q.batch[0];
    var b' := BagsOf(pending, batch, home, PoppedRq(rqs, r));
    assert Occ(q.batch, bh) >= 1 by { OccTail(q.batch, bh); }
    forall j | 0 <= j < |home| ensures b'[j] == if j == bh.i then SubRq(b[j], bh) else b[j] {
      OccTail(q.batch, Start(j));
      OccTail(q.batch, Sync(j));
    }
  }

  lemma BagsStealRq(pending: seq<CtlBh>, batch: seq<CtlBh>, home: seq<int>, rqs: seq<Rq>, r: nat)
    requires Homed(home, |rqs|) && r < |rqs| && rqs[r].batch == []
    ensures BagsOf(pending, batch, home, rqs[r := rqs[r].(batch := rqs[r].pending, pending := [])])
            == BagsOf(pending, batch, home, rqs)
  {
    var b, b' := BagsOf(pending, batch, home, rqs),
                 BagsOf(pending, batch, home, rqs[r := rqs[r].(batch := rqs[r].pending, pending := [])]);
    forall j | 0 <= j < |home| ensures b'[j] == b[j] {}
  }

  function AddPc(b: Bag, pc: RqPc): Bag {
    match pc
    case RqIdle => b
    case StartChecked(_) => b.(todo := b.todo.(starts := b.todo.starts + 1))
    case StopPosted(_) => b.(mid := 1)
  }

  function SubPc(b: Bag, pc: RqPc): Bag {
    match pc
    case RqIdle => b
    case StartChecked(_) => b.(todo := b.todo.(starts := Dec(b.todo.starts)))
    case StopPosted(_) => b.(mid := 0)
  }

  lemma BagsEnterPc(pending: seq<CtlBh>, batch: seq<CtlBh>, home: seq<int>, rqs: seq<Rq>, r: nat, pc: RqPc)
    requires Homed(home, |rqs|) && r < |rqs| && rqs[r].pc.RqIdle? && !pc.RqIdle? && pc.i < |home| && home[pc.i] == r
    ensures var b := BagsOf(pending, batch, home, rqs);
            BagsOf(pending, batch, home, WithPc(rqs, r, pc)) == b[pc.i := AddPc(b[pc.i], pc)]
  {
    hide Occ;
    var b, b' := BagsOf(pending, batch, home, rqs), BagsOf(pending, batch, home, WithPc(rqs, r, pc));
    forall j | 0 <= j < |home| ensures b'[j] == if j == pc.i then AddPc(b[j], pc) else b[j] {}
  }

  lemma BagsLeavePc(pending: seq<CtlBh>, batch: seq<CtlBh>, home: seq<int>, rqs: seq<Rq>, r: nat)
    requires Homed(home, |rqs|) && r < |rqs| && !rqs[r].pc.RqIdle? && rqs[r].pc.i < |home| && home[rqs[r].pc.i] == r
    ensures var b, pc := BagsOf(pending, batch, home, rqs), rqs[r].pc;
            && (if pc.StartChecked? then b[pc.i].todo.starts >= 1 else b[pc.i].mid == 1)
            && BagsOf(pending, batch, home, WithPc(rqs, r, RqIdle)) == b[pc.i := SubPc(b[pc.i], pc)]
  {
    hide Occ;
    var b, pc := BagsOf(pending, batch, home, rqs), rqs[r].pc;
    var b' := BagsOf(pending, batch, home, WithPc(rqs, r, RqIdle));
    forall j | 0 <= j < |home| ensures b'[j] == if j == pc.i then SubPc(b[j], pc) else b[j] {}
  }

  // ----- the invariant

  /** Accepted starts whose stop has not been acknowledged to the control loop. */
  function StopsOwed(r: Ring): int {
    r.kicks - r.stops
  }

  /** Accepted starts whose drain has not been acknowledged to the control loop. */
  function DrainsOwed(r: Ring): int {
    r.kicks - r.drains
  }

  /** Bottom halves that will end in one ring having handled the current message. */
  function Tokens(b: Bag): int {
    b.todo.starts + b.todo.syncs + b.todo.acks + b.todo.fails
  }

  /** Stopped in the dataplane but not ready to acknowledge the drain. */
  predicate Draining(r: Ring, mid: nat) {
    !r.startedRq && (!Empty(r) || mid > 0)
  }

  /** Nothing is outstanding twice. */
  predicate Single(b: Bag) {
    && b.todo.starts <= 1 && b.todo.syncs <= 1 && b.todo.acks <= 1 && b.todo.fails <= 1
    && b.done.stopP <= 1 && b.done.stopB <= 1 && b.done.drainP <= 1 && b.done.drainB <= 1 && b.mid <= 1
  }

  /**
   * Conservation for one ring: what an accepted start owes is in exactly one place.  `ft` and `dt`
   * say that the control loop is in the middle of this ring's failed start or drain.
   */
  ghost predicate RingOk(r: Ring, b: Bag, ft: nat, dt: nat) {
    && StopsOwed(r) == b.todo.starts + b.todo.fails + ft + One(r.startedRq) + b.done.stopP + b.done.stopB
    && DrainsOwed(r) == b.todo.starts + b.todo.fails + ft + One(r.startedRq)
                        + b.done.drainP + b.done.drainB + One(Draining(r, b.mid))
    && StopsOwed(r) <= 1 && DrainsOwed(r) + dt <= 1
    && (r.startedCtl <==> DrainsOwed(r) == 1)
    && (r.kickOpen <==> StopsOwed(r) == 1)
    && (r.inited <==> DrainsOwed(r) + dt == 1)
    && (b.mid > 0 ==> !r.startedRq)
    && (b.done.stopP > 0 ==> DrainsOwed(r) == 1 && b.done.drainB == 0)
    && Tokens(b) <= 1 && Single(b)
    && (r.onDrain ==> r.startedCtl && ft == 0)
  }

  function Ft(pc: CtlPc, i: nat): nat {
    One(pc.Disconnecting? && pc.after == FailedTail(i))
  }

  function Dt(pc: CtlPc, i: nat): nat {
    One(pc.Disconnecting? && pc.after == DrainTail(i))
  }

  ghost predicate RingsInv(rings: seq<Ring>, bags: seq<Bag>, pc: CtlPc) {
    && |rings| == |bags|
    && (forall i :: 0 <= i < |rings| ==> RingOk(rings[i], bags[i], Ft(pc, i), Dt(pc, i)))
  }

  /** The three counters count what they are described to count. */
  ghost predicate CountInv(d: Dev, rings: seq<Ring>, bags: seq<Bag>, pc: CtlPc) {
    && d.handling == Sum(bags, Tokens)
    && d.started == Sum(rings, StopsOwed)
    && d.inFlight == Sum(rings, DrainsOwed) + One(pc.Disconnecting? && pc.after.DrainTail?)
  }

  predicate BeingHandled(d: Dev, pc: CtlPc) {
    d.handling > 0 || pc.Syncing?
  }

  /** One message at a time. */
  ghost predicate MsgInv(d: Dev, oldMm: nat, pc: CtlPc) {
    && (d.completion != NoCompletion <==> BeingHandled(d, pc))
    && (d.connAttached ==> d.conn && !BeingHandled(d, pc) && !d.req)
    && (BeingHandled(d, pc) ==> d.req)
    && (oldMm != 0 ==> d.completion.DropOldMap?)
    && (d.oldLog ==> d.completion.DropOldLog?)
    && (d.keepFd ==> d.completion.CloseKeptFd?)
  }

  /** A reply waiting for a drain is the only message, and a message not being handled waits for one or never ends. */
  ghost predicate WaitInv(d: Dev, rings: seq<Ring>, pc: CtlPc) {
    && (forall i :: 0 <= i < |rings| && rings[i].onDrain ==> d.req && !d.connAttached && !BeingHandled(d, pc))
    && (forall i, j :: 0 <= i < j < |rings| ==> !(rings[i].onDrain && rings[j].onDrain))
    && (d.req && !d.replyFailed && !BeingHandled(d, pc) ==> exists i :: 0 <= i < |rings| && rings[i].onDrain)
    && (d.replyFailed ==> d.req && !BeingHandled(d, pc) && forall i :: 0 <= i < |rings| ==> !rings[i].onDrain)
  }

  /** A start is the only work of its message; a message being passed on has work left to pass. */
  ghost predicate PassInv(d: Dev, rings: seq<Ring>, bags: seq<Bag>, pc: CtlPc)
    requires |bags| == |rings|
  {
    && (forall i :: 0 <= i < |bags| && bags[i].todo.starts + bags[i].todo.fails > 0 ==> d.completion.JustAck?)
    && (pc.Syncing? ==>
          && d.conn
          && (forall i :: pc.k <= i < |bags| ==> Tokens(bags[i]) == 0)
          && (d.handling > 0 || exists i :: pc.k <= i < |rings| && rings[i].startedCtl))
  }

  ghost predicate PcInv(pc: CtlPc, n: nat) {
    match pc
    case CtlIdle => true
    case Disconnecting(k, after) => k <= n && (after.Finish? || after.i < n)
    case Syncing(k) => k < n
  }

  /** Connecting, listening and stopping. */
  ghost predicate SessionInv(d: Dev, pc: CtlPc, stopWorks: nat) {
    && (d.listenAttached ==> d.listening && !d.connOpen && !InUse(d) && pc.CtlIdle?)
    && (d.listening && !d.listenAttached ==> d.connOpen)
    && (d.conn ==> d.connOpen && d.listening)
    && (InUse(d) || !pc.CtlIdle? ==> !d.released)
    && (pc.Disconnecting? ==> !d.conn)
    && (!d.stopAsked ==> d.listening)
    && stopWorks == One(d.stopAsked && d.listening)
    && (d.work ==> !d.listening)
    && (!d.listening && !d.work ==> d.started == 0)
    && (d.released ==> !d.listening)
    && (d.aborted <==> !d.connOpen && d.req)
    && (InUse(d) || !pc.CtlIdle? ==> d.connOpen)
  }

  function StopWorks(s: State): nat {
    Occ(s.pending, StopWork) + Occ(s.batch, StopWork)
  }

  /** References a ring's requests hold on a map. */
  function RefsOf(r: Ring, k: int): nat {
    Occ(r.queued, k) + Occ(r.busy, k)
  }

  function Held(rings: seq<Ring>, k: int): nat {
    if rings == [] then 0 else RefsOf(rings[0], k) + Held(rings[1..], k)
  }

  ghost predicate Named(r: Ring, n: nat) {
    && (forall j :: 0 <= j < |r.queued| ==> 0 < r.queued[j] < n)
    && (forall j :: 0 <= j < |r.busy| ==> 0 < r.busy[j] < n)
  }

  predicate OwesSync(b: Bag, pc: CtlPc, i: nat) {
    b.todo.syncs > 0 || (pc.Syncing? && pc.k <= i)
  }

  /** Reference counts are the references held. */
  ghost predicate RefInv(m: Maps, rings: seq<Ring>) {
    && m.mm < |m.refs| && m.oldMm < |m.refs|
    && (forall k :: 0 < k < |m.refs| ==> m.refs[k] == One(k == m.mm) + One(k == m.oldMm) + Held(rings, k))
    && (forall i :: 0 <= i < |rings| ==> Named(rings[i], |m.refs|))
  }

  /** A running ring uses a map the device holds. */
  ghost predicate MapInv(mm: nat, oldMm: nat, d: Dev, rings: seq<Ring>, bags: seq<Bag>, pc: CtlPc)
    requires |bags| == |rings|
  {
    && (d.inFlight > 0 ==> mm != 0)
    && (forall i :: 0 <= i < |rings| && rings[i].startedRq ==>
          rings[i].mm != 0 && (rings[i].mm == mm || (rings[i].mm == oldMm && OwesSync(bags[i], pc, i))))
  }

  /** Bottom halves name rings, and wait on the request queue of the ring they name. */
  ghost predicate Addressed(pending: seq<CtlBh>, batch: seq<CtlBh>, home: seq<int>, rqs: seq<Rq>) {
    && (forall k :: 0 <= k < |pending| ==> CtlFits(pending[k], |home|))
    && (forall k :: 0 <= k < |batch| ==> CtlFits(batch[k], |home|))
    && (forall r :: 0 <= r < |rqs| ==> RqAddressed(rqs[r], home, r))
  }

  ghost predicate RqAddressed(q: Rq, home: seq<int>, r: nat) {
    && (forall k :: 0 <= k < |q.pending| ==> q.pending[k].i < |home| && home[q.pending[k].i] == r)
    && (forall k :: 0 <= k < |q.batch| ==> q.batch[k].i < |home| && home[q.batch[k].i] == r)
    && (!q.pc.RqIdle? ==> q.pc.i < |home| && home[q.pc.i] == r)
  }

  ghost predicate Parts(s: State) {
    && Shape(s)
    && Addressed(s.pending, s.batch, s.home, s.rqs)
    && PcInv(s.pc, |s.rings|)
    && RingsInv(s.rings, Bags(s), s.pc)
    && CountInv(s.dev, s.rings, Bags(s), s.pc)
    && MsgInv(s.dev, s.maps.oldMm, s.pc)
    && WaitInv(s.dev, s.rings, s.pc)
    && PassInv(s.dev, s.rings, Bags(s), s.pc)
    && SessionInv(s.dev, s.pc, StopWorks(s))
    && RefInv(s.maps, s.rings)
    && MapInv(s.maps.mm, s.maps.oldMm, s.dev, s.rings, Bags(s), s.pc)
  }

  /** The clauses of the invariant, each of which can be used alone. */
  datatype Clause = Lists | Place | Rings | Counts | Messages | Waits | Passes | Session | References | InUseMaps

  ghost predicate Holds(c: Clause, s: State) {
    Shape(s) &&
    match c
    case Lists => Addressed(s.pending, s.batch, s.home, s.rqs)
    case Place => PcInv(s.pc, |s.rings|)
    case Rings => RingsInv(s.rings, Bags(s), s.pc)
    case Counts => CountInv(s.dev, s.rings, Bags(s), s.pc)
    case Messages => MsgInv(s.dev, s.maps.oldMm, s.pc)
    case Waits => WaitInv(s.dev, s.rings, s.pc)
    case Passes => PassInv(s.dev, s.rings, Bags(s), s.pc)
    case Session => SessionInv(s.dev, s.pc, StopWorks(s))
    case References => RefInv(s.maps, s.rings)
    case InUseMaps => MapInv(s.maps.mm, s.maps.oldMm, s.dev, s.rings, Bags(s), s.pc)
  }

  ghost predicate Inv(s: State) {
    Shape(s) && forall c: Clause :: Holds(c, s)
  }

  lemma Open(s: State)
    requires Inv(s)
    ensures Parts(s)
  {
    hide Homed, Addressed, RingsInv, CountInv, MsgInv, WaitInv, PassInv, SessionInv, RefInv, MapInv, Bags, StopWorks;
    assert Holds(Lists, s) && Holds(Place, s) && Holds(Rings, s) && Holds(Counts, s) && Holds(Messages, s);
    assert Holds(Waits, s) && Holds(Passes, s) && Holds(Session, s) && Holds(References, s) && Holds(InUseMaps, s);
  }

  lemma Close(s: State)
    requires Parts(s)
    ensures Inv(s)
  {
    hide Homed, Addressed, RingsInv, CountInv, MsgInv, WaitInv, PassInv, SessionInv, RefInv, MapInv, Bags, StopWorks;
  }

  predicate Bare(b: Bag) {
    Tokens(b) == 0 && b.done.stopP == 0 && b.done.stopB == 0 && b.done.drainP == 0 && b.done.drainB == 0 && b.mid == 0
  }

  lemma InitRings(rings: seq<Ring>, bags: seq<Bag>, d: Dev, pc: CtlPc)
    requires |bags| == |rings| && forall i :: 0 <= i < |rings| ==> Fresh(rings[i]) && Bare(bags[i])
    requires Unconnected(d) && pc.CtlIdle?
    ensures RingsInv(rings, bags, pc) && WaitInv(d, rings, pc) && PassInv(d, rings, bags, pc)
    ensures MapInv(0, 0, d, rings, bags, pc)
  {}

  lemma InitCounts(rings: seq<Ring>, bags: seq<Bag>, d: Dev, pc: CtlPc)
    requires |bags| == |rings| && forall i :: 0 <= i < |rings| ==> Fresh(rings[i]) && Bare(bags[i])
    requires Unconnected(d) && pc.CtlIdle?
    ensures CountInv(d, rings, bags, pc)
  {
    SumZero(bags, Tokens);
    SumZero(rings, StopsOwed);
    SumZero(rings, DrainsOwed);
  }

  lemma InitInv(s: State)
    requires Init(s)
    ensures Inv(s)
  {
    hide RefInv, Bags, Addressed, StopWorks, Homed, RingsInv, CountInv, WaitInv, PassInv, MapInv;
    InitLists(s);
    InitRefs(s.maps, s.rings);
    InitRings(s.rings, Bags(s), s.dev, s.pc);
    InitCounts(s.rings, Bags(s), s.dev, s.pc);
    Close(s);
  }

  lemma InitRefs(m: Maps, rings: seq<Ring>)
    requires m.mm == 0 && m.oldMm == 0 && m.refs == [0] && forall i :: 0 <= i < |rings| ==> Fresh(rings[i])
    ensures RefInv(m, rings)
  {}

  lemma InitLists(s: State)
    requires Init(s)
    ensures Addressed(s.pending, s.batch, s.home, s.rqs) && StopWorks(s) == 0
    ensures forall i :: 0 <= i < |s.rings| ==> Bare(Bags(s)[i])
  {
    forall i | 0 <= i < |s.rings| ensures Bare(Bags(s)[i]) {
      assert s.rqs[s.home[i]].pending == [];
    }
  }

  // ----- requests and the maps they hold

  lemma {:induction false} NoReqs(rings: seq<Ring>, k: int)
    requires forall i :: 0 <= i < |rings| ==> Empty(rings[i])
    ensures Held(rings, k) == 0
  {
    if rings != [] { NoReqs(rings[1..], k); }
  }

  lemma {:induction false} HeldUpdate(rings: seq<Ring>, i: nat, r: Ring, k: int)
    requires i < |rings|
    ensures Held(rings[i := r], k) == Held(rings, k) - RefsOf(rings[i], k) + RefsOf(r, k)
  {
    if i == 0 {
      assert rings[i := r][1..] == rings[1..];
    } else {
      assert rings[i := r][1..] == rings[1..][i - 1 := r];
      HeldUpdate(rings[1..], i - 1, r, k);
    }
  }

  lemma {:induction false} OccAbsent(ms: seq<int>, n: nat, k: int)
    requires k >= n && forall j :: 0 <= j < |ms| ==> ms[j] < n
    ensures Occ(ms, k) == 0
  {
    if ms != [] { OccAbsent(ms[1..], n, k); }
  }

  lemma {:induction false} HeldAbsent(rings: seq<Ring>, n: nat)
    requires forall i :: 0 <= i < |rings| ==> Named(rings[i], n)
    ensures Held(rings, n) == 0
  {
    if rings != [] {
      OccAbsent(rings[0].queued, n, n);
      OccAbsent(rings[0].busy, n, n);
      HeldAbsent(rings[1..], n);
    }
  }

  /** Counts that follow the requests of one ring. */
  ghost predicate Moved(refs: seq<int>, refs': seq<int>, r: Ring, r': Ring) {
    && |refs'| == |refs| && (Named(r, |refs|) ==> Named(r', |refs|))
    && (forall k :: 0 < k < |refs| ==> refs'[k] == refs[k] + RefsOf(r', k) - RefsOf(r, k))
  }

  // ----- one ring changes

  lemma OneRing(rings: seq<Ring>, bags: seq<Bag>, pc: CtlPc, i: nat, r: Ring, b: Bag)
    requires RingsInv(rings, bags, pc) && i < |rings| && RingOk(r, b, Ft(pc, i), Dt(pc, i))
    ensures RingsInv(rings[i := r], bags[i := b], pc)
  {
    hide RingOk;
  }

  lemma OneCount(d: Dev, d': Dev, rings: seq<Ring>, bags: seq<Bag>, pc: CtlPc, i: nat, r: Ring, b: Bag)
    requires CountInv(d, rings, bags, pc) && i < |rings| == |bags|
    requires d'.handling == d.handling + Tokens(b) - Tokens(bags[i])
    requires d'.started == d.started + StopsOwed(r) - StopsOwed(rings[i])
    requires d'.inFlight == d.inFlight + DrainsOwed(r) - DrainsOwed(rings[i])
    ensures CountInv(d', rings[i := r], bags[i := b], pc)
  {
    SumUpdate(bags, i, b, Tokens);
    SumUpdate(rings, i, r, StopsOwed);
    SumUpdate(rings, i, r, DrainsOwed);
  }

  /** The change of one ring leaves the passing of messages to others alone. */
  lemma OnePass(d: Dev, rings: seq<Ring>, bags: seq<Bag>, pc: CtlPc, i: nat, r: Ring, b: Bag)
    requires |bags| == |rings| && i < |rings| && PassInv(d, rings, bags, pc)
    requires r.startedCtl == rings[i].startedCtl && Tokens(b) == Tokens(bags[i])
    requires b.todo.starts + b.todo.fails <= bags[i].todo.starts + bags[i].todo.fails
    ensures PassInv(d, rings[i := r], bags[i := b], pc)
  {
    if pc.Syncing? && d.handling == 0 {
      var j :| pc.k <= j < |rings| && rings[j].startedCtl;
      assert rings[i := r][j].startedCtl;
    }
  }

  lemma OneWait(d: Dev, rings: seq<Ring>, pc: CtlPc, i: nat, r: Ring)
    requires i < |rings| && WaitInv(d, rings, pc) && r.onDrain == rings[i].onDrain
    ensures WaitInv(d, rings[i := r], pc)
  {
    if d.req && !d.replyFailed && !BeingHandled(d, pc) {
      var j :| 0 <= j < |rings| && rings[j].onDrain;
      assert rings[i := r][j].onDrain;
    }
  }

  lemma OneRef(m: Maps, m': Maps, rings: seq<Ring>, i: nat, r: Ring)
    requires RefInv(m, rings) && i < |rings| && m' == m.(refs := m'.refs) && Moved(m.refs, m'.refs, rings[i], r)
    ensures RefInv(m', rings[i := r])
  {
    hide RefsOf, Named;
    forall k | 0 < k < |m.refs|
      ensures m'.refs[k] == One(k == m.mm) + One(k == m.oldMm) + Held(rings[i := r], k)
    {
      HeldUpdate(rings, i, r, k);
    }
  }

  lemma OneMap(mm: nat, oldMm: nat, d: Dev, rings: seq<Ring>, bags: seq<Bag>, pc: CtlPc, i: nat, r: Ring, b: Bag)
    requires |bags| == |rings| && i < |rings| && MapInv(mm, oldMm, d, rings, bags, pc)
    requires r.startedRq ==> r.mm != 0 && (r.mm == mm || (r.mm == oldMm && OwesSync(b, pc, i)))
    ensures MapInv(mm, oldMm, d, rings[i := r], bags[i := b], pc)
  {
    hide OwesSync;
  }

  /** Changes in the dataplane of one ring that owe the control loop as much as before. */
  lemma DataplaneKeeps(s: State, t: State, i: nat, r: Ring, b: Bag)
    requires Inv(s) && i < |s.rings|
    requires t.home == s.home && |t.rqs| == |s.rqs| && t.dev == s.dev && t.pc == s.pc
    requires t.rings == s.rings[i := r] && Shape(t) && Bags(t) == Bags(s)[i := b]
    requires RingOk(r, b, Ft(s.pc, i), Dt(s.pc, i)) && t.maps.oldMm == s.maps.oldMm
    requires r.kicks == s.rings[i].kicks && r.stops == s.rings[i].stops && r.drains == s.rings[i].drains
    requires r.startedCtl == s.rings[i].startedCtl && r.onDrain == s.rings[i].onDrain
    requires Tokens(b) == Tokens(Bags(s)[i])
    requires b.todo.starts + b.todo.fails <= Bags(s)[i].todo.starts + Bags(s)[i].todo.fails
    requires Addressed(t.pending, t.batch, t.home, t.rqs) && StopWorks(t) == StopWorks(s)
    requires t.maps == s.maps.(refs := t.maps.refs) && Moved(s.maps.refs, t.maps.refs, s.rings[i], r)
    requires r.startedRq ==> r.mm != 0 && (r.mm == s.maps.mm || (r.mm == s.maps.oldMm && OwesSync(b, s.pc, i)))
    ensures Inv(t)
  {
    hide RingOk, RingsInv, CountInv, MsgInv, WaitInv, PassInv, SessionInv, MapInv, RefInv, Addressed, Bags, Homed,
         StopWorks, Moved, OwesSync;
    Open(s);
    OneRing(s.rings, Bags(s), s.pc, i, r, b);
    OneCount(s.dev, s.dev, s.rings, Bags(s), s.pc, i, r, b);
    OnePass(s.dev, s.rings, Bags(s), s.pc, i, r, b);
    OneWait(s.dev, s.rings, s.pc, i, r);
    OneRef(s.maps, t.maps, s.rings, i, r);
    OneMap(s.maps.mm, s.maps.oldMm, s.dev, s.rings, Bags(s), s.pc, i, r, b);
    Close(t);
  }

  // ----- addresses of bottom halves

  lemma PostCtlAddressed(pending: seq<CtlBh>, batch: seq<CtlBh>, home: seq<int>, rqs: seq<Rq>, bh: CtlBh)
    requires Addressed(pending, batch, home, rqs) && CtlFits(bh, |home|)
    ensures Addressed([bh] + pending, batch, home, rqs)
  {}

  lemma PopRqAddressed(pending: seq<CtlBh>, batch: seq<CtlBh>, home: seq<int>, rqs: seq<Rq>, r: nat)
    requires Addressed(pending, batch, home, rqs) && r < |rqs| && rqs[r].batch != []
    ensures Addressed(pending, batch, home, PoppedRq(rqs, r))
  {
    var q := rqs[r];
    assert RqAddressed(q, home, r);
    assert RqAddressed(PoppedRq(rqs, r)[r], home, r);
  }

  lemma PostRqAddressed(pending: seq<CtlBh>, batch: seq<CtlBh>, home: seq<int>, rqs: seq<Rq>, bh: RqBh)
    requires Addressed(pending, batch, home, rqs) && bh.i < |home| && 0 <= home[bh.i] < |rqs|
    ensures Addressed(pending, batch, home, PostedRq(rqs, home[bh.i], bh))
  {
    var r := home[bh.i];
    assert RqAddressed(rqs[r], home, r);
    assert RqAddressed(PostedRq(rqs, r, bh)[r], home, r);
  }

  lemma PcAddressed(pending: seq<CtlBh>, batch: seq<CtlBh>, home: seq<int>, rqs: seq<Rq>, r: nat, pc: RqPc)
    requires Addressed(pending, batch, home, rqs) && r < |rqs| && (!pc.RqIdle? ==> pc.i < |home| && home[pc.i] == r)
    ensures Addressed(pending, batch, home, WithPc(rqs, r, pc))
  {
    assert RqAddressed(rqs[r], home, r);
    assert RqAddressed(WithPc(rqs, r, pc)[r], home, r);
  }

  // ----- steps of a request queue

  lemma StartRuns(s: State, r: nat, ok: bool)
    requires Inv(s) && Enabled(s, RqBhRun(r, ok)) && s.rqs[r].batch[0].Start?
    ensures Inv(Apply(s, RqBhRun(r, ok)))
  {
    hide Inv, Apply;
    if s.rings[s.rqs[r].batch[0].i].disconnecting || !ok { StartRefused(s, r, ok); } else { StartChecks(s, r, ok); }
  }

  lemma StartRefused(s: State, r: nat, ok: bool)
    requires Inv(s) && Enabled(s, RqBhRun(r, ok)) && s.rqs[r].batch[0].Start?
    requires s.rings[s.rqs[r].batch[0].i].disconnecting || !ok
    ensures Inv(Apply(s, RqBhRun(r, ok)))
  {
    hide CountInv, MsgInv, WaitInv, PassInv, SessionInv, RefInv, Homed, Empty, Occ, BagsOf, Addressed, RingsInv, RingOk,
         MapInv, Moved, OwesSync;
    Open(s);
    var i := s.rqs[r].batch[0].i;
    HeadAddressed(s.pending, s.batch, s.home, s.rqs, r);
    var b, rqs := Bags(s), PoppedRq(s.rqs, r);
    BagsPopRq(s.pending, s.batch, s.home, s.rqs, r);
    PopRqAddressed(s.pending, s.batch, s.home, s.rqs, r);
    BagsPostCtl(s.pending, s.batch, s.home, rqs, StartFailed(i));
    PostCtlAddressed(s.pending, s.batch, s.home, rqs, StartFailed(i));
    OccCons(s.pending, StartFailed(i), StopWork);
    RingAt(s.rings, b, s.pc, i);
    StartOk(s.rings[i], b[i], Ft(s.pc, i), Dt(s.pc, i), s.pc, i);
    if s.rings[i].startedRq { MapAt(s.maps.mm, s.maps.oldMm, s.dev, s.rings, b, s.pc, i); }
    SameReqs(s.maps.refs, s.rings[i], s.rings[i]);
    DataplaneKeeps(s, Apply(s, RqBhRun(r, ok)), i, s.rings[i], AddCtl(SubRq(b[i], Start(i)), StartFailed(i)));
  }

  lemma StartChecks(s: State, r: nat, ok: bool)
    requires Inv(s) && Enabled(s, RqBhRun(r, ok)) && s.rqs[r].batch[0].Start?
    requires !s.rings[s.rqs[r].batch[0].i].disconnecting && ok
    ensures Inv(Apply(s, RqBhRun(r, ok)))
  {
    hide CountInv, MsgInv, WaitInv, PassInv, SessionInv, RefInv, Homed, Empty, Occ, BagsOf, Addressed, RingsInv, RingOk,
         MapInv, Moved, OwesSync;
    Open(s);
    var i := s.rqs[r].batch[0].i;
    HeadAddressed(s.pending, s.batch, s.home, s.rqs, r);
    var b, rqs := Bags(s), PoppedRq(s.rqs, r);
    BagsPopRq(s.pending, s.batch, s.home, s.rqs, r);
    PopRqAddressed(s.pending, s.batch, s.home, s.rqs, r);
    BagsEnterPc(s.pending, s.batch, s.home, rqs, r, StartChecked(i));
    PcAddressed(s.pending, s.batch, s.home, rqs, r, StartChecked(i));
    RingAt(s.rings, b, s.pc, i);
    StartOk(s.rings[i], b[i], Ft(s.pc, i), Dt(s.pc, i), s.pc, i);
    if s.rings[i].startedRq { MapAt(s.maps.mm, s.maps.oldMm, s.dev, s.rings, b, s.pc, i); }
    SameReqs(s.maps.refs, s.rings[i], s.rings[i]);
    DataplaneKeeps(s, Apply(s, RqBhRun(r, ok)), i, s.rings[i], AddPc(SubRq(b[i], Start(i)), StartChecked(i)));
  }

  /** A start that is taken up stays owed, by the loop in its middle or by its failure. */
  lemma StartOk(r: Ring, b: Bag, ft: nat, dt: nat, pc: CtlPc, i: nat)
    requires RingOk(r, b, ft, dt) && b.todo.starts >= 1
    ensures RingOk(r, AddCtl(SubRq(b, Start(i)), StartFailed(i)), ft, dt)
    ensures RingOk(r, AddPc(SubRq(b, Start(i)), StartChecked(i)), ft, dt)
    ensures OwesSync(AddCtl(SubRq(b, Start(i)), StartFailed(i)), pc, i) == OwesSync(b, pc, i)
    ensures OwesSync(AddPc(SubRq(b, Start(i)), StartChecked(i)), pc, i) == OwesSync(b, pc, i)
  {}

  lemma HeadAddressed(pending: seq<CtlBh>, batch: seq<CtlBh>, home: seq<int>, rqs: seq<Rq>, r: nat)
    requires Addressed(pending, batch, home, rqs) && r < |rqs| && rqs[r].batch != []
    ensures rqs[r].batch[0].i < |home| && home[rqs[r].batch[0].i] == r
  {
    assert RqAddressed(rqs[r], home, r);
  }

  lemma StopRuns(s: State, r: nat, ok: bool)
    requires Inv(s) && Enabled(s, RqBhRun(r, ok)) && s.rqs[r].batch[0].Stop?
    ensures Inv(Apply(s, RqBhRun(r, ok)))
  {
    hide CountInv, MsgInv, WaitInv, PassInv, SessionInv, RefInv, Homed, Empty, Occ, BagsOf, Addressed, RingsInv, RingOk,
         MapInv, Moved, OwesSync, Cancelled, Dropped;
    Open(s);
    var i := s.rqs[r].batch[0].i;
    HeadAddressed(s.pending, s.batch, s.home, s.rqs, r);
    var t, b, ring := Apply(s, RqBhRun(r, ok)), Bags(s), s.rings[i];
    BagsPopRq(s.pending, s.batch, s.home, s.rqs, r);
    PopRqAddressed(s.pending, s.batch, s.home, s.rqs, r);
    var rqs := PoppedRq(s.rqs, r);
    RingAt(s.rings, b, s.pc, i);
    if ring.startedRq {
      var pc := StopPosted(i);
      BagsEnterPc(s.pending, s.batch, s.home, rqs, r, pc);
      PcAddressed(s.pending, s.batch, s.home, rqs, r, pc);
      BagsPostCtl(s.pending, s.batch, s.home, WithPc(rqs, r, pc), Stopped(i));
      PostCtlAddressed(s.pending, s.batch, s.home, WithPc(rqs, r, pc), Stopped(i));
      OccCons(s.pending, Stopped(i), StopWork);
      CancelRefs(s.maps.refs, ring);
      StopRingOk(ring, b[i], Ft(s.pc, i), Dt(s.pc, i));
      DataplaneKeeps(s, t, i, t.rings[i], AddCtl(AddPc(b[i], pc), Stopped(i)));
    } else {
      SameReqs(s.maps.refs, ring, ring);
      DataplaneKeeps(s, t, i, ring, b[i]);
    }
  }

  lemma StopRingOk(r: Ring, b: Bag, ft: nat, dt: nat)
    requires RingOk(r, b, ft, dt) && r.startedRq
    ensures RingOk(StoppedRing(r), AddCtl(AddPc(b, StopPosted(0)), Stopped(0)), ft, dt)
  {}

  lemma CancelRefs(refs: seq<int>, r: Ring)
    ensures Moved(refs, Dropped(refs, Cancelled(r)), r, StoppedRing(r))
  {
    forall k | 0 < k < |refs|
      ensures Dropped(refs, Cancelled(r))[k] == refs[k] + RefsOf(StoppedRing(r), k) - RefsOf(r, k)
    {
      if !r.disconnecting { assert Occ(Cancelled(r), k) == 0; }
    }
  }

  lemma SyncRuns(s: State, r: nat, ok: bool)
    requires Inv(s) && Enabled(s, RqBhRun(r, ok)) && s.rqs[r].batch[0].Sync?
    ensures Inv(Apply(s, RqBhRun(r, ok)))
  {
    hide CountInv, MsgInv, WaitInv, PassInv, SessionInv, RefInv, Homed, Empty, Occ, BagsOf, Addressed, RingsInv, RingOk,
         MapInv, Moved, OwesSync;
    Open(s);
    var i := s.rqs[r].batch[0].i;
    HeadAddressed(s.pending, s.batch, s.home, s.rqs, r);
    var t, b := Apply(s, RqBhRun(r, ok)), Bags(s);
    BagsPopRq(s.pending, s.batch, s.home, s.rqs, r);
    PopRqAddressed(s.pending, s.batch, s.home, s.rqs, r);
    var rqs, c := PoppedRq(s.rqs, r), SubRq(b[i], Sync(i));
    BagsPostCtl(s.pending, s.batch, s.home, rqs, MsgHandled(i));
    PostCtlAddressed(s.pending, s.batch, s.home, rqs, MsgHandled(i));
    OccCons(s.pending, MsgHandled(i), StopWork);
    RingAt(s.rings, b, s.pc, i);
    SyncedOk(s.rings[i], b[i], Ft(s.pc, i), Dt(s.pc, i), i, s.maps.mm);
    if s.rings[i].startedRq { OwingInFlight(s, i); }
    SameReqs(s.maps.refs, s.rings[i], s.rings[i].(mm := s.maps.mm));
    DataplaneKeeps(s, t, i, s.rings[i].(mm := s.maps.mm), AddCtl(c, MsgHandled(i)));
  }

  lemma SyncedOk(r: Ring, b: Bag, ft: nat, dt: nat, i: nat, m: nat)
    requires RingOk(r, b, ft, dt) && b.todo.syncs >= 1
    ensures RingOk(r.(mm := m), AddCtl(SubRq(b, Sync(i)), MsgHandled(i)), ft, dt)
    ensures r.startedRq ==> DrainsOwed(r) > 0
  {}

  /** A ring that owes its drain keeps the device in use and its map set. */
  lemma OwingInFlight(s: State, i: nat)
    requires Inv(s) && i < |s.rings| && DrainsOwed(s.rings[i]) > 0
    ensures s.dev.inFlight > 0 && s.maps.mm != 0
  {
    hide MsgInv, WaitInv, PassInv, SessionInv, RefInv, Homed, Addressed;
    Open(s);
    SumAtLeast(s.rings, i, DrainsOwed);
  }

  lemma MidStep(s: State, r: nat)
    requires Inv(s) && Enabled(s, RqBhStep(r))
    ensures Inv(Apply(s, RqBhStep(r)))
  {
    hide Inv, Apply;
    if s.rqs[r].pc.StartChecked? { StartEnds(s, r); } else { StopEnds(s, r); }
  }

  lemma PcAddress(s: State, r: nat)
    requires Addressed(s.pending, s.batch, s.home, s.rqs) && r < |s.rqs| && !s.rqs[r].pc.RqIdle?
    ensures s.rqs[r].pc.i < |s.home| && s.home[s.rqs[r].pc.i] == r
  {
    assert RqAddressed(s.rqs[r], s.home, r);
  }

  lemma StartEnds(s: State, r: nat)
    requires Inv(s) && Enabled(s, RqBhStep(r)) && s.rqs[r].pc.StartChecked?
    ensures Inv(Apply(s, RqBhStep(r)))
  {
    hide CountInv, MsgInv, WaitInv, PassInv, SessionInv, RefInv, Homed, Empty, Occ, BagsOf, Addressed, RingsInv, RingOk,
         MapInv, Moved, OwesSync;
    Open(s);
    PcAddress(s, r);
    var i, rqs, b := s.rqs[r].pc.i, WithPc(s.rqs, r, RqIdle), Bags(s);
    BagsLeavePc(s.pending, s.batch, s.home, s.rqs, r);
    PcAddressed(s.pending, s.batch, s.home, s.rqs, r, RqIdle);
    BagsPostCtl(s.pending, s.batch, s.home, rqs, MsgHandled(i));
    PostCtlAddressed(s.pending, s.batch, s.home, rqs, MsgHandled(i));
    OccCons(s.pending, MsgHandled(i), StopWork);
    RingAt(s.rings, b, s.pc, i);
    StartedOk(s.rings[i], b[i], Ft(s.pc, i), Dt(s.pc, i), i, s.maps.mm);
    OwingInFlight(s, i);
    var ring := s.rings[i].(startedRq := true, mm := s.maps.mm);
    SameReqs(s.maps.refs, s.rings[i], ring);
    DataplaneKeeps(s, Apply(s, RqBhStep(r)), i, ring, AddCtl(SubPc(b[i], StartChecked(i)), MsgHandled(i)));
  }

  lemma StartedOk(r: Ring, b: Bag, ft: nat, dt: nat, i: nat, m: nat)
    requires RingOk(r, b, ft, dt) && b.todo.starts >= 1
    ensures RingOk(r.(startedRq := true, mm := m), AddCtl(SubPc(b, StartChecked(i)), MsgHandled(i)), ft, dt)
    ensures DrainsOwed(r) > 0
  {}

  lemma StopEnds(s: State, r: nat)
    requires Inv(s) && Enabled(s, RqBhStep(r)) && s.rqs[r].pc.StopPosted?
    ensures Inv(Apply(s, RqBhStep(r)))
  {
    hide CountInv, MsgInv, WaitInv, PassInv, SessionInv, RefInv, Homed, Empty, Occ, BagsOf, Addressed, RingsInv, RingOk,
         MapInv, Moved, OwesSync;
    Open(s);
    PcAddress(s, r);
    var i, rqs, b := s.rqs[r].pc.i, WithPc(s.rqs, r, RqIdle), Bags(s);
    BagsLeavePc(s.pending, s.batch, s.home, s.rqs, r);
    PcAddressed(s.pending, s.batch, s.home, s.rqs, r, RqIdle);
    RingAt(s.rings, b, s.pc, i);
    StopEndsOk(s.rings[i], b[i], Ft(s.pc, i), Dt(s.pc, i), i);
    SameReqs(s.maps.refs, s.rings[i], s.rings[i]);
    if Empty(s.rings[i]) {
      BagsPostCtl(s.pending, s.batch, s.home, rqs, Drained(i));
      PostCtlAddressed(s.pending, s.batch, s.home, rqs, Drained(i));
      OccCons(s.pending, Drained(i), StopWork);
      DataplaneKeeps(s, Apply(s, RqBhStep(r)), i, s.rings[i], AddCtl(SubPc(b[i], StopPosted(i)), Drained(i)));
    } else {
      DataplaneKeeps(s, Apply(s, RqBhStep(r)), i, s.rings[i], SubPc(b[i], StopPosted(i)));
    }
  }

  lemma StopEndsOk(r: Ring, b: Bag, ft: nat, dt: nat, i: nat)
    requires RingOk(r, b, ft, dt) && b.mid == 1
    ensures !r.startedRq
    ensures RingOk(r, if Empty(r) then AddCtl(SubPc(b, StopPosted(i)), Drained(i)) else SubPc(b, StopPosted(i)), ft, dt)
  {}

  lemma StealRq(s: State, r: nat)
    requires Inv(s) && Enabled(s, RqSteal(r))
    ensures Inv(Apply(s, RqSteal(r)))
  {
    hide CountInv, MsgInv, WaitInv, PassInv, SessionInv, RefInv, MapInv, RingsInv, Homed, Occ, BagsOf;
    Open(s);
    BagsStealRq(s.pending, s.batch, s.home, s.rqs, r);
    assert RqAddressed(s.rqs[r], s.home, r);
    Close(Apply(s, RqSteal(r)));
  }

  lemma FetchRefs(refs: seq<int>, r: Ring)
    requires 0 < r.mm < |refs|
    ensures Moved(refs, Bump(refs, r.mm, 1), r, FetchedRing(r))
  {
    forall k | 0 < k < |refs| ensures Bump(refs, r.mm, 1)[k] == refs[k] + RefsOf(FetchedRing(r), k) - RefsOf(r, k) {
      OccAppend(r.queued, r.mm, k);
    }
  }

  lemma MapInRange(m: Maps, rings: seq<Ring>)
    requires RefInv(m, rings)
    ensures m.mm < |m.refs| && m.oldMm < |m.refs|
  {}

  lemma FetchKeeps(s: State, i: nat)
    requires Inv(s) && Enabled(s, Fetch(i))
    ensures Inv(Apply(s, Fetch(i)))
  {
    hide CountInv, MsgInv, WaitInv, PassInv, SessionInv, RefInv, Homed, Occ, BagsOf, Addressed;
    Open(s);
    var t := Apply(s, Fetch(i));
    MapInRange(s.maps, s.rings);
    FetchRefs(s.maps.refs, s.rings[i]);
    DataplaneKeeps(s, t, i, t.rings[i], Bags(s)[i]);
  }

  lemma SubmitRefs(refs: seq<int>, r: Ring)
    requires r.queued != []
    ensures Moved(refs, refs, r, SubmittedRing(r))
  {
    forall k: int ensures RefsOf(SubmittedRing(r), k) == RefsOf(r, k) {
      OccAppend(r.busy, r.queued[0], k);
    }
  }

  lemma SubmitKeeps(s: State, i: nat)
    requires Inv(s) && Enabled(s, Submit(i))
    ensures Inv(Apply(s, Submit(i)))
  {
    hide CountInv, MsgInv, WaitInv, PassInv, SessionInv, RefInv, Homed, Occ, BagsOf, Addressed;
    Open(s);
    var t := Apply(s, Submit(i));
    SubmitRefs(s.maps.refs, s.rings[i]);
    DataplaneKeeps(s, t, i, t.rings[i], Bags(s)[i]);
  }

  /** The last completion of a stopped ring is what makes its drain ready to acknowledge. */
  lemma CompleteRingOk(r: Ring, b: Bag, ft: nat, dt: nat, k: nat)
    requires RingOk(r, b, ft, dt) && k < |r.busy| && b.mid == 0
    ensures var r' := CompletedRing(r, k);
            RingOk(r', if Empty(r') && !r.startedRq then b.(done := b.done.(drainP := b.done.drainP + 1))
                       else b, ft, dt)
  {}

  lemma CompleteRefs(refs: seq<int>, r: Ring, k: nat)
    requires k < |r.busy|
    ensures Named(r, |refs|) ==> Moved(refs, Bump(refs, r.busy[k], -1), r, CompletedRing(r, k))
  {
    forall j: int ensures RefsOf(CompletedRing(r, k), j) == RefsOf(r, j) - One(j == r.busy[k]) {
      OccRemovedAt(r.busy, k, j);
    }
  }

  lemma NamedAt(m: Maps, rings: seq<Ring>, i: nat)
    requires RefInv(m, rings) && i < |rings|
    ensures Named(rings[i], |m.refs|)
  {}

  lemma IdleNotMid(s: State, i: nat)
    requires Shape(s) && At(s, i) && s.rqs[s.home[i]].pc.RqIdle?
    ensures Bags(s)[i].mid == 0
  {}

  lemma CompleteKeeps(s: State, i: nat, k: nat)
    requires Inv(s) && Enabled(s, Finished(i, k))
    ensures Inv(Apply(s, Finished(i, k)))
  {
    hide CountInv, MsgInv, WaitInv, PassInv, SessionInv, RefInv, Homed, Occ, RqAddressed, BagsOf, RingOk, Moved, Named;
    Open(s);
    var t, b := Apply(s, Finished(i, k)), Bags(s);
    IdleNotMid(s, i);
    NamedAt(s.maps, s.rings, i);
    CompleteRefs(s.maps.refs, s.rings[i], k);
    CompleteRingOk(s.rings[i], b[i], Ft(s.pc, i), Dt(s.pc, i), k);
    if Empty(t.rings[i]) && !t.rings[i].startedRq {
      BagsPostCtl(s.pending, s.batch, s.home, s.rqs, Drained(i));
      PostCtlAddressed(s.pending, s.batch, s.home, s.rqs, Drained(i));
      OccCons(s.pending, Drained(i), StopWork);
      DataplaneKeeps(s, t, i, t.rings[i], AddCtl(b[i], Drained(i)));
    } else {
      DataplaneKeeps(s, t, i, t.rings[i], b[i]);
    }
  }

  // ----- the end of a handler: the device may have nothing left to do

  /** Two devices that differ at most in how they listen and stop. */
  predicate SameMsg(d: Dev, e: Dev) {
    && d.conn == e.conn && d.connAttached == e.connAttached && d.handling == e.handling && d.completion == e.completion
    && d.oldLog == e.oldLog && d.keepFd == e.keepFd && d.req == e.req && d.replyFailed == e.replyFailed
  }

  lemma MsgFrame(d: Dev, e: Dev, oldMm: nat, rings: seq<Ring>, bags: seq<Bag>, pc: CtlPc)
    requires SameMsg(d, e) && |bags| == |rings|
    requires MsgInv(d, oldMm, pc) && WaitInv(d, rings, pc) && PassInv(d, rings, bags, pc)
    ensures MsgInv(e, oldMm, pc) && WaitInv(e, rings, pc) && PassInv(e, rings, bags, pc)
  {}

  /** Nothing in use: no ring runs, owes, or is owed anything, and no message left anything behind. */
  ghost predicate AllQuiet(s: State)
    requires Shape(s)
  {
    && (forall i :: 0 <= i < |s.rings| ==>
          var r, b := s.rings[i], Bags(s)[i];
          && !r.startedRq && !r.startedCtl && !r.kickOpen && !r.inited && !r.onDrain && Empty(r)
          && Bare(b))
    && s.maps.oldMm == 0 && !s.dev.oldLog && !s.dev.keepFd && s.dev.completion == NoCompletion
    && (s.dev.req <==> s.dev.replyFailed)
  }

  lemma RingQuiet(r: Ring, b: Bag, ft: nat, dt: nat)
    requires RingOk(r, b, ft, dt) && StopsOwed(r) == 0 && DrainsOwed(r) == 0 && Tokens(b) == 0 && dt == 0
    ensures !r.startedRq && !r.startedCtl && !r.kickOpen && !r.inited && !r.onDrain && Empty(r) && Bare(b)
  {}

  lemma OwedBounds(rings: seq<Ring>, bags: seq<Bag>, pc: CtlPc)
    requires RingsInv(rings, bags, pc)
    ensures forall i :: 0 <= i < |rings| ==> StopsOwed(rings[i]) >= 0 && DrainsOwed(rings[i]) >= 0
  {}

  lemma NotInUse(s: State)
    requires Inv(s) && !InUse(s.dev) && s.pc.CtlIdle?
    ensures AllQuiet(s)
  {
    hide SessionInv, PassInv, RefInv, MapInv, Addressed, Homed, RingOk, Empty, Bare, Sum, BagsOf, MsgInv, WaitInv;
    Open(s);
    var b := Bags(s);
    OwedBounds(s.rings, b, s.pc);
    forall i | 0 <= i < |s.rings|
      ensures var r := s.rings[i];
              && !r.startedRq && !r.startedCtl && !r.kickOpen && !r.inited && !r.onDrain && Empty(r) && Bare(b[i])
    {
      SumAtLeast(b, i, Tokens);
      SumAtLeast(s.rings, i, StopsOwed);
      SumAtLeast(s.rings, i, DrainsOwed);
      RingQuiet(s.rings[i], b[i], Ft(s.pc, i), Dt(s.pc, i));
    }
    NothingLeft(s.dev, s.maps.oldMm, s.rings, s.pc);
  }

  lemma NothingLeft(d: Dev, oldMm: nat, rings: seq<Ring>, pc: CtlPc)
    requires MsgInv(d, oldMm, pc) && WaitInv(d, rings, pc) && !BeingHandled(d, pc)
    requires forall i :: 0 <= i < |rings| ==> !rings[i].onDrain
    ensures oldMm == 0 && !d.oldLog && !d.keepFd && d.completion == NoCompletion && (d.req <==> d.replyFailed)
  {}

  lemma ResetQuiet(rings: seq<Ring>, bags: seq<Bag>, pc: CtlPc)
    requires |bags| == |rings| && RingsInv(rings, bags, pc)
    requires forall i :: 0 <= i < |rings| ==> !rings[i].kickOpen
    ensures |ResetRings(rings)| == |rings| && RingsInv(ResetRings(rings), bags, pc)
    ensures Sum(ResetRings(rings), StopsOwed) == Sum(rings, StopsOwed)
    ensures Sum(ResetRings(rings), DrainsOwed) == Sum(rings, DrainsOwed)
  {
    SumSame(ResetRings(rings), StopsOwed, rings, StopsOwed);
    SumSame(ResetRings(rings), DrainsOwed, rings, DrainsOwed);
  }

  lemma CleanupRings(s: State)
    requires Inv(s) && AllQuiet(s)
    ensures var t := ResetRings(s.rings);
            && |t| == |s.rings|
            && RingsInv(t, Bags(s), s.pc) && CountInv(s.dev, t, Bags(s), s.pc)
            && RefInv(Maps(0, s.maps.oldMm, Bump(s.maps.refs, s.maps.mm, -1)), t)
            && (forall i :: 0 <= i < |t| ==> !t[i].startedRq && !t[i].startedCtl && !t[i].onDrain)
  {
    hide SessionInv, PassInv, MsgInv, WaitInv, MapInv, Addressed, Homed, RingOk, Sum, BagsOf, Bare;
    Open(s);
    ResetQuiet(s.rings, Bags(s), s.pc);
    CleanupRefs(s.maps, s.rings, ResetRings(s.rings));
  }

  lemma CleanupMsg(d: Dev, e: Dev, rings: seq<Ring>, t: seq<Ring>, bags: seq<Bag>, pc: CtlPc)
    requires SameMsg(d, e) && e.inFlight == 0 && e.handling == 0 && pc.CtlIdle? && |bags| == |rings| == |t|
    requires MsgInv(d, 0, pc) && PassInv(d, rings, bags, pc) && (d.req <==> d.replyFailed)
    requires forall i :: 0 <= i < |t| ==> !t[i].startedRq && !t[i].startedCtl && !t[i].onDrain
    ensures MsgInv(e, 0, pc) && WaitInv(e, t, pc) && PassInv(e, t, bags, pc) && MapInv(0, 0, e, t, bags, pc)
  {}

  lemma CleanupRefs(m: Maps, rings: seq<Ring>, t: seq<Ring>)
    requires RefInv(m, rings) && m.oldMm == 0 && forall i :: 0 <= i < |rings| ==> Empty(rings[i])
    requires forall i :: 0 <= i < |t| ==> Empty(t[i])
    ensures RefInv(Maps(0, 0, Bump(m.refs, m.mm, -1)), t)
  {
    forall k: int ensures Held(rings, k) == 0 && Held(t, k) == 0 {
      NoReqs(rings, k);
      NoReqs(t, k);
    }
  }

  lemma CleanupSession(d: Dev, e: Dev, pc: CtlPc, works: nat)
    requires SessionInv(d, pc, works) && !InUse(d) && pc.CtlIdle? && !d.work
    requires e == d.(log := false, connOpen := false, released := !d.listening,
                     listenAttached := d.listening, aborted := d.req)
    ensures SessionInv(e, pc, works)
  {}

  lemma CountFrame(d: Dev, e: Dev, rings: seq<Ring>, bags: seq<Bag>, pc: CtlPc)
    requires CountInv(d, rings, bags, pc) && e.handling == d.handling && e.started == d.started
    requires e.inFlight == d.inFlight
    ensures CountInv(e, rings, bags, pc)
  {}

  lemma CleanupKeeps(s: State)
    requires Inv(s) && s.pc.CtlIdle? && !InUse(s.dev) && !s.dev.work
    ensures Inv(Cleanup(s))
  {
    Open(s);
    NotInUse(s);
    CleanupRings(s);
    var t, b := Cleanup(s), Bags(s);
    assert s.maps.oldMm == 0 && (s.dev.req <==> s.dev.replyFailed);
    hide AllQuiet, Addressed, Homed, Sum, Bags, RingsInv, CountInv, RefInv, StopWorks, MsgInv, WaitInv, PassInv, MapInv,
         SessionInv, ResetRings;
    CleanupMsg(s.dev, t.dev, s.rings, t.rings, b, s.pc);
    CleanupSession(s.dev, t.dev, s.pc, StopWorks(s));
    CountFrame(s.dev, t.dev, t.rings, b, s.pc);
    SameLists(s, t);
    Close(Cleanup(s));
  }

  lemma SameLists(s: State, t: State)
    requires Shape(s) && t.pending == s.pending && t.batch == s.batch && t.home == s.home && t.rqs == s.rqs
    requires |t.rings| == |s.rings|
    ensures Shape(t) && Bags(t) == Bags(s) && StopWorks(t) == StopWorks(s)
  {}

  lemma WorkDoneKeeps(s: State)
    requires Inv(s)
    ensures Inv(s.(dev := WorkDone(s.dev)))
  {
    hide Addressed, Homed, Bags, RingsInv, CountInv, RefInv, StopWorks, MsgInv, WaitInv, PassInv;
    Open(s);
    var t := s.(dev := WorkDone(s.dev));
    SameLists(s, t);
    MsgFrame(s.dev, t.dev, s.maps.oldMm, s.rings, Bags(s), s.pc);
    CountFrame(s.dev, t.dev, s.rings, Bags(s), s.pc);
    Close(s.(dev := WorkDone(s.dev)));
  }

  lemma FinishKeeps(s: State)
    requires Inv(s) && s.pc.CtlIdle?
    ensures Inv(MaybeFinished(s))
  {
    hide Inv;
    WorkDoneKeeps(s);
    var a := s.(dev := WorkDone(s.dev));
    if !InUse(a.dev) {
      NoWork(a);
      CleanupKeeps(a);
    }
  }

  lemma NoWork(s: State)
    requires Inv(s) && s.dev == WorkDone(s.dev) && s.dev.started == 0
    ensures !s.dev.work
  {
    hide Addressed, Homed, Bags, RingsInv, CountInv, RefInv, StopWorks, MsgInv, WaitInv, PassInv, MapInv;
    Open(s);
  }

  // ----- bottom halves of the control loop

  /** One ring changes, perhaps with the place the control loop is in for it. */
  lemma RingAndCounts(d: Dev, e: Dev, rings: seq<Ring>, bags: seq<Bag>, pc: CtlPc, pc': CtlPc, i: nat, r: Ring, b: Bag)
    requires RingsInv(rings, bags, pc) && CountInv(d, rings, bags, pc) && i < |rings|
    requires forall j :: 0 <= j < |rings| && j != i ==> Ft(pc', j) == Ft(pc, j) && Dt(pc', j) == Dt(pc, j)
    requires RingOk(r, b, Ft(pc', i), Dt(pc', i))
    requires e.handling == d.handling + Tokens(b) - Tokens(bags[i])
    requires e.started == d.started + StopsOwed(r) - StopsOwed(rings[i])
    requires e.inFlight - One(pc'.Disconnecting? && pc'.after.DrainTail?) ==
             d.inFlight - One(pc.Disconnecting? && pc.after.DrainTail?) + DrainsOwed(r) - DrainsOwed(rings[i])
    ensures RingsInv(rings[i := r], bags[i := b], pc') && CountInv(e, rings[i := r], bags[i := b], pc')
  {
    hide RingOk, Tokens;
    SumUpdate(bags, i, b, Tokens);
    SumUpdate(rings, i, r, StopsOwed);
    SumUpdate(rings, i, r, DrainsOwed);
  }

  /** The counters of the control loop are at least what one ring contributes. */
  lemma CountsAtLeast(d: Dev, rings: seq<Ring>, bags: seq<Bag>, pc: CtlPc, i: nat)
    requires RingsInv(rings, bags, pc) && CountInv(d, rings, bags, pc) && i < |rings|
    ensures d.handling >= Tokens(bags[i]) && d.started >= StopsOwed(rings[i])
    ensures d.inFlight >= DrainsOwed(rings[i]) + One(pc.Disconnecting? && pc.after.DrainTail?)
  {
    OwedBounds(rings, bags, pc);
    hide RingsInv, Tokens;
    assert forall k :: 0 <= k < |bags| ==> Tokens(bags[k]) >= 0 by { TokensBounds(bags); }
    SumAtLeast(bags, i, Tokens);
    SumAtLeast(rings, i, StopsOwed);
    SumAtLeast(rings, i, DrainsOwed);
  }

  lemma TokensBounds(bags: seq<Bag>)
    ensures forall k :: 0 <= k < |bags| ==> Tokens(bags[k]) >= 0
  {}

  lemma PopCtlAddressed(s: State)
    requires Addressed(s.pending, s.batch, s.home, s.rqs) && s.batch != []
    ensures Addressed(s.pending, s.batch[1..], s.home, s.rqs)
  {
    hide RqAddressed;
  }

  /** After the pop: the lists of the state the handler leaves, whatever else it did. */
  lemma Popped(s: State, t: State)
    requires Inv(s) && s.batch != [] && CtlFits(s.batch[0], |s.rings|)
    requires t.pending == s.pending && t.batch == s.batch[1..] && t.home == s.home && t.rqs == s.rqs
    requires |t.rings| == |s.rings|
    ensures Shape(t) && Addressed(t.pending, t.batch, t.home, t.rqs)
    ensures var bh := s.batch[0];
            && (bh.StopWork? ==> Bags(t) == Bags(s) && StopWorks(s) == StopWorks(t) + 1)
            && (!bh.StopWork? ==> CountCtl(Bags(s)[bh.i], bh) >= 1 && StopWorks(t) == StopWorks(s)
                                  && Bags(t) == Bags(s)[bh.i := SubCtl(Bags(s)[bh.i], bh)])
  {
    hide MsgInv, WaitInv, PassInv, SessionInv, RefInv, MapInv, RingsInv, CountInv, Homed, RqAddressed, BagsOf, AddCtl,
         CountCtl, SubCtl;
    Open(s);
    BagsPopCtl(s.pending, s.batch, s.home, s.rqs);
    PopCtlAddressed(s);
    OccTail(s.batch, StopWork);
  }

  lemma StoppedOk(r: Ring, b: Bag, ft: nat, dt: nat)
    requires RingOk(r, b, ft, dt) && b.done.stopB >= 1
    ensures RingOk(AckStop(r), b.(done := b.done.(stopB := b.done.stopB - 1)), ft, dt) && StopsOwed(r) == 1
    ensures StopsOwed(AckStop(r)) == 0
    ensures AckStop(r) == r.(kickOpen := false, stops := AckStop(r).stops)
  {}

  lemma RingAt(rings: seq<Ring>, bags: seq<Bag>, pc: CtlPc, i: nat)
    requires RingsInv(rings, bags, pc) && i < |rings|
    ensures |bags| == |rings| && RingOk(rings[i], bags[i], Ft(pc, i), Dt(pc, i))
  {
    hide RingOk;
  }

  /** The state a handler reaches before asking whether the device is finished. */
  function Acked(s: State, i: nat, r: Ring, e: Dev): State
    requires s.batch != [] && i < |s.rings|
  {
    s.(batch := s.batch[1..], rings := s.rings[i := r], dev := e)
  }

  lemma SameReqs(refs: seq<int>, r: Ring, r': Ring)
    requires r'.queued == r.queued && r'.busy == r.busy
    ensures Moved(refs, refs, r, r')
  {}

  lemma AckDrainKeeps(r: Ring)
    ensures var r' := AckDrain(r);
            r'.queued == r.queued && r'.busy == r.busy && r'.startedRq == r.startedRq && !r'.onDrain
  {}

  lemma SameMap(mm: nat, oldMm: nat, d: Dev, e: Dev, rings: seq<Ring>, bags: seq<Bag>, pc: CtlPc, i: nat, r: Ring,
                b: Bag)
    requires |bags| == |rings| && i < |rings| && MapInv(mm, oldMm, d, rings, bags, pc)
    requires r.startedRq == rings[i].startedRq && r.mm == rings[i].mm && b.todo.syncs == bags[i].todo.syncs
    requires e.inFlight == d.inFlight
    ensures MapInv(mm, oldMm, e, rings[i := r], bags[i := b], pc)
  {}

  lemma StopSession(d: Dev, pc: CtlPc, works: nat)
    requires SessionInv(d, pc, works) && d.started > 0
    ensures SessionInv(d.(started := d.started - 1), pc, works)
  {}

  lemma StoppedCounts(d: Dev, rings: seq<Ring>, bags: seq<Bag>, pc: CtlPc, i: nat, c: Bag)
    requires RingsInv(rings, bags, pc) && CountInv(d, rings, bags, pc) && i < |rings|
    requires bags[i].done.stopB >= 1 && c == bags[i].(done := bags[i].done.(stopB := bags[i].done.stopB - 1))
    ensures d.started > 0
    ensures var t, u := rings[i := AckStop(rings[i])], bags[i := c];
            RingsInv(t, u, pc) && CountInv(d.(started := d.started - 1), t, u, pc)
  {
    hide RingOk, CountInv, RingsInv;
    RingAt(rings, bags, pc, i);
    StoppedOk(rings[i], bags[i], Ft(pc, i), Dt(pc, i));
    CountsAtLeast(d, rings, bags, pc, i);
    RingAndCounts(d, d.(started := d.started - 1), rings, bags, pc, pc, i, AckStop(rings[i]), c);
  }

  lemma StoppedAcked(s: State, i: nat)
    requires Inv(s) && s.pc.CtlIdle? && s.batch != [] && s.batch[0] == Stopped(i) && i < |s.rings|
    ensures s.dev.started > 0
    ensures Inv(Acked(s, i, AckStop(s.rings[i]), s.dev.(started := s.dev.started - 1)))
  {
    hide Homed, Bags, Addressed, StopWorks, CountInv, RefInv, MsgInv, WaitInv, PassInv, RingOk, SessionInv, MapInv,
         RingsInv, Moved, Empty;
    Open(s);
    var b, d, r := Bags(s), s.dev, AckStop(s.rings[i]);
    SameReqs(s.maps.refs, s.rings[i], r);
    var c := SubCtl(b[i], Stopped(i));
    Popped(s, Acked(s, i, r, d));
    StoppedCounts(d, s.rings, b, s.pc, i, c);
    var e := d.(started := d.started - 1);
    Popped(s, Acked(s, i, r, e));
    MsgFrame(d, e, s.maps.oldMm, s.rings, b, s.pc);
    OneWait(e, s.rings, s.pc, i, r);
    OnePass(e, s.rings, b, s.pc, i, r, c);
    OneRef(s.maps, s.maps, s.rings, i, r);
    SameMap(s.maps.mm, s.maps.oldMm, d, e, s.rings, b, s.pc, i, r, c);
    StopSession(d, s.pc, StopWorks(s));
    Close(Acked(s, i, AckStop(s.rings[i]), s.dev.(started := s.dev.started - 1)));
  }

  lemma StoppedRuns(s: State, ok: bool)
    requires Inv(s) && Enabled(s, CtlBhRun(ok)) && s.batch[0].Stopped?
    ensures Inv(Apply(s, CtlBhRun(ok)))
  {
    hide Inv, MaybeFinished;
    var i := s.batch[0].i;
    StoppedAcked(s, i);
    FinishKeeps(Acked(s, i, AckStop(s.rings[i]), s.dev.(started := s.dev.started - 1)));
  }

  lemma DrainedOk(r: Ring, b: Bag, ft: nat)
    requires RingOk(r, b, ft, 0) && b.done.drainB >= 1
    ensures RingOk(AckDrain(r), b.(done := b.done.(drainB := b.done.drainB - 1)), ft, 1)
    ensures RingOk(AckDrain(r).(inited := false), b.(done := b.done.(drainB := b.done.drainB - 1)), ft, 0)
    ensures DrainsOwed(r) == 1 && !r.startedRq && Empty(r) && r.startedCtl && r.inited
  {}

  /** The reply a drained ring sends, and the flags after it. */
  lemma DrainMsg(d: Dev, e: Dev, oldMm: nat, rings: seq<Ring>, bags: seq<Bag>, pc: CtlPc, i: nat, r: Ring, b: Bag,
                 ok: bool)
    requires |bags| == |rings| && i < |rings| && pc.CtlIdle?
    requires MsgInv(d, oldMm, pc) && WaitInv(d, rings, pc) && PassInv(d, rings, bags, pc)
    requires !r.onDrain && b.todo.starts + b.todo.fails <= bags[i].todo.starts + bags[i].todo.fails
    requires e == Reply(d, rings[i].onDrain, ok).(inFlight := e.inFlight)
    ensures MsgInv(e, oldMm, pc) && WaitInv(e, rings[i := r], pc) && PassInv(e, rings[i := r], bags[i := b], pc)
  {
    if e.req && !e.replyFailed && !BeingHandled(e, pc) {
      var j :| 0 <= j < |rings| && rings[j].onDrain;
      assert rings[i := r][j].onDrain;
    }
  }

  /** Dropping the connection in the middle of a handler. */
  lemma GoneMsg(d: Dev, e: Dev, oldMm: nat, rings: seq<Ring>, bags: seq<Bag>, pc: CtlPc, pc': CtlPc)
    requires |bags| == |rings| && pc.CtlIdle? && pc'.Disconnecting? && e == d.(conn := false, connAttached := false)
    requires MsgInv(d, oldMm, pc) && WaitInv(d, rings, pc) && PassInv(d, rings, bags, pc)
    ensures MsgInv(e, oldMm, pc') && WaitInv(e, rings, pc') && PassInv(e, rings, bags, pc')
  {}

  lemma DrainSession(d: Dev, e: Dev, pc: CtlPc, works: nat, due: bool, ok: bool)
    requires SessionInv(d, pc, works) && d.inFlight > 0 && pc.CtlIdle?
    requires e == Reply(d, due, ok).(inFlight := d.inFlight - 1)
    ensures SessionInv(e, pc, works)
    ensures e.handling == d.handling && e.started == d.started
  {}

  lemma GoneSession(d: Dev, e: Dev, pc: CtlPc, pc': CtlPc, works: nat)
    requires SessionInv(d, pc, works) && pc.CtlIdle? && pc'.Disconnecting? && d.conn && !e.conn
    requires d.connOpen == e.connOpen && d.listening == e.listening
    requires d.listenAttached == e.listenAttached && d.handling >= e.handling && d.started == e.started
    requires d.inFlight == e.inFlight
    requires d.stopAsked == e.stopAsked && d.work == e.work && d.released == e.released && d.aborted == e.aborted
    ensures SessionInv(e, pc', works)
  {}

  /** The dataplane's view of the maps when a ring that is not running changes. */
  lemma StillMap(mm: nat, oldMm: nat, d: Dev, e: Dev, rings: seq<Ring>, bags: seq<Bag>, pc: CtlPc, pc': CtlPc, i: nat,
                 r: Ring, b: Bag)
    requires |bags| == |rings| && i < |rings| && MapInv(mm, oldMm, d, rings, bags, pc) && !r.startedRq
    requires !pc.Syncing? && (e.inFlight > 0 ==> d.inFlight > 0)
    ensures MapInv(mm, oldMm, e, rings[i := r], bags[i := b], pc')
  {}

  function DrainReply(s: State, i: nat, ok: bool): Dev
    requires i < |s.rings|
  {
    Reply(s.dev, s.rings[i].onDrain, ok)
  }

  lemma DrainedCounts(d: Dev, rings: seq<Ring>, bags: seq<Bag>, pc: CtlPc, i: nat, c: Bag)
    requires RingsInv(rings, bags, pc) && CountInv(d, rings, bags, pc) && i < |rings| && pc.CtlIdle?
    requires bags[i].done.drainB >= 1 && c == bags[i].(done := bags[i].done.(drainB := bags[i].done.drainB - 1))
    ensures d.inFlight > 0 && !rings[i].startedRq
    ensures var t, u := rings[i := AckDrain(rings[i]).(inited := false)], bags[i := c];
            RingsInv(t, u, pc) && CountInv(d.(inFlight := d.inFlight - 1), t, u, pc)
  {
    hide RingOk, CountInv, RingsInv;
    RingAt(rings, bags, pc, i);
    DrainedOk(rings[i], bags[i], Ft(pc, i));
    CountsAtLeast(d, rings, bags, pc, i);
    RingAndCounts(d, d.(inFlight := d.inFlight - 1), rings, bags, pc, pc, i, AckDrain(rings[i]).(inited := false), c);
  }

  lemma DrainingCounts(d: Dev, rings: seq<Ring>, bags: seq<Bag>, pc: CtlPc, i: nat, c: Bag)
    requires RingsInv(rings, bags, pc) && CountInv(d, rings, bags, pc) && i < |rings| && pc.CtlIdle?
    requires bags[i].done.drainB >= 1 && c == bags[i].(done := bags[i].done.(drainB := bags[i].done.drainB - 1))
    ensures !rings[i].startedRq
    ensures var t, u, pc' := rings[i := AckDrain(rings[i])], bags[i := c], Disconnecting(0, DrainTail(i));
            RingsInv(t, u, pc') && CountInv(d, t, u, pc')
  {
    hide RingOk, CountInv, RingsInv;
    RingAt(rings, bags, pc, i);
    DrainedOk(rings[i], bags[i], Ft(pc, i));
    RingAndCounts(d, d, rings, bags, pc, Disconnecting(0, DrainTail(i)), i, AckDrain(rings[i]), c);
  }

  lemma DrainedAcked(s: State, i: nat, ok: bool)
    requires Inv(s) && s.pc.CtlIdle? && s.batch != [] && s.batch[0] == Drained(i) && i < |s.rings|
    ensures s.dev.inFlight > 0
    ensures Inv(Acked(s, i, AckDrain(s.rings[i]).(inited := false),
                      DrainReply(s, i, ok).(inFlight := s.dev.inFlight - 1)))
  {
    hide Homed, Bags, Addressed, StopWorks, CountInv, RefInv, MsgInv, WaitInv, PassInv, RingOk, SessionInv, MapInv,
         RingsInv, Moved, Empty,
         Reply, AckDrain;
    Open(s);
    var b, d, r := Bags(s), s.dev, AckDrain(s.rings[i]).(inited := false);
    AckDrainKeeps(s.rings[i]);
    SameReqs(s.maps.refs, s.rings[i], r);
    var c := SubCtl(b[i], Drained(i));
    Popped(s, Acked(s, i, r, d));
    DrainedCounts(d, s.rings, b, s.pc, i, c);
    var e := DrainReply(s, i, ok).(inFlight := d.inFlight - 1);
    Popped(s, Acked(s, i, r, e));
    DrainSession(d, e, s.pc, StopWorks(s), s.rings[i].onDrain, ok);
    CountFrame(d.(inFlight := d.inFlight - 1), e, s.rings[i := r], b[i := c], s.pc);
    DrainMsg(d, e, s.maps.oldMm, s.rings, b, s.pc, i, r, c, ok);
    OneRef(s.maps, s.maps, s.rings, i, r);
    StillMap(s.maps.mm, s.maps.oldMm, d, e, s.rings, b, s.pc, s.pc, i, r, c);
    Close(Acked(s, i, AckDrain(s.rings[i]).(inited := false), DrainReply(s, i, ok).(inFlight := s.dev.inFlight - 1)));
  }

  lemma DrainedGone(s: State, i: nat)
    requires Inv(s) && s.pc.CtlIdle? && s.batch != [] && s.batch[0] == Drained(i) && i < |s.rings|
    requires s.rings[i].onDrain && s.dev.conn
    ensures Inv(Disconnect(Acked(s, i, AckDrain(s.rings[i]), DrainReply(s, i, false)), DrainTail(i)))
  {
    hide Homed, Bags, Addressed, StopWorks, CountInv, RefInv, MsgInv, WaitInv, PassInv, RingOk, SessionInv, MapInv,
         RingsInv, Moved, Empty;
    Open(s);
    var b, d, r := Bags(s), s.dev, AckDrain(s.rings[i]);
    SameReqs(s.maps.refs, s.rings[i], r);
    var a, c := Disconnect(Acked(s, i, r, DrainReply(s, i, false)), DrainTail(i)), SubCtl(b[i], Drained(i));
    var e := a.dev;
    Popped(s, a);
    DrainingCounts(d, s.rings, b, s.pc, i, c);
    CountFrame(d, e, a.rings, b[i := c], a.pc);
    DrainMsg(d, DrainReply(s, i, false), s.maps.oldMm, s.rings, b, s.pc, i, r, c, false);
    GoneMsg(DrainReply(s, i, false), e, s.maps.oldMm, a.rings, b[i := c], s.pc, a.pc);
    GoneSession(d, e, s.pc, a.pc, StopWorks(s));
    OneRef(s.maps, s.maps, s.rings, i, r);
    StillMap(s.maps.mm, s.maps.oldMm, d, e, s.rings, b, s.pc, a.pc, i, r, c);
    Close(Disconnect(Acked(s, i, AckDrain(s.rings[i]), DrainReply(s, i, false)), DrainTail(i)));
  }

  lemma DrainedRuns(s: State, ok: bool)
    requires Inv(s) && Enabled(s, CtlBhRun(ok)) && s.batch[0].Drained?
    ensures Inv(Apply(s, CtlBhRun(ok)))
  {
    hide Inv, MaybeFinished;
    var i := s.batch[0].i;
    if s.rings[i].onDrain && !ok && s.dev.conn {
      DrainedGone(s, i);
    } else {
      DrainedAcked(s, i, ok);
      var a := Acked(s, i, AckDrain(s.rings[i]).(inited := false),
                     DrainReply(s, i, ok).(inFlight := s.dev.inFlight - 1));
      FinishKeeps(a);
      assert s.rings[i := AckDrain(s.rings[i])][i := AckDrain(s.rings[i]).(inited := false)]
          == s.rings[i := AckDrain(s.rings[i]).(inited := false)];
      assert Apply(s, CtlBhRun(ok)) == MaybeFinished(a);
    }
  }

  // ----- the message is handled in one more ring

  ghost predicate NoTokens(bags: seq<Bag>) {
    forall j :: 0 <= j < |bags| ==> Tokens(bags[j]) == 0
  }

  lemma TokensZero(bags: seq<Bag>)
    requires Sum(bags, Tokens) == 0
    ensures NoTokens(bags)
  {
    forall j | 0 <= j < |bags| ensures Tokens(bags[j]) == 0 {
      TokensBounds(bags);
      SumAtLeast(bags, j, Tokens);
    }
  }

  lemma HandledMsg(d: Dev, m: Maps, rings: seq<Ring>, bags: seq<Bag>, bags': seq<Bag>, pc: CtlPc, ok: bool)
    requires |bags| == |rings| == |bags'| && pc.CtlIdle? && d.handling > 0
    requires MsgInv(d, m.oldMm, pc) && WaitInv(d, rings, pc) && PassInv(d, rings, bags, pc)
    requires forall j :: 0 <= j < |bags| ==>
               bags'[j].todo.starts + bags'[j].todo.fails <= bags[j].todo.starts + bags[j].todo.fails
    requires d.handling == 1 ==> NoTokens(bags')
    ensures var e := HandledDev(d, ok);
            && MsgInv(e, HandledMaps(m, d).oldMm, pc) && WaitInv(e, rings, pc) && PassInv(e, rings, bags', pc)
            && e.started == d.started && e.inFlight == d.inFlight && e.handling == d.handling - 1
  {}

  lemma HandledSession(d: Dev, pc: CtlPc, works: nat, ok: bool)
    requires SessionInv(d, pc, works) && d.handling > 0
    ensures SessionInv(HandledDev(d, ok), pc, works)
  {}

  lemma HandledMap(d: Dev, m: Maps, rings: seq<Ring>, bags: seq<Bag>, bags': seq<Bag>, pc: CtlPc, ok: bool)
    requires |bags| == |rings| == |bags'| && pc.CtlIdle? && d.handling > 0
    requires MapInv(m.mm, m.oldMm, d, rings, bags, pc)
    requires forall j :: 0 <= j < |bags| ==> bags'[j].todo.syncs == bags[j].todo.syncs
    requires d.handling == 1 ==> NoTokens(bags')
    ensures MapInv(m.mm, HandledMaps(m, d).oldMm, HandledDev(d, ok), rings, bags', pc)
  {}

  lemma HandledRef(d: Dev, m: Maps, rings: seq<Ring>)
    requires RefInv(m, rings)
    ensures RefInv(HandledMaps(m, d), rings) && HandledMaps(m, d).mm == m.mm
  {}

  lemma MsgHandledOk(r: Ring, b: Bag, ft: nat, dt: nat)
    requires RingOk(r, b, ft, dt) && b.todo.acks >= 1
    ensures RingOk(r, b.(todo := b.todo.(acks := b.todo.acks - 1)), ft, dt)
  {}

  lemma MsgHandledCounts(d: Dev, e: Dev, rings: seq<Ring>, bags: seq<Bag>, pc: CtlPc, i: nat, c: Bag)
    requires RingsInv(rings, bags, pc) && CountInv(d, rings, bags, pc) && i < |rings|
    requires bags[i].todo.acks >= 1 && c == bags[i].(todo := bags[i].todo.(acks := bags[i].todo.acks - 1))
    ensures d.handling > 0
    ensures e.handling == d.handling - 1 && e.started == d.started && e.inFlight == d.inFlight ==>
              RingsInv(rings, bags[i := c], pc) && CountInv(e, rings, bags[i := c], pc)
    ensures d.handling == 1 ==> NoTokens(bags[i := c])
  {
    CountsAtLeast(d, rings, bags, pc, i);
    RingAt(rings, bags, pc, i);
    MsgHandledOk(rings[i], bags[i], Ft(pc, i), Dt(pc, i));
    hide RingOk, RingsInv;
    assert rings[i := rings[i]] == rings;
    var f := d.(handling := d.handling - 1);
    RingAndCounts(d, f, rings, bags, pc, pc, i, rings[i], c);
    if d.handling == 1 { TokensZero(bags[i := c]); }
  }

  lemma MsgHandledKeeps(s: State, i: nat, ok: bool)
    requires Inv(s) && s.pc.CtlIdle? && s.batch != [] && s.batch[0] == MsgHandled(i) && i < |s.rings|
    ensures Inv(MarkMsgHandled(s.(batch := s.batch[1..]), ok))
  {
    hide Homed, Bags, Addressed, StopWorks, CountInv, RefInv, MsgInv, WaitInv, PassInv, RingOk, SessionInv, MapInv,
         RingsInv, Moved, Empty, HandledDev, HandledMaps;
    Open(s);
    var b, d, t := Bags(s), s.dev, MarkMsgHandled(s.(batch := s.batch[1..]), ok);
    var c := SubCtl(b[i], MsgHandled(i));
    Popped(s, t);
    MsgHandledCounts(d, t.dev, s.rings, b, s.pc, i, c);
    HandledMsg(d, s.maps, s.rings, b, b[i := c], s.pc, ok);
    HandledSession(d, s.pc, StopWorks(s), ok);
    HandledMap(d, s.maps, s.rings, b, b[i := c], s.pc, ok);
    HandledRef(d, s.maps, s.rings);
    Close(MarkMsgHandled(s.(batch := s.batch[1..]), ok));
  }

  /** Entering vdev_disconnect at the end of a handler. */
  lemma GoneKeeps(s: State)
    requires Inv(s) && s.pc.CtlIdle? && s.dev.conn
    ensures Inv(Disconnect(s, Finish))
  {
    hide Homed, Bags, Addressed, StopWorks, RefInv, MsgInv, WaitInv, PassInv, RingOk, SessionInv, Moved, Empty;
    Open(s);
    var t := Disconnect(s, Finish);
    SameLists(s, t);
    GoneMsg(s.dev, t.dev, s.maps.oldMm, s.rings, Bags(s), s.pc, t.pc);
    GoneSession(s.dev, t.dev, s.pc, t.pc, StopWorks(s));
    Close(Disconnect(s, Finish));
  }

  lemma MsgHandledRuns(s: State, ok: bool)
    requires Inv(s) && Enabled(s, CtlBhRun(ok)) && s.batch[0].MsgHandled?
    ensures Inv(Apply(s, CtlBhRun(ok)))
  {
    hide Inv;
    MsgHandledKeeps(s, s.batch[0].i, ok);
    var b := MarkMsgHandled(s.(batch := s.batch[1..]), ok);
    if b.dev.handling == 0 && !ok && b.dev.conn {
      GoneKeeps(b);
    }
  }

  // ----- a start that failed

  function AckFail(r: Ring): Ring {
    AckDrain(AckStop(r)).(inited := false)
  }

  lemma FailedOk(r: Ring, b: Bag)
    requires RingOk(r, b, 0, 0) && b.todo.fails >= 1 && !r.onDrain
    ensures RingOk(r, b.(todo := b.todo.(fails := b.todo.fails - 1)), 1, 0)
    ensures RingOk(AckFail(r), b.(todo := b.todo.(fails := b.todo.fails - 1)), 0, 0)
    ensures StopsOwed(r) == 1 && DrainsOwed(r) == 1 && StopsOwed(AckFail(r)) == 0 && DrainsOwed(AckFail(r)) == 0
  {}

  lemma TailOk(r: Ring, b: Bag)
    requires RingOk(r, b, 1, 0)
    ensures RingOk(AckFail(r), b, 0, 0)
    ensures StopsOwed(r) == 1 && DrainsOwed(r) == 1 && StopsOwed(AckFail(r)) == 0 && DrainsOwed(AckFail(r)) == 0
    ensures !r.startedRq && !r.onDrain
  {}

  lemma AckFailKeeps(r: Ring)
    ensures var r' := AckFail(r);
            r'.queued == r.queued && r'.busy == r.busy && r'.startedRq == r.startedRq && !r'.onDrain
  {}

  /** While its start is outstanding a ring answers no other message. */
  lemma NotWaiting(d: Dev, rings: seq<Ring>, pc: CtlPc, i: nat)
    requires WaitInv(d, rings, pc) && i < |rings| && BeingHandled(d, pc)
    ensures !rings[i].onDrain
  {}

  /** With the connection dropped, the rest of the failed start waits for the rings to be told. */
  lemma FailedCounts(d: Dev, e: Dev, rings: seq<Ring>, bags: seq<Bag>, pc: CtlPc, i: nat, c: Bag)
    requires RingsInv(rings, bags, pc) && CountInv(d, rings, bags, pc) && i < |rings| && pc.CtlIdle?
    requires bags[i].todo.fails >= 1 && c == bags[i].(todo := bags[i].todo.(fails := bags[i].todo.fails - 1))
    requires !rings[i].onDrain
    ensures d.handling > 0 && d.started > 0 && d.inFlight > 0
    ensures d.handling == 1 ==> NoTokens(bags[i := c])
    ensures e.handling == d.handling - 1 && e.started == d.started && e.inFlight == d.inFlight ==>
              var pc' := Disconnecting(0, FailedTail(i));
              RingsInv(rings, bags[i := c], pc') && CountInv(e, rings, bags[i := c], pc')
    ensures e.handling == d.handling - 1 && e.started == d.started - 1 && e.inFlight == d.inFlight - 1 ==>
              var t := rings[i := AckFail(rings[i])];
              RingsInv(t, bags[i := c], pc) && CountInv(e, t, bags[i := c], pc)
  {
    CountsAtLeast(d, rings, bags, pc, i);
    RingAt(rings, bags, pc, i);
    FailedOk(rings[i], bags[i]);
    hide RingOk, RingsInv;
    assert rings[i := rings[i]] == rings;
    var f := d.(handling := d.handling - 1);
    RingAndCounts(d, f, rings, bags, pc, Disconnecting(0, FailedTail(i)), i, rings[i], c);
    RingAndCounts(d, f.(started := d.started - 1, inFlight := d.inFlight - 1), rings, bags, pc, pc, i,
                  AckFail(rings[i]), c);
    if d.handling == 1 { TokensZero(bags[i := c]); }
  }

  /** What is left of the handler, with the ring acknowledged at once. */
  function FailAcked(s: State, i: nat): State
    requires i < |s.rings|
  {
    s.(rings := s.rings[i := AckFail(s.rings[i])],
       dev := s.dev.(started := Dec(s.dev.started), inFlight := Dec(s.dev.inFlight)))
  }

  lemma StillInUse(s: State)
    requires InUse(s.dev)
    ensures MaybeFinished(s) == s.(dev := WorkDone(s.dev))
  {
    hide Cleanup;
  }

  lemma WorkThen(d: Dev, n: nat)
    ensures WorkDone(d).(inFlight := n) == WorkDone(d.(inFlight := n)) && WorkDone(d).inFlight == d.inFlight
  {}

  function Worked(s: State): State {
    s.(dev := WorkDone(s.dev))
  }

  lemma NoReply(s: State, i: nat, ok: bool)
    requires i < |s.rings| && !s.rings[i].onDrain
    ensures DrainFront(s, i, ok) == SetRing(s, i, AckDrain(s.rings[i]))
  {
    hide AckDrain;
    assert Reply(s.dev, false, ok) == s.dev;
  }

  lemma StopAckWaits(r: Ring)
    ensures AckStop(r).onDrain == r.onDrain
  {}

  lemma SetTwice(s: State, i: nat, r: Ring, r': Ring)
    requires i < |s.rings|
    ensures SetRing(SetRing(s, i, r), i, r') == SetRing(s, i, r') && SetRing(s, i, r).rings[i] == r
  {
    assert s.rings[i := r][i := r'] == s.rings[i := r'];
  }

  lemma FailFrontIs(s: State, i: nat)
    requires i < |s.rings| && s.dev.inFlight > 0 && !s.rings[i].onDrain
    ensures DrainFront(MarkStopped(s, i), i, true)
         == SetRing(s, i, AckDrain(AckStop(s.rings[i]))).(dev := WorkDone(s.dev.(started := Dec(s.dev.started))))
  {
    hide MaybeFinished, WorkDone, AckStop, AckDrain, DrainFront, Dec, MarkStopped;
    var r, d := s.rings[i], s.dev.(started := Dec(s.dev.started));
    MarkStoppedIs(s, i);
    StopAckWaits(r);
    NoReply(SetRing(s, i, AckStop(r)).(dev := WorkDone(d)), i, true);
    SetTwice(s, i, AckStop(r), AckDrain(AckStop(r)));
  }

  /** No cleanup happens between the two acknowledgements of a failed start. */
  lemma FailTailIs(s: State, i: nat)
    requires i < |s.rings| && s.dev.inFlight > 0 && !s.rings[i].onDrain
    ensures FailTail(s, i) == MaybeFinished(Worked(FailAcked(s, i)))
  {
    hide MaybeFinished, WorkDone, AckStop, AckDrain, DrainFront, Dec, DrainBack, MarkStopped;
    var r, d := s.rings[i], s.dev.(started := Dec(s.dev.started));
    var b := SetRing(s, i, AckDrain(AckStop(r))).(dev := WorkDone(d));
    FailFrontIs(s, i);
    assert FailTail(s, i) == DrainBack(b, i);
    DrainBackIs(b, i);
    FailAckedIs(s, i);
  }

  lemma FailAckedIs(s: State, i: nat)
    requires i < |s.rings|
    ensures var d := s.dev.(started := Dec(s.dev.started));
            var b := SetRing(s, i, AckDrain(AckStop(s.rings[i]))).(dev := WorkDone(d));
            SetRing(b, i, b.rings[i].(inited := false)).(dev := b.dev.(inFlight := Dec(b.dev.inFlight)))
            == Worked(FailAcked(s, i))
  {
    hide WorkDone, AckStop, AckDrain, Dec;
    var r, d := s.rings[i], s.dev.(started := Dec(s.dev.started));
    WorkThen(d, Dec(s.dev.inFlight));
    SetTwice(s, i, AckDrain(AckStop(r)), AckFail(r));
  }

  lemma MarkStoppedIs(s: State, i: nat)
    requires i < |s.rings| && s.dev.inFlight > 0
    ensures MarkStopped(s, i)
            == SetRing(s, i, AckStop(s.rings[i])).(dev := WorkDone(s.dev.(started := Dec(s.dev.started))))
  {
    hide MaybeFinished, WorkDone, AckStop, Dec;
    StillInUse(SetRing(s, i, AckStop(s.rings[i])).(dev := s.dev.(started := Dec(s.dev.started))));
  }

  lemma DrainBackIs(s: State, i: nat)
    requires i < |s.rings|
    ensures DrainBack(s, i)
         == MaybeFinished(SetRing(s, i, s.rings[i].(inited := false)).(dev := s.dev.(inFlight := Dec(s.dev.inFlight))))
  {
    hide MaybeFinished;
  }

  lemma TailMsg(d: Dev, e: Dev, oldMm: nat, rings: seq<Ring>, bags: seq<Bag>, pc: CtlPc, pc': CtlPc, i: nat, r: Ring)
    requires |bags| == |rings| && i < |rings| && SameMsg(d, e) && !pc.Syncing? && !pc'.Syncing?
    requires MsgInv(d, oldMm, pc) && WaitInv(d, rings, pc) && PassInv(d, rings, bags, pc)
    requires !r.onDrain && !rings[i].onDrain
    ensures MsgInv(e, oldMm, pc') && WaitInv(e, rings[i := r], pc') && PassInv(e, rings[i := r], bags, pc')
  {
    if e.req && !e.replyFailed && !BeingHandled(e, pc') {
      var j :| 0 <= j < |rings| && rings[j].onDrain;
      assert rings[i := r][j].onDrain;
    }
  }

  lemma TailSession(d: Dev, e: Dev, pc: CtlPc, pc': CtlPc, works: nat)
    requires SessionInv(d, pc, works) && d.inFlight > 0 && pc'.CtlIdle?
    requires e == d.(started := Dec(d.started), inFlight := Dec(d.inFlight)) || e == d.(inFlight := Dec(d.inFlight))
    ensures SessionInv(e, pc', works)
  {}

  function FailedMsg(s: State, ok: bool): State
    requires s.batch != []
  {
    MarkMsgHandled(s.(batch := s.batch[1..]), ok)
  }

  lemma JustAcked(d: Dev, rings: seq<Ring>, bags: seq<Bag>, pc: CtlPc, i: nat)
    requires |bags| == |rings| && PassInv(d, rings, bags, pc) && i < |bags| && bags[i].todo.fails >= 1
    ensures d.completion.JustAck?
  {}

  /** The parts of the invariant that a failed start keeps whether or not the reply gets through. */
  lemma StartFailedMsg(s: State, i: nat, ok: bool)
    requires Inv(s) && s.pc.CtlIdle? && s.batch != [] && s.batch[0] == StartFailed(i) && i < |s.rings|
    ensures s.dev.inFlight > 0 && s.dev.started > 0 && s.dev.handling > 0 && !s.rings[i].onDrain
    ensures s.dev.completion.JustAck?
    ensures !s.rings[i].startedRq
    ensures var a, c := FailedMsg(s, ok), SubCtl(Bags(s)[i], StartFailed(i));
            var u := Bags(s)[i := c];
            && a.dev.handling == s.dev.handling - 1 && a.dev.started == s.dev.started
            && a.dev.inFlight == s.dev.inFlight
            && MsgInv(a.dev, a.maps.oldMm, s.pc) && WaitInv(a.dev, s.rings, s.pc) && PassInv(a.dev, s.rings, u, s.pc)
            && SessionInv(a.dev, s.pc, StopWorks(s))
            && MapInv(a.maps.mm, a.maps.oldMm, a.dev, s.rings, u, s.pc) && RefInv(a.maps, s.rings)
  {
    hide Homed, Bags, Addressed, StopWorks, CountInv, RefInv, MsgInv, WaitInv, PassInv, RingOk, SessionInv, MapInv,
         RingsInv, Moved, Empty, HandledDev, HandledMaps, AckFail, NoTokens;
    Open(s);
    var b, d := Bags(s), s.dev;
    var a, c := FailedMsg(s, ok), SubCtl(b[i], StartFailed(i));
    Popped(s, a);
    CountsAtLeast(d, s.rings, b, s.pc, i);
    NotRunning(s.rings, b, s.pc, i);
    NotWaiting(d, s.rings, s.pc, i);
    FailedCounts(d, d, s.rings, b, s.pc, i, c);
    JustAcked(d, s.rings, b, s.pc, i);
    HandledMsg(d, s.maps, s.rings, b, b[i := c], s.pc, ok);
    HandledSession(d, s.pc, StopWorks(s), ok);
    HandledMap(d, s.maps, s.rings, b, b[i := c], s.pc, ok);
    HandledRef(d, s.maps, s.rings);
  }

  lemma NotRunning(rings: seq<Ring>, bags: seq<Bag>, pc: CtlPc, i: nat)
    requires RingsInv(rings, bags, pc) && i < |rings| && (bags[i].todo.starts + bags[i].todo.fails > 0)
    ensures !rings[i].startedRq
  {}

  lemma StartFailedAcked(s: State, i: nat, ok: bool)
    requires Inv(s) && s.pc.CtlIdle? && s.batch != [] && s.batch[0] == StartFailed(i) && i < |s.rings|
    ensures Inv(FailAcked(FailedMsg(s, ok), i))
  {
    hide Homed, Bags, Addressed, StopWorks, CountInv, RefInv, MsgInv, WaitInv, PassInv, RingOk, SessionInv, MapInv,
         RingsInv, Moved, Empty, HandledDev, HandledMaps, AckFail, NoTokens;
    Open(s);
    var b, d, r := Bags(s), s.dev, AckFail(s.rings[i]);
    var a, c := FailedMsg(s, ok), SubCtl(b[i], StartFailed(i));
    StartFailedMsg(s, i, ok);
    var t := FailAcked(a, i);
    Popped(s, t);
    AckFailKeeps(s.rings[i]);
    SameReqs(a.maps.refs, s.rings[i], r);
    FailedCounts(d, t.dev, s.rings, b, s.pc, i, c);
    assert b[i := c][i := c] == b[i := c];
    TailMsg(a.dev, t.dev, a.maps.oldMm, s.rings, b[i := c], s.pc, s.pc, i, r);
    TailSession(a.dev, t.dev, s.pc, s.pc, StopWorks(s));
    OneRef(a.maps, a.maps, s.rings, i, r);
    StillMap(a.maps.mm, a.maps.oldMm, a.dev, t.dev, s.rings, b[i := c], s.pc, s.pc, i, r, c);
    Close(FailAcked(FailedMsg(s, ok), i));
  }

  lemma StartFailedGone(s: State, i: nat, ok: bool)
    requires Inv(s) && s.pc.CtlIdle? && s.batch != [] && s.batch[0] == StartFailed(i) && i < |s.rings|
    requires FailedMsg(s, ok).dev.conn
    ensures Inv(Disconnect(FailedMsg(s, ok), FailedTail(i)))
  {
    hide Homed, Bags, Addressed, StopWorks, CountInv, RefInv, MsgInv, WaitInv, PassInv, RingOk, SessionInv, MapInv,
         RingsInv, Moved, Empty, HandledDev, HandledMaps, AckFail, NoTokens;
    Open(s);
    var b, d := Bags(s), s.dev;
    var a, c := FailedMsg(s, ok), SubCtl(b[i], StartFailed(i));
    StartFailedMsg(s, i, ok);
    var t := Disconnect(a, FailedTail(i));
    Popped(s, t);
    FailedCounts(d, t.dev, s.rings, b, s.pc, i, c);
    GoneMsg(a.dev, t.dev, a.maps.oldMm, s.rings, b[i := c], s.pc, t.pc);
    GoneSession(a.dev, t.dev, s.pc, t.pc, StopWorks(s));
    GoneMap(a.maps.mm, a.maps.oldMm, a.dev, t.dev, s.rings, b[i := c], s.pc, t.pc);
    Close(Disconnect(FailedMsg(s, ok), FailedTail(i)));
  }

  lemma GoneMap(mm: nat, oldMm: nat, d: Dev, e: Dev, rings: seq<Ring>, bags: seq<Bag>, pc: CtlPc, pc': CtlPc)
    requires |bags| == |rings| && MapInv(mm, oldMm, d, rings, bags, pc) && !pc.Syncing? && d.inFlight == e.inFlight
    ensures MapInv(mm, oldMm, e, rings, bags, pc')
  {}

  lemma StartFailedRuns(s: State, ok: bool)
    requires Inv(s) && Enabled(s, CtlBhRun(ok)) && s.batch[0].StartFailed?
    ensures Inv(Apply(s, CtlBhRun(ok)))
  {
    hide Inv, MaybeFinished, FailTail, HandledDev, HandledMaps, FailAcked;
    var i := s.batch[0].i;
    StartFailedMsg(s, i, ok);
    assert s.dev.(completion := JustAck) == s.dev;
    var b := FailedMsg(s, ok);
    if b.dev.handling == 0 && !ok && b.dev.conn {
      StartFailedGone(s, i, ok);
    } else {
      StartFailedAcked(s, i, ok);
      FailTailIs(b, i);
      IdleAcked(b, i);
      WorkDoneKeeps(FailAcked(b, i));
      FinishKeeps(Worked(FailAcked(b, i)));
    }
  }

  lemma IdleAcked(s: State, i: nat)
    requires i < |s.rings|
    ensures FailAcked(s, i).pc == s.pc
  {}

  // ----- the stop work

  function Stopping(d: Dev): Dev {
    d.(listening := false, listenAttached := false, work := true)
  }

  lemma StopWorkSession(d: Dev, e: Dev, pc: CtlPc, pc': CtlPc, works: nat)
    requires SessionInv(d, pc, works) && works == 1 && pc.CtlIdle? && !pc'.Syncing?
    requires !e.conn && !e.listening && !e.listenAttached && e.work && e.stopAsked == d.stopAsked
    requires e.released == d.released
    requires e.connOpen == d.connOpen && e.handling == d.handling && e.started == d.started && e.inFlight == d.inFlight
    requires e.req == d.req && e.aborted == d.aborted
    requires pc'.Disconnecting? ==> d.conn
    ensures SessionInv(e, pc', 0)
  {}

  lemma OneStopWork(d: Dev, pc: CtlPc, works: nat)
    requires SessionInv(d, pc, works)
    ensures works <= 1
  {}

  lemma StopWorkAlone(s: State)
    requires Inv(s) && s.pc.CtlIdle? && s.batch != [] && s.batch[0].StopWork? && !s.dev.conn
    ensures Inv(s.(batch := s.batch[1..], dev := Stopping(s.dev)))
  {
    hide Homed, Bags, Addressed, StopWorks, CountInv, RefInv, MsgInv, WaitInv, PassInv, RingOk, SessionInv, MapInv,
         RingsInv, Moved, Empty;
    Open(s);
    var t, d := s.(batch := s.batch[1..], dev := Stopping(s.dev)), s.dev;
    Popped(s, t);
    OneStopWork(d, s.pc, StopWorks(s));
    StopWorkSession(d, t.dev, s.pc, s.pc, StopWorks(s));
    MsgFrame(d, t.dev, s.maps.oldMm, s.rings, Bags(s), s.pc);
    CountFrame(d, t.dev, s.rings, Bags(s), s.pc);
    GoneMap(s.maps.mm, s.maps.oldMm, d, t.dev, s.rings, Bags(s), s.pc, s.pc);
    Close(s.(batch := s.batch[1..], dev := Stopping(s.dev)));
  }

  lemma StopWorkGone(s: State)
    requires Inv(s) && s.pc.CtlIdle? && s.batch != [] && s.batch[0].StopWork? && s.dev.conn
    ensures Inv(Disconnect(s.(batch := s.batch[1..], dev := Stopping(s.dev)), Finish))
  {
    hide Homed, Bags, Addressed, StopWorks, CountInv, RefInv, MsgInv, WaitInv, PassInv, RingOk, SessionInv, MapInv,
         RingsInv, Moved, Empty;
    Open(s);
    var t, d, b := Disconnect(s.(batch := s.batch[1..], dev := Stopping(s.dev)), Finish), s.dev, Bags(s);
    var f := d.(conn := false, connAttached := false);
    Popped(s, t);
    OneStopWork(d, s.pc, StopWorks(s));
    StopWorkSession(d, t.dev, s.pc, t.pc, StopWorks(s));
    GoneMsg(d, f, s.maps.oldMm, s.rings, b, s.pc, t.pc);
    MsgFrame(f, t.dev, s.maps.oldMm, s.rings, b, t.pc);
    GoneCounts(d, t.dev, s.rings, b, s.pc, t.pc);
    GoneMap(s.maps.mm, s.maps.oldMm, d, t.dev, s.rings, b, s.pc, t.pc);
    Close(Disconnect(s.(batch := s.batch[1..], dev := Stopping(s.dev)), Finish));
  }

  /** Counters and rings as the control loop moves between places that owe no ring anything. */
  lemma GoneCounts(d: Dev, e: Dev, rings: seq<Ring>, bags: seq<Bag>, pc: CtlPc, pc': CtlPc)
    requires RingsInv(rings, bags, pc) && CountInv(d, rings, bags, pc)
    requires e.handling == d.handling && e.started == d.started && e.inFlight == d.inFlight
    requires (pc.Disconnecting? ==> pc.after.Finish?) && (pc'.Disconnecting? ==> pc'.after.Finish?)
    ensures RingsInv(rings, bags, pc') && CountInv(e, rings, bags, pc')
  {
    hide RingOk;
  }

  lemma StopWorkRuns(s: State, ok: bool)
    requires Inv(s) && Enabled(s, CtlBhRun(ok)) && s.batch[0].StopWork?
    ensures Inv(Apply(s, CtlBhRun(ok)))
  {
    hide Inv, MaybeFinished;
    if s.dev.conn {
      StopWorkGone(s);
    } else {
      StopWorkAlone(s);
      FinishKeeps(s.(batch := s.batch[1..], dev := Stopping(s.dev)));
    }
  }

  // ----- telling every ring of a disconnect

  lemma ToldOk(r: Ring, b: Bag, ft: nat, dt: nat)
    requires RingOk(r, b, ft, dt)
    ensures RingOk(r.(disconnecting := true), b, ft, dt)
  {}

  lemma MapAt(mm: nat, oldMm: nat, d: Dev, rings: seq<Ring>, bags: seq<Bag>, pc: CtlPc, i: nat)
    requires |bags| == |rings| && MapInv(mm, oldMm, d, rings, bags, pc) && i < |rings| && rings[i].startedRq
    ensures rings[i].mm != 0 && (rings[i].mm == mm || (rings[i].mm == oldMm && OwesSync(bags[i], pc, i)))
  {}

  lemma TellRing(s: State)
    requires Inv(s) && s.pc.Disconnecting? && At(s, s.pc.k)
    ensures Inv(DisconnectRing(s, s.pc.k).(pc := s.pc))
  {
    hide Homed, Bags, Addressed, StopWorks, CountInv, RefInv, MsgInv, WaitInv, PassInv, RingOk, SessionInv, MapInv,
         RingsInv, Moved, Empty, OwesSync;
    Open(s);
    var k, b := s.pc.k, Bags(s);
    var r, t := s.rings[k].(disconnecting := true), DisconnectRing(s, k).(pc := s.pc);
    if s.rings[k].startedCtl {
      MaybePosted(s, t, Stop(k), true);
      SameReqs(s.maps.refs, s.rings[k], r);
      RingAt(s.rings, b, s.pc, k);
      ToldOk(s.rings[k], b[k], Ft(s.pc, k), Dt(s.pc, k));
      if r.startedRq { MapAt(s.maps.mm, s.maps.oldMm, s.dev, s.rings, b, s.pc, k); }
      DataplaneKeeps(s, t, k, r, b[k]);
    } else {
      assert t == s;
    }
  }

  lemma SameRings(rings: seq<Ring>, bags: seq<Bag>, pc: CtlPc, pc': CtlPc)
    requires RingsInv(rings, bags, pc) && pc.Disconnecting? && pc'.Disconnecting? && pc.after == pc'.after
    ensures RingsInv(rings, bags, pc')
  {
    hide RingOk;
  }

  lemma TellNext(s: State)
    requires Inv(s) && s.pc.Disconnecting? && s.pc.k < |s.rings|
    ensures Inv(s.(pc := Disconnecting(s.pc.k + 1, s.pc.after)))
  {
    hide Homed, Bags, Addressed, StopWorks, RefInv, RingOk, RingsInv, Moved, Empty;
    Open(s);
    var t := s.(pc := Disconnecting(s.pc.k + 1, s.pc.after));
    SameLists(s, t);
    SameRings(s.rings, Bags(s), s.pc, t.pc);
    Close(s.(pc := Disconnecting(s.pc.k + 1, s.pc.after)));
  }

  lemma TellKeeps(s: State)
    requires Inv(s) && s.pc.Disconnecting? && At(s, s.pc.k)
    ensures Inv(DisconnectRing(s, s.pc.k))
  {
    hide Inv;
    TellRing(s);
    TellNext(DisconnectRing(s, s.pc.k).(pc := s.pc));
  }

  lemma EndFinish(s: State)
    requires Inv(s) && s.pc.Disconnecting? && s.pc.after.Finish?
    ensures Inv(s.(pc := CtlIdle))
  {
    hide Homed, Bags, Addressed, StopWorks, RefInv, RingOk, RingsInv, CountInv, Moved, Empty;
    Open(s);
    var t := s.(pc := CtlIdle);
    SameLists(s, t);
    GoneCounts(s.dev, s.dev, s.rings, Bags(s), s.pc, t.pc);
    Close(s.(pc := CtlIdle));
  }

  lemma FailTailCounts(d: Dev, e: Dev, rings: seq<Ring>, bags: seq<Bag>, pc: CtlPc, i: nat)
    requires RingsInv(rings, bags, pc) && CountInv(d, rings, bags, pc) && i < |rings|
    requires pc.Disconnecting? && pc.after == FailedTail(i)
    ensures d.started > 0 && d.inFlight > 0 && !rings[i].onDrain && !rings[i].startedRq
    ensures e.handling == d.handling && e.started == d.started - 1 && e.inFlight == d.inFlight - 1 ==>
              var t := rings[i := AckFail(rings[i])];
              RingsInv(t, bags, CtlIdle) && CountInv(e, t, bags, CtlIdle)
  {
    CountsAtLeast(d, rings, bags, pc, i);
    RingAt(rings, bags, pc, i);
    TailOk(rings[i], bags[i]);
    hide RingOk, RingsInv;
    assert bags[i := bags[i]] == bags;
    RingAndCounts(d, d.(started := d.started - 1, inFlight := d.inFlight - 1), rings, bags, pc, CtlIdle, i,
                  AckFail(rings[i]), bags[i]);
  }

  lemma EndFailTail(s: State, i: nat)
    requires Inv(s) && s.pc.Disconnecting? && s.pc.after == FailedTail(i)
    ensures i < |s.rings| && s.dev.inFlight > 0 && !s.rings[i].onDrain
    ensures Inv(FailAcked(s.(pc := CtlIdle), i))
  {
    hide Homed, Bags, Addressed, StopWorks, CountInv, RefInv, MsgInv, WaitInv, PassInv, RingOk, SessionInv, MapInv,
         RingsInv, Moved, Empty, AckFail;
    Open(s);
    var t, r, b := FailAcked(s.(pc := CtlIdle), i), AckFail(s.rings[i]), Bags(s);
    AckFailKeeps(s.rings[i]);
    SameReqs(s.maps.refs, s.rings[i], r);
    SameLists(s, t);
    FailTailCounts(s.dev, t.dev, s.rings, b, s.pc, i);
    TailMsg(s.dev, t.dev, s.maps.oldMm, s.rings, b, s.pc, t.pc, i, r);
    TailSession(s.dev, t.dev, s.pc, t.pc, StopWorks(s));
    OneRef(s.maps, s.maps, s.rings, i, r);
    assert b[i := b[i]] == b;
    StillMap(s.maps.mm, s.maps.oldMm, s.dev, t.dev, s.rings, b, s.pc, t.pc, i, r, b[i]);
    Close(FailAcked(s.(pc := CtlIdle), i));
  }

  function DrainEnd(s: State, i: nat): State
    requires i < |s.rings|
  {
    SetRing(s, i, s.rings[i].(inited := false)).(dev := s.dev.(inFlight := Dec(s.dev.inFlight)))
  }

  lemma DrainTailOk(r: Ring, b: Bag)
    requires RingOk(r, b, 0, 1)
    ensures RingOk(r.(inited := false), b, 0, 0) && !r.onDrain && !r.startedRq
  {}

  lemma DrainTailCounts(d: Dev, e: Dev, rings: seq<Ring>, bags: seq<Bag>, pc: CtlPc, i: nat)
    requires RingsInv(rings, bags, pc) && CountInv(d, rings, bags, pc) && i < |rings|
    requires pc.Disconnecting? && pc.after == DrainTail(i)
    ensures d.inFlight > 0 && !rings[i].onDrain && !rings[i].startedRq
    ensures e.handling == d.handling && e.started == d.started && e.inFlight == d.inFlight - 1 ==>
              var t := rings[i := rings[i].(inited := false)];
              RingsInv(t, bags, CtlIdle) && CountInv(e, t, bags, CtlIdle)
  {
    CountsAtLeast(d, rings, bags, pc, i);
    OwedBounds(rings, bags, pc);
    RingAt(rings, bags, pc, i);
    DrainTailOk(rings[i], bags[i]);
    hide RingOk, RingsInv;
    assert bags[i := bags[i]] == bags;
    RingAndCounts(d, d.(inFlight := d.inFlight - 1), rings, bags, pc, CtlIdle, i, rings[i].(inited := false), bags[i]);
  }

  lemma EndDrainTail(s: State, i: nat)
    requires Inv(s) && s.pc.Disconnecting? && s.pc.after == DrainTail(i)
    ensures i < |s.rings| && s.dev.inFlight > 0
    ensures Inv(DrainEnd(s.(pc := CtlIdle), i))
  {
    hide Homed, Bags, Addressed, StopWorks, CountInv, RefInv, MsgInv, WaitInv, PassInv, RingOk, SessionInv, MapInv,
         RingsInv, Moved, Empty;
    Open(s);
    var t, r, b := DrainEnd(s.(pc := CtlIdle), i), s.rings[i].(inited := false), Bags(s);
    SameReqs(s.maps.refs, s.rings[i], r);
    SameLists(s, t);
    DrainTailCounts(s.dev, t.dev, s.rings, b, s.pc, i);
    TailMsg(s.dev, t.dev, s.maps.oldMm, s.rings, b, s.pc, t.pc, i, r);
    TailSession(s.dev, t.dev, s.pc, t.pc, StopWorks(s));
    OneRef(s.maps, s.maps, s.rings, i, r);
    assert b[i := b[i]] == b;
    StillMap(s.maps.mm, s.maps.oldMm, s.dev, t.dev, s.rings, b, s.pc, t.pc, i, r, b[i]);
    Close(DrainEnd(s.(pc := CtlIdle), i));
  }

  lemma EndFailed(s: State, i: nat)
    requires Inv(s) && s.pc.Disconnecting? && s.pc.after == FailedTail(i)
    ensures i < |s.rings| && Inv(DisconnectEnd(s))
  {
    EndFits(s);
    hide Inv, MaybeFinished, FailTail, FailAcked, WorkDone;
    var w, idle := Worked(s), s.(pc := CtlIdle);
    assert Worked(idle) == w.(pc := CtlIdle);
    WorkDoneKeeps(s);
    EndFailTail(s, i);
    StillInUse(idle);
    EndFailTail(w, i);
    FailTailIs(Worked(idle), i);
    IdleAcked(Worked(idle), i);
    WorkDoneKeeps(FailAcked(Worked(idle), i));
    FinishKeeps(Worked(FailAcked(Worked(idle), i)));
  }

  lemma EndDrained(s: State, i: nat)
    requires Inv(s) && s.pc.Disconnecting? && s.pc.after == DrainTail(i)
    ensures i < |s.rings| && Inv(DisconnectEnd(s))
  {
    EndFits(s);
    hide Inv, MaybeFinished, WorkDone, Dec;
    var w, idle := Worked(s), s.(pc := CtlIdle);
    assert Worked(idle) == w.(pc := CtlIdle);
    WorkDoneKeeps(s);
    EndDrainTail(s, i);
    StillInUse(idle);
    EndDrainTail(w, i);
    FinishKeeps(DrainEnd(Worked(idle), i));
  }

  lemma EndKeeps(s: State)
    requires Inv(s) && s.pc.Disconnecting?
    ensures s.pc.after.Finish? || s.pc.after.i < |s.rings|
    ensures Inv(DisconnectEnd(s))
  {
    EndFits(s);
    hide Inv, MaybeFinished;
    match s.pc.after
    case Finish =>
      EndFinish(s);
      FinishKeeps(s.(pc := CtlIdle));
    case FailedTail(i) => EndFailed(s, i);
    case DrainTail(i) => EndDrained(s, i);
  }

  lemma EndFits(s: State)
    requires Inv(s) && s.pc.Disconnecting?
    ensures s.pc.after.Finish? || s.pc.after.i < |s.rings|
  {
    hide Homed, Bags, Addressed, StopWorks, CountInv, RefInv, MsgInv, WaitInv, PassInv, RingOk, SessionInv, MapInv,
         RingsInv, Moved, Empty;
    Open(s);
  }

  // ----- passing a message to every ring

  lemma PassedOk(r: Ring, b: Bag)
    requires RingOk(r, b, 0, 0) && Tokens(b) == 0
    ensures RingOk(r, b.(todo := b.todo.(syncs := b.todo.syncs + 1)), 0, 0)
    ensures r.startedRq ==> r.startedCtl
  {}

  function PassedBag(b: Bag, tell: bool): Bag {
    b.(todo := b.todo.(syncs := if tell then b.todo.syncs + 1 else b.todo.syncs))
  }

  lemma PassedIs(b: Bag, k: nat)
    ensures PassedBag(b, true) == AddRq(b, Sync(k)) && PassedBag(b, false) == b
  {}

  lemma PassCounts(d: Dev, e: Dev, rings: seq<Ring>, bags: seq<Bag>, pc: CtlPc, pc': CtlPc, k: nat, tell: bool)
    requires RingsInv(rings, bags, pc) && CountInv(d, rings, bags, pc) && k < |rings| && !pc.Disconnecting?
    requires !pc'.Disconnecting?
    requires Tokens(bags[k]) == 0 && e == d.(handling := d.handling + One(tell))
    ensures RingsInv(rings, bags[k := PassedBag(bags[k], tell)], pc')
    ensures CountInv(e, rings, bags[k := PassedBag(bags[k], tell)], pc')
    ensures rings[k].startedRq ==> rings[k].startedCtl
  {
    RingAt(rings, bags, pc, k);
    PassedOk(rings[k], bags[k]);
    hide RingOk, RingsInv;
    assert rings[k := rings[k]] == rings;
    assert tell || PassedBag(bags[k], tell) == bags[k];
    RingAndCounts(d, e, rings, bags, pc, pc', k, rings[k], PassedBag(bags[k], tell));
  }

  lemma PassMsg(d: Dev, e: Dev, oldMm: nat, rings: seq<Ring>, bags: seq<Bag>, pc: CtlPc, pc': CtlPc, k: nat)
    requires |bags| == |rings| && k < |rings| && pc == Syncing(k)
    requires pc' == if k + 1 == |rings| then CtlIdle else Syncing(k + 1)
    requires e == d.(handling := d.handling + One(rings[k].startedCtl))
    requires MsgInv(d, oldMm, pc) && WaitInv(d, rings, pc) && PassInv(d, rings, bags, pc)
    ensures MsgInv(e, oldMm, pc') && WaitInv(e, rings, pc')
    ensures PassInv(e, rings, bags[k := PassedBag(bags[k], rings[k].startedCtl)], pc')
  {
    if d.handling == 0 && !rings[k].startedCtl {
      var i :| k <= i < |rings| && rings[i].startedCtl;
    }
  }

  lemma PassTokens(d: Dev, rings: seq<Ring>, bags: seq<Bag>, pc: CtlPc, k: nat)
    requires |bags| == |rings| && k < |rings| && pc == Syncing(k) && PassInv(d, rings, bags, pc)
    ensures Tokens(bags[k]) == 0 && d.conn
  {}

  lemma PassSession(d: Dev, e: Dev, pc: CtlPc, pc': CtlPc, works: nat)
    requires SessionInv(d, pc, works) && pc.Syncing? && !pc'.Disconnecting? && d.conn && e == d.(handling := e.handling)
    ensures SessionInv(e, pc', works)
  {}

  lemma PassMap(mm: nat, oldMm: nat, d: Dev, e: Dev, rings: seq<Ring>, bags: seq<Bag>, pc: CtlPc, pc': CtlPc, k: nat)
    requires |bags| == |rings| && k < |rings| && pc == Syncing(k) && e.inFlight == d.inFlight
    requires pc' == if k + 1 == |rings| then CtlIdle else Syncing(k + 1)
    requires rings[k].startedRq ==> rings[k].startedCtl
    requires MapInv(mm, oldMm, d, rings, bags, pc)
    ensures MapInv(mm, oldMm, e, rings, bags[k := PassedBag(bags[k], rings[k].startedCtl)], pc')
  {}

  /** The lists after a post to a request queue, made or not. */
  lemma MaybePosted(s: State, t: State, bh: RqBh, post: bool)
    requires Shape(s) && Addressed(s.pending, s.batch, s.home, s.rqs) && At(s, bh.i)
    requires t.pending == s.pending && t.batch == s.batch && t.home == s.home && |t.rings| == |s.rings|
    requires t.rqs == if post then PostedRq(s.rqs, s.home[bh.i], bh) else s.rqs
    ensures Shape(t) && Addressed(t.pending, t.batch, t.home, t.rqs) && StopWorks(t) == StopWorks(s)
    ensures Bags(t) == if post then Bags(s)[bh.i := AddRq(Bags(s)[bh.i], bh)] else Bags(s)
  {
    hide BagsOf, AddRq, RqAddressed;
    if post {
      BagsPostRq(s.pending, s.batch, s.home, s.rqs, bh);
      PostRqAddressed(s.pending, s.batch, s.home, s.rqs, bh);
    }
  }

  /** The device, its message and its maps after one more ring has been handed the message. */
  lemma PassAll(d: Dev, e: Dev, m: Maps, rings: seq<Ring>, bags: seq<Bag>, pc: CtlPc, pc': CtlPc, k: nat, works: nat)
    requires k < |rings| == |bags| && pc == Syncing(k)
    requires pc' == if k + 1 == |rings| then CtlIdle else Syncing(k + 1)
    requires e == d.(handling := d.handling + One(rings[k].startedCtl))
    requires RingsInv(rings, bags, pc) && CountInv(d, rings, bags, pc) && MsgInv(d, m.oldMm, pc)
    requires WaitInv(d, rings, pc)
    requires PassInv(d, rings, bags, pc) && SessionInv(d, pc, works) && MapInv(m.mm, m.oldMm, d, rings, bags, pc)
    ensures var u := bags[k := PassedBag(bags[k], rings[k].startedCtl)];
            && RingsInv(rings, u, pc') && CountInv(e, rings, u, pc')
            && MsgInv(e, m.oldMm, pc') && WaitInv(e, rings, pc')
            && PassInv(e, rings, u, pc') && SessionInv(e, pc', works) && MapInv(m.mm, m.oldMm, e, rings, u, pc')
            && PcInv(pc', |rings|)
  {
    hide CountInv, MsgInv, WaitInv, PassInv, RingOk, SessionInv, MapInv, RingsInv, PassedBag, Tokens;
    PassTokens(d, rings, bags, pc, k);
    PassCounts(d, e, rings, bags, pc, pc', k, rings[k].startedCtl);
    PassMsg(d, e, m.oldMm, rings, bags, pc, pc', k);
    PassSession(d, e, pc, pc', works);
    PassMap(m.mm, m.oldMm, d, e, rings, bags, pc, pc', k);
  }

  lemma SyncIs(s: State, k: nat)
    requires At(s, k)
    ensures var t, tell := SyncRing(s, k), s.rings[k].startedCtl;
            && t.rings == s.rings && t.home == s.home && t.pending == s.pending && t.batch == s.batch
            && t.maps == s.maps
            && t.rqs == (if tell then PostedRq(s.rqs, s.home[k], Sync(k)) else s.rqs)
            && t.pc == (if k + 1 == |s.rings| then CtlIdle else Syncing(k + 1))
            && t.dev == s.dev.(handling := s.dev.handling + One(tell))
  {
    hide PostedRq;
  }

  lemma SyncLists(s: State, k: nat)
    requires Shape(s) && Addressed(s.pending, s.batch, s.home, s.rqs) && At(s, k)
    ensures var t := SyncRing(s, k);
            && Shape(t) && Addressed(t.pending, t.batch, t.home, t.rqs) && StopWorks(t) == StopWorks(s)
            && Bags(t) == Bags(s)[k := PassedBag(Bags(s)[k], s.rings[k].startedCtl)]
  {
    hide Homed, Bags, Addressed, StopWorks, PostedRq, SyncRing, AddRq, PassedBag;
    SyncIs(s, k);
    MaybePosted(s, SyncRing(s, k), Sync(k), s.rings[k].startedCtl);
    PassedIs(Bags(s)[k], k);
    assert Bags(s)[k := Bags(s)[k]] == Bags(s);
  }

  lemma SyncKeeps(s: State)
    requires Inv(s) && s.pc.Syncing? && At(s, s.pc.k)
    ensures Inv(SyncRing(s, s.pc.k))
  {
    hide Homed, Bags, Addressed, StopWorks, CountInv, RefInv, MsgInv, WaitInv, PassInv, RingOk, SessionInv, MapInv,
         RingsInv, Moved, Empty, AddRq, PassedBag, Tokens, PostedRq, SyncRing;
    Open(s);
    SyncIs(s, s.pc.k);
    var t := SyncRing(s, s.pc.k);
    SyncLists(s, s.pc.k);
    PassAll(s.dev, t.dev, s.maps, s.rings, Bags(s), s.pc, t.pc, s.pc.k, StopWorks(s));
    Close(t);
  }

  lemma CtlStepKeeps(s: State)
    requires Inv(s) && Enabled(s, CtlStep)
    ensures Inv(Apply(s, CtlStep))
  {
    hide Inv, SyncRing, DisconnectRing, DisconnectEnd;
    if s.pc.Syncing? {
      SyncKeeps(s);
    } else if At(s, s.pc.k) {
      TellKeeps(s);
    } else {
      EndKeeps(s);
    }
  }

  // ----- stealing, accepting, reading messages

  lemma StolenOk(r: Ring, b: Bag, ft: nat, dt: nat)
    requires RingOk(r, b, ft, dt) && b.done.stopB == 0 && b.done.drainB == 0
    ensures RingOk(r, StolenBag(b), ft, dt)
  {}

  /** Bags that differ only in what has been stolen. */
  ghost predicate Restolen(bags: seq<Bag>, bags': seq<Bag>) {
    && |bags| == |bags'|
    && (forall j :: 0 <= j < |bags| ==>
          bags[j].done.stopB == 0 && bags[j].done.drainB == 0 && bags'[j] == StolenBag(bags[j]))
  }

  lemma StolenBags(s: State, t: State)
    requires Shape(s) && s.batch == [] && t == s.(batch := s.pending, pending := [])
    ensures Shape(t) && Restolen(Bags(s), Bags(t))
  {
    forall j | 0 <= j < |s.rings|
      ensures Bags(s)[j].done.stopB == 0 && Bags(s)[j].done.drainB == 0 && Bags(t)[j] == StolenBag(Bags(s)[j])
    {
      BagsSteal(s.pending, s.home, s.rqs, j);
    }
  }

  lemma StolenRings(d: Dev, rings: seq<Ring>, bags: seq<Bag>, bags': seq<Bag>, pc: CtlPc)
    requires Restolen(bags, bags') && RingsInv(rings, bags, pc) && CountInv(d, rings, bags, pc)
    ensures RingsInv(rings, bags', pc) && CountInv(d, rings, bags', pc)
  {
    SumSame(bags', Tokens, bags, Tokens);
    forall j | 0 <= j < |rings| ensures RingOk(rings[j], bags'[j], Ft(pc, j), Dt(pc, j)) {
      StolenOk(rings[j], bags[j], Ft(pc, j), Dt(pc, j));
    }
  }

  lemma StolenPass(d: Dev, mm: nat, oldMm: nat, rings: seq<Ring>, bags: seq<Bag>, bags': seq<Bag>, pc: CtlPc)
    requires Restolen(bags, bags') && |bags| == |rings| && PassInv(d, rings, bags, pc)
    requires MapInv(mm, oldMm, d, rings, bags, pc)
    ensures PassInv(d, rings, bags', pc) && MapInv(mm, oldMm, d, rings, bags', pc)
  {}

  lemma StolenAddressed(pending: seq<CtlBh>, home: seq<int>, rqs: seq<Rq>)
    requires Addressed(pending, [], home, rqs)
    ensures Addressed([], pending, home, rqs)
  {}

  lemma StealKeeps(s: State)
    requires Inv(s) && Enabled(s, CtlSteal)
    ensures Inv(Apply(s, CtlSteal))
  {
    Open(s);
    var t := Apply(s, CtlSteal);
    assert StopWorks(t) == StopWorks(s);
    hide Homed, Bags, Addressed, StopWorks, CountInv, RefInv, MsgInv, WaitInv, PassInv, RingOk, SessionInv, MapInv,
         RingsInv, Moved, Empty, Restolen;
    StolenBags(s, t);
    StolenAddressed(s.pending, s.home, s.rqs);
    StolenRings(s.dev, s.rings, Bags(s), Bags(t), s.pc);
    StolenPass(s.dev, s.maps.mm, s.maps.oldMm, s.rings, Bags(s), Bags(t), s.pc);
    Close(Apply(s, CtlSteal));
  }

  lemma AcceptDev(d: Dev, e: Dev, oldMm: nat, rings: seq<Ring>, bags: seq<Bag>, pc: CtlPc, works: nat)
    requires |bags| == |rings| && pc.CtlIdle? && d.listenAttached && !d.aborted
    requires e == d.(conn := true, connAttached := true, connOpen := true, listenAttached := false)
    requires MsgInv(d, oldMm, pc) && WaitInv(d, rings, pc) && PassInv(d, rings, bags, pc) && SessionInv(d, pc, works)
    ensures MsgInv(e, oldMm, pc) && WaitInv(e, rings, pc) && PassInv(e, rings, bags, pc) && SessionInv(e, pc, works)
    ensures !d.conn && !d.connOpen
  {}

  lemma AcceptKeeps(s: State)
    requires Inv(s) && Enabled(s, Accept)
    ensures Inv(Apply(s, Accept))
  {
    hide Homed, Bags, Addressed, StopWorks, CountInv, RefInv, MsgInv, WaitInv, PassInv, RingOk, SessionInv, MapInv,
         RingsInv, Moved, Empty;
    Open(s);
    var t := Apply(s, Accept);
    SameLists(s, t);
    AcceptDev(s.dev, t.dev, s.maps.oldMm, s.rings, Bags(s), s.pc, StopWorks(s));
    CountFrame(s.dev, t.dev, s.rings, Bags(s), s.pc);
    GoneMap(s.maps.mm, s.maps.oldMm, s.dev, t.dev, s.rings, Bags(s), s.pc, s.pc);
    Close(Apply(s, Accept));
  }

  lemma BadKeeps(s: State)
    requires Inv(s) && Enabled(s, MsgBad)
    ensures Inv(Apply(s, MsgBad))
  {
    hide Inv;
    ReadConn(s);
    GoneKeeps(s);
  }

  lemma ReadConn(s: State)
    requires Inv(s) && CanRead(s)
    ensures s.dev.conn && s.dev.handling == 0 && !s.dev.req && s.maps.oldMm == 0 && !s.dev.oldLog && !s.dev.keepFd
    ensures s.dev.completion == NoCompletion
  {
    hide Homed, Bags, Addressed, StopWorks, CountInv, RefInv, WaitInv, PassInv, RingOk, SessionInv, MapInv, RingsInv;
    Open(s);
  }

  lemma AskKeeps(s: State)
    requires Inv(s) && Enabled(s, AskStop)
    ensures Inv(Apply(s, AskStop))
  {
    hide Homed, Bags, Addressed, StopWorks, CountInv, RefInv, MsgInv, WaitInv, PassInv, RingOk, SessionInv, MapInv,
         RingsInv, Moved, Empty, BagsOf;
    Open(s);
    var t := Apply(s, AskStop);
    BagsAsk(s, t);
    MsgFrame(s.dev, t.dev, s.maps.oldMm, s.rings, Bags(s), s.pc);
    CountFrame(s.dev, t.dev, s.rings, Bags(s), s.pc);
    AskSession(s.dev, t.dev, s.pc, StopWorks(s));
    AskMap(s.maps.mm, s.maps.oldMm, s.dev, t.dev, s.rings, Bags(s), s.pc);
    Close(Apply(s, AskStop));
  }

  lemma AskMap(mm: nat, oldMm: nat, d: Dev, e: Dev, rings: seq<Ring>, bags: seq<Bag>, pc: CtlPc)
    requires |bags| == |rings| && MapInv(mm, oldMm, d, rings, bags, pc) && d.inFlight == e.inFlight
    ensures MapInv(mm, oldMm, e, rings, bags, pc)
  {}

  lemma AskSession(d: Dev, e: Dev, pc: CtlPc, works: nat)
    requires SessionInv(d, pc, works) && !d.stopAsked && e == d.(stopAsked := true)
    ensures SessionInv(e, pc, works + 1)
  {}

  lemma BagsAsk(s: State, t: State)
    requires Shape(s) && Addressed(s.pending, s.batch, s.home, s.rqs)
    requires t == PostCtl(s.(dev := t.dev), StopWork)
    ensures Shape(t) && Bags(t) == Bags(s) && StopWorks(t) == StopWorks(s) + 1
    ensures Addressed(t.pending, t.batch, t.home, t.rqs)
  {
    hide BagsOf;
    BagsPostCtl(s.pending, s.batch, s.home, s.rqs, StopWork);
    PostCtlAddressed(s.pending, s.batch, s.home, s.rqs, StopWork);
    OccCons(s.pending, StopWork, StopWork);
  }

  // ----- messages that are deferred

  ghost predicate NoneWaits(rings: seq<Ring>) {
    forall j :: 0 <= j < |rings| ==> !rings[j].onDrain
  }

  /** A message is read only when no other is being handled or waits for a reply. */
  lemma ReadFacts(s: State)
    requires Inv(s) && CanRead(s)
    ensures s.dev.conn && s.dev.handling == 0 && !s.dev.req && !s.dev.replyFailed && s.maps.oldMm == 0
    ensures !s.dev.oldLog && !s.dev.keepFd && s.dev.completion == NoCompletion
    ensures NoTokens(Bags(s)) && NoneWaits(s.rings)
  {
    hide Homed, Bags, Addressed, StopWorks, RefInv, MsgInv, PassInv, RingOk, SessionInv, MapInv, RingsInv, Tokens,
         NoTokens;
    Open(s);
    ReadConn(s);
    TokensZero(Bags(s));
  }

  lemma DeferMsg(e: Dev, oldMm: nat, rings: seq<Ring>, pc: CtlPc)
    requires e.conn && !e.connAttached && e.req && !e.replyFailed && BeingHandled(e, pc) && e.completion != NoCompletion
    requires oldMm != 0 ==> e.completion.DropOldMap?
    requires e.oldLog ==> e.completion.DropOldLog?
    requires e.keepFd ==> e.completion.CloseKeptFd?
    requires NoneWaits(rings)
    ensures MsgInv(e, oldMm, pc) && WaitInv(e, rings, pc)
  {}

  predicate SameSession(d: Dev, e: Dev) {
    && e.conn == d.conn && e.connOpen == d.connOpen
    && e.listening == d.listening && e.listenAttached == d.listenAttached
    && e.stopAsked == d.stopAsked && e.work == d.work && e.released == d.released && e.aborted == d.aborted
  }

  lemma DeferSession(d: Dev, e: Dev, pc: CtlPc, pc': CtlPc, works: nat)
    requires SessionInv(d, pc, works) && d.conn && SameSession(d, e) && !pc'.Disconnecting?
    ensures SessionInv(e, pc', works)
  {}

  lemma DeferPass(e: Dev, rings: seq<Ring>, bags: seq<Bag>, pc: CtlPc, i: nat, r: Ring, b: Bag)
    requires |bags| == |rings| && i < |rings| && NoTokens(bags) && pc.CtlIdle? && b.todo.fails == 0
    requires b.todo.starts > 0 ==> e.completion.JustAck?
    ensures PassInv(e, rings[i := r], bags[i := b], pc)
  {}

  lemma NoneWaitsStill(rings: seq<Ring>, i: nat, r: Ring)
    requires NoneWaits(rings) && i < |rings| && !r.onDrain
    ensures NoneWaits(rings[i := r])
  {}

  lemma ReadTokens(bags: seq<Bag>, i: nat)
    requires NoTokens(bags) && i < |bags|
    ensures Tokens(bags[i]) == 0
  {}

  lemma DeferMap(mm: nat, d: Dev, e: Dev, rings: seq<Ring>, bags: seq<Bag>, pc: CtlPc, i: nat, r: Ring, b: Bag)
    requires |bags| == |rings| && i < |rings| && pc.CtlIdle? && MapInv(mm, 0, d, rings, bags, pc)
    requires r.startedRq ==> rings[i].startedRq && r.mm == rings[i].mm
    requires e.inFlight > 0 ==> mm != 0
    ensures MapInv(mm, 0, e, rings[i := r], bags[i := b], pc)
  {}

  /** A message that one ring has to handle. */
  lemma OneDeferred(s: State, t: State, bh: RqBh, r: Ring)
    requires Inv(s) && CanRead(s) && At(s, bh.i) && !bh.Stop?
    requires t == s.(rings := s.rings[bh.i := r], rqs := PostedRq(s.rqs, s.home[bh.i], bh), dev := t.dev)
    requires RingOk(r, AddRq(Bags(s)[bh.i], bh), 0, 0) && !r.onDrain
    requires r.queued == s.rings[bh.i].queued && r.busy == s.rings[bh.i].busy
    requires r.startedRq ==> s.rings[bh.i].startedRq && r.mm == s.rings[bh.i].mm
    requires SameSession(s.dev, t.dev) && t.dev.handling == s.dev.handling + 1
    requires t.dev.started == s.dev.started + StopsOwed(r) - StopsOwed(s.rings[bh.i])
    requires t.dev.inFlight == s.dev.inFlight + DrainsOwed(r) - DrainsOwed(s.rings[bh.i])
    requires t.dev.inFlight > 0 ==> s.maps.mm != 0
    requires !t.dev.connAttached && t.dev.req && t.dev.replyFailed == s.dev.replyFailed && t.dev.oldLog == s.dev.oldLog
    requires t.dev.completion != NoCompletion && (bh.Start? ==> t.dev.completion.JustAck?)
    requires t.dev.keepFd ==> t.dev.completion.CloseKeptFd?
    ensures Inv(t)
  {
    hide Homed, Bags, Addressed, StopWorks, CountInv, RefInv, MsgInv, WaitInv, PassInv, RingOk, SessionInv, MapInv,
         RingsInv, Moved, Empty, NoTokens, NoneWaits, SameSession;
    Open(s);
    var i, b := bh.i, Bags(s);
    var c := AddRq(b[i], bh);
    ReadFacts(s);
    ReadTokens(b, i);
    MaybePosted(s, t, bh, true);
    SameReqs(s.maps.refs, s.rings[i], r);
    RingAndCounts(s.dev, t.dev, s.rings, b, s.pc, s.pc, i, r, c);
    NoneWaitsStill(s.rings, i, r);
    assert t.dev.conn by { assert SameSession(s.dev, t.dev); SameConn(s.dev, t.dev); }
    DeferMsg(t.dev, s.maps.oldMm, t.rings, t.pc);
    DeferSession(s.dev, t.dev, s.pc, t.pc, StopWorks(s));
    DeferPass(t.dev, s.rings, b, s.pc, i, r, c);
    DeferMap(s.maps.mm, s.dev, t.dev, s.rings, b, s.pc, i, r, c);
    OneRef(s.maps, s.maps, s.rings, i, r);
    Close(t);
  }

  lemma SameConn(d: Dev, e: Dev)
    requires SameSession(d, e)
    ensures d.conn == e.conn
  {}

  lemma RestingOk(r: Ring, b: Bag, m: nat)
    requires RingOk(r, b, 0, 0) && Tokens(b) == 0 && b.done.stopB == 0 && !r.startedCtl
    ensures !r.kickOpen && !r.inited && !r.startedRq && !r.onDrain
    ensures RingOk(Kicked(r, m), b.(todo := b.todo.(starts := b.todo.starts + 1)), 0, 0)
    ensures StopsOwed(Kicked(r, m)) == StopsOwed(r) + 1 && DrainsOwed(Kicked(r, m)) == DrainsOwed(r) + 1
  {}

  /** Between batches no stop acknowledgement is left that a start could overtake. */
  lemma NoStopInBatch(s: State, i: nat)
    requires Shape(s) && s.batch == [] && i < |s.rings|
    ensures Bags(s)[i].done.stopB == 0 && Bags(s)[i].done.drainB == 0
  {}

  lemma CrashKeeps(s: State)
    requires Inv(s)
    ensures Inv(s.(crashed := true))
  {
    hide Homed, BagsOf, Addressed, Occ, CountInv, RefInv, MsgInv, WaitInv, PassInv, SessionInv, MapInv, RingsInv;
    Open(s);
    Close(s.(crashed := true));
  }

  lemma KickKeeps(s: State, i: nat)
    requires Inv(s) && Enabled(s, MsgKick(i))
    ensures !s.rings[i].kickOpen && !s.rings[i].inited && !s.rings[i].startedRq
    ensures Inv(Apply(s, MsgKick(i)))
  {
    hide Homed, Bags, Addressed, StopWorks, CountInv, RefInv, MsgInv, WaitInv, PassInv, RingOk, SessionInv, MapInv,
         RingsInv, Moved, Empty, NoTokens, NoneWaits;
    Open(s);
    ReadFacts(s);
    NoStopInBatch(s, i);
    var b, t := Bags(s), Apply(s, MsgKick(i));
    ReadTokens(b, i);
    RingAt(s.rings, b, s.pc, i);
    RestingOk(s.rings[i], b[i], s.maps.mm);
    if s.maps.mm == 0 {
      CrashKeeps(s);
    } else {
      OneDeferred(s, t, Start(i), Kicked(s.rings[i], s.maps.mm));
    }
  }

  lemma NoWaitAt(rings: seq<Ring>, i: nat)
    requires NoneWaits(rings) && i < |rings|
    ensures !rings[i].onDrain
  {}

  lemma RingMsgKeeps(s: State, t: State, i: nat)
    requires Inv(s) && CanRead(s) && At(s, i) && s.rings[i].startedCtl
    requires t == s.(rqs := PostedRq(s.rqs, s.home[i], Sync(i)), dev := t.dev)
    requires SameSession(s.dev, t.dev) && t.dev.handling == s.dev.handling + 1
    requires t.dev.started == s.dev.started && t.dev.inFlight == s.dev.inFlight
    requires !t.dev.connAttached && t.dev.req && t.dev.replyFailed == s.dev.replyFailed && t.dev.oldLog == s.dev.oldLog
    requires t.dev.completion != NoCompletion && (t.dev.keepFd ==> t.dev.completion.CloseKeptFd?)
    ensures Inv(t)
  {
    hide Homed, Bags, Addressed, StopWorks, CountInv, RefInv, MsgInv, WaitInv, PassInv, RingOk, SessionInv, MapInv,
         RingsInv, Moved, Empty, NoTokens, NoneWaits, SameSession;
    Open(s);
    ReadFacts(s);
    var b, r := Bags(s), s.rings[i];
    ReadTokens(b, i);
    NoWaitAt(s.rings, i);
    RingAt(s.rings, b, s.pc, i);
    PassedOk(r, b[i]);
    assert s.rings[i := r] == s.rings;
    InFlightMap(s.maps.mm, s.maps.oldMm, s.dev, s.rings, b, s.pc);
    OneDeferred(s, t, Sync(i), r);
  }

  lemma InFlightMap(mm: nat, oldMm: nat, d: Dev, rings: seq<Ring>, bags: seq<Bag>, pc: CtlPc)
    requires |bags| == |rings| && MapInv(mm, oldMm, d, rings, bags, pc)
    ensures d.inFlight > 0 ==> mm != 0
  {}

  lemma RingFdKeeps(s: State, i: nat, hadFd: bool)
    requires Inv(s) && Enabled(s, MsgRingFd(i, hadFd))
    ensures Inv(Apply(s, MsgRingFd(i, hadFd)))
  {
    hide Inv;
    RingMsgKeeps(s, Apply(s, MsgRingFd(i, hadFd)), i);
  }

  lemma RingAttrKeeps(s: State, i: nat)
    requires Inv(s) && Enabled(s, MsgRingAttr(i))
    ensures Inv(Apply(s, MsgRingAttr(i)))
  {
    hide Inv;
    ReadConn(s);
    RingMsgKeeps(s, Apply(s, MsgRingAttr(i)), i);
  }

  // ----- GET_VRING_BASE: stop one ring, reply when it has drained

  lemma BaseMsg(d: Dev, e: Dev, rings: seq<Ring>, bags: seq<Bag>, pc: CtlPc, i: nat, r: Ring)
    requires |bags| == |rings| && i < |rings| && pc.CtlIdle? && NoTokens(bags) && NoneWaits(rings) && r.onDrain
    requires d.handling == 0 && !d.oldLog && !d.keepFd && d.completion == NoCompletion && !d.replyFailed
    requires e == d.(req := true, connAttached := false)
    ensures MsgInv(e, 0, pc) && WaitInv(e, rings[i := r], pc) && PassInv(e, rings[i := r], bags, pc)
  {
    assert rings[i := r][i].onDrain;
  }

  lemma BaseOk(r: Ring, b: Bag)
    requires RingOk(r, b, 0, 0) && r.startedCtl
    ensures RingOk(r.(onDrain := true), b, 0, 0)
  {}

  lemma BaseCounts(d: Dev, e: Dev, rings: seq<Ring>, bags: seq<Bag>, pc: CtlPc, i: nat)
    requires RingsInv(rings, bags, pc) && CountInv(d, rings, bags, pc) && i < |rings| && pc.CtlIdle?
    requires rings[i].startedCtl
    requires e.handling == d.handling && e.started == d.started && e.inFlight == d.inFlight
    ensures var t := rings[i := rings[i].(onDrain := true)]; RingsInv(t, bags, pc) && CountInv(e, t, bags, pc)
  {
    RingAt(rings, bags, pc, i);
    BaseOk(rings[i], bags[i]);
    hide RingOk, RingsInv;
    assert bags[i := bags[i]] == bags;
    RingAndCounts(d, e, rings, bags, pc, pc, i, rings[i].(onDrain := true), bags[i]);
  }

  lemma BaseKeeps(s: State, i: nat)
    requires Inv(s) && Enabled(s, MsgBase(i))
    ensures Inv(Apply(s, MsgBase(i)))
  {
    hide Homed, Bags, Addressed, StopWorks, CountInv, RefInv, MsgInv, WaitInv, PassInv, RingOk, SessionInv, MapInv,
         RingsInv, Moved, Empty, NoTokens, NoneWaits;
    Open(s);
    ReadFacts(s);
    var b, t, r := Bags(s), Apply(s, MsgBase(i)), s.rings[i].(onDrain := true);
    MaybePosted(s, t, Stop(i), true);
    assert b[i := b[i]] == b;
    SameReqs(s.maps.refs, s.rings[i], r);
    BaseCounts(s.dev, t.dev, s.rings, b, s.pc, i);
    BaseMsg(s.dev, t.dev, s.rings, b, s.pc, i, r);
    DeferSession(s.dev, t.dev, s.pc, t.pc, StopWorks(s));
    OneRef(s.maps, s.maps, s.rings, i, r);
    SameMap(s.maps.mm, s.maps.oldMm, s.dev, t.dev, s.rings, b, s.pc, i, r, b[i]);
    Close(Apply(s, MsgBase(i)));
  }

  // ----- messages every started ring has to handle

  lemma SomeStarted(d: Dev, rings: seq<Ring>, bags: seq<Bag>, pc: CtlPc)
    requires RingsInv(rings, bags, pc) && CountInv(d, rings, bags, pc) && d.inFlight > 0 && pc.CtlIdle?
    ensures exists i :: 0 <= i < |rings| && rings[i].startedCtl
  {
    OwedBounds(rings, bags, pc);
    SumPositive(rings, DrainsOwed);
    var i :| 0 <= i < |rings| && DrainsOwed(rings[i]) > 0;
    RingAt(rings, bags, pc, i);
  }

  lemma AllPass(e: Dev, rings: seq<Ring>, bags: seq<Bag>, pc: CtlPc)
    requires |bags| == |rings| && NoTokens(bags) && pc == Syncing(0) && e.conn
    requires exists i :: 0 <= i < |rings| && rings[i].startedCtl
    ensures PassInv(e, rings, bags, pc)
  {}

  lemma SameCounts(d: Dev, e: Dev, rings: seq<Ring>, bags: seq<Bag>, pc: CtlPc, pc': CtlPc)
    requires RingsInv(rings, bags, pc) && CountInv(d, rings, bags, pc) && !pc.Disconnecting? && !pc'.Disconnecting?
    requires e.handling == d.handling && e.started == d.started && e.inFlight == d.inFlight
    ensures RingsInv(rings, bags, pc') && CountInv(e, rings, bags, pc')
  {
    hide RingOk;
  }

  lemma AllDeferred(s: State, t: State)
    requires Inv(s) && CanRead(s) && s.dev.inFlight > 0
    requires t == s.(dev := t.dev, maps := t.maps, pc := Syncing(0))
    requires SameSession(s.dev, t.dev) && t.dev.handling == s.dev.handling
    requires t.dev.started == s.dev.started && t.dev.inFlight == s.dev.inFlight
    requires !t.dev.connAttached && t.dev.req && t.dev.replyFailed == s.dev.replyFailed && t.dev.keepFd == s.dev.keepFd
    requires t.dev.completion != NoCompletion && (t.dev.oldLog ==> t.dev.completion.DropOldLog?)
    requires t.maps.oldMm != 0 ==> t.dev.completion.DropOldMap?
    requires RefInv(t.maps, t.rings) && MapInv(t.maps.mm, t.maps.oldMm, t.dev, t.rings, Bags(s), t.pc)
    ensures Inv(t)
  {
    hide Homed, Bags, Addressed, StopWorks, CountInv, RefInv, MsgInv, WaitInv, PassInv, RingOk, SessionInv, MapInv,
         RingsInv, Moved, Empty, NoTokens, NoneWaits, SameSession;
    Open(s);
    ReadFacts(s);
    SameLists(s, t);
    SomeStarted(s.dev, s.rings, Bags(s), s.pc);
    SameConn(s.dev, t.dev);
    SameCounts(s.dev, t.dev, s.rings, Bags(s), s.pc, t.pc);
    DeferMsg(t.dev, t.maps.oldMm, t.rings, t.pc);
    AllPass(t.dev, t.rings, Bags(s), t.pc);
    DeferSession(s.dev, t.dev, s.pc, t.pc, StopWorks(s));
    Close(t);
  }

  lemma SyncMap(mm: nat, d: Dev, e: Dev, rings: seq<Ring>, bags: seq<Bag>, pc: CtlPc, mm': nat, oldMm': nat)
    requires |bags| == |rings| && MapInv(mm, 0, d, rings, bags, pc) && pc.CtlIdle?
    requires (mm' == mm && oldMm' == 0) || (mm' != 0 && oldMm' == mm)
    requires e.inFlight == d.inFlight
    ensures MapInv(mm', oldMm', e, rings, bags, Syncing(0))
  {}

  lemma FeaturesKeeps(s: State)
    requires Inv(s) && Enabled(s, MsgFeatures)
    ensures Inv(Apply(s, MsgFeatures))
  {
    hide Homed, Bags, Addressed, StopWorks, CountInv, RefInv, MsgInv, WaitInv, PassInv, RingOk, SessionInv, MapInv,
         RingsInv, Moved, Empty;
    Open(s);
    ReadConn(s);
    var t := Apply(s, MsgFeatures);
    SyncMap(s.maps.mm, s.dev, t.dev, s.rings, Bags(s), s.pc, s.maps.mm, 0);
    AllDeferred(s, t);
  }

  lemma LogKeeps(s: State)
    requires Inv(s) && Enabled(s, MsgLog)
    ensures Inv(Apply(s, MsgLog))
  {
    hide Homed, Bags, Addressed, StopWorks, CountInv, RefInv, MsgInv, WaitInv, PassInv, RingOk, SessionInv, MapInv,
         RingsInv, Moved, Empty;
    Open(s);
    ReadConn(s);
    var t := Apply(s, MsgLog);
    if s.dev.inFlight == 0 {
      SameLists(s, t);
      MsgFrame(s.dev, t.dev, s.maps.oldMm, s.rings, Bags(s), s.pc);
      CountFrame(s.dev, t.dev, s.rings, Bags(s), s.pc);
      DeferSession(s.dev, t.dev, s.pc, t.pc, StopWorks(s));
      AskMap(s.maps.mm, s.maps.oldMm, s.dev, t.dev, s.rings, Bags(s), s.pc);
      Close(t);
    } else {
      SyncMap(s.maps.mm, s.dev, t.dev, s.rings, Bags(s), s.pc, s.maps.mm, 0);
      AllDeferred(s, t);
    }
  }

  lemma NoneRunning(d: Dev, rings: seq<Ring>, bags: seq<Bag>, pc: CtlPc)
    requires RingsInv(rings, bags, pc) && CountInv(d, rings, bags, pc) && d.inFlight == 0
    ensures forall i :: 0 <= i < |rings| ==> !rings[i].startedRq && Empty(rings[i])
  {
    forall i | 0 <= i < |rings| ensures !rings[i].startedRq && Empty(rings[i]) {
      CountsAtLeast(d, rings, bags, pc, i);
      RingAt(rings, bags, pc, i);
    }
  }

  lemma IdleMap(mm: nat, d: Dev, rings: seq<Ring>, bags: seq<Bag>, pc: CtlPc)
    requires |bags| == |rings| && d.inFlight == 0 && forall i :: 0 <= i < |rings| ==> !rings[i].startedRq
    ensures MapInv(mm, 0, d, rings, bags, pc)
  {}

  lemma SwapRef(m: Maps, rings: seq<Ring>)
    requires RefInv(m, rings) && m.oldMm == 0
    ensures var n, refs := |m.refs|, m.refs + [1];
            RefInv(Maps(n, 0, Bump(refs, m.mm, -1)), rings) && RefInv(Maps(n, m.mm, refs), rings)
  {
    hide Held;
    HeldAbsent(rings, |m.refs|);
  }

  lemma TableKeeps(s: State)
    requires Inv(s) && Enabled(s, MsgTable)
    ensures Inv(Apply(s, MsgTable))
  {
    hide Homed, Bags, Addressed, StopWorks, CountInv, RefInv, MsgInv, WaitInv, PassInv, RingOk, SessionInv, MapInv,
         RingsInv, Moved, Empty, Bump;
    Open(s);
    ReadConn(s);
    var t, m := Apply(s, MsgTable), |s.maps.refs|;
    MapInRange(s.maps, s.rings);
    SwapRef(s.maps, s.rings);
    if s.dev.inFlight == 0 {
      SameLists(s, t);
      NoneRunning(s.dev, s.rings, Bags(s), s.pc);
      IdleMap(m, s.dev, s.rings, Bags(s), s.pc);
      Close(t);
    } else {
      SyncMap(s.maps.mm, s.dev, t.dev, s.rings, Bags(s), s.pc, m, s.maps.mm);
      AllDeferred(s, t);
    }
  }

  // ----- every step, every run

  lemma CtlBhKeeps(s: State, ok: bool)
    requires Inv(s) && Enabled(s, CtlBhRun(ok))
    ensures Inv(Apply(s, CtlBhRun(ok)))
  {
    hide Inv, Apply;
    match s.batch[0]
    case MsgHandled(_) => MsgHandledRuns(s, ok);
    case Stopped(_) => StoppedRuns(s, ok);
    case Drained(_) => DrainedRuns(s, ok);
    case StartFailed(_) => StartFailedRuns(s, ok);
    case StopWork => StopWorkRuns(s, ok);
  }

  lemma RqBhKeeps(s: State, r: nat, ok: bool)
    requires Inv(s) && Enabled(s, RqBhRun(r, ok))
    ensures Inv(Apply(s, RqBhRun(r, ok)))
  {
    hide Inv, Apply;
    match s.rqs[r].batch[0]
    case Start(_) => StartRuns(s, r, ok);
    case Stop(_) => StopRuns(s, r, ok);
    case Sync(_) => SyncRuns(s, r, ok);
  }

  lemma StepKeeps(s: State, l: Label)
    requires Inv(s) && Enabled(s, l)
    ensures Inv(Apply(s, l))
  {
    if l.MsgDone? { return; }
    hide Inv, Apply, Enabled;
    match l
    case MsgDone =>
    case CtlSteal => StealKeeps(s);
    case CtlBhRun(ok) => CtlBhKeeps(s, ok);
    case CtlStep => CtlStepKeeps(s);
    case Accept => AcceptKeeps(s);
    case MsgBad => BadKeeps(s);
    case MsgKick(i) => KickKeeps(s, i);
    case MsgBase(i) => BaseKeeps(s, i);
    case MsgTable => TableKeeps(s);
    case MsgLog => LogKeeps(s);
    case MsgFeatures => FeaturesKeeps(s);
    case MsgRingFd(i, hadFd) => RingFdKeeps(s, i, hadFd);
    case MsgRingAttr(i) => RingAttrKeeps(s, i);
    case AskStop => AskKeeps(s);
    case RqSteal(r) => StealRq(s, r);
    case RqBhRun(r, ok) => RqBhKeeps(s, r, ok);
    case RqBhStep(r) => MidStep(s, r);
    case Fetch(i) => FetchKeeps(s, i);
    case Submit(i) => SubmitKeeps(s, i);
    case Finished(i, k) => CompleteKeeps(s, i, k);
  }

  ghost predicate Run(s: State, ls: seq<Label>, t: State)
    decreases |ls|
  {
    if ls == [] then s == t else Enabled(s, ls[0]) && Run(Apply(s, ls[0]), ls[1..], t)
  }

  lemma {:induction false} RunKeeps(s: State, ls: seq<Label>, t: State)
    requires Inv(s) && Run(s, ls, t)
    ensures Inv(t)
    decreases |ls|
  {
    hide Inv, Enabled, Apply;
    if ls != [] {
      StepKeeps(s, ls[0]);
      RunKeeps(Apply(s, ls[0]), ls[1..], t);
    }
  }

  ghost predicate Reachable(s: State) {
    exists s0, ls :: Init(s0) && Run(s0, ls, s)
  }

  lemma ReachableInv(s: State)
    requires Reachable(s)
    ensures Inv(s)
  {
    hide Inv, Init, Run;
    var s0, ls :| Init(s0) && Run(s0, ls, s);
    InitInv(s0);
    RunKeeps(s0, ls, s);
  }

  lemma {:induction false} RunOn(s: State, ls: seq<Label>, t: State, l: Label)
    requires Run(s, ls, t) && Enabled(t, l)
    ensures Run(s, ls + [l], Apply(t, l))
    decreases |ls|
  {
    hide Enabled, Apply;
    if ls != [] {
      RunOn(Apply(s, ls[0]), ls[1..], t, l);
      assert (ls + [l])[1..] == ls[1..] + [l];
    }
  }

  lemma Next(s: State, l: Label)
    requires Reachable(s) && Enabled(s, l)
    ensures Reachable(Apply(s, l))
  {
    hide Enabled, Apply, Run, Init;
    var s0, ls :| Init(s0) && Run(s0, ls, s);
    RunOn(s0, ls, s, l);
  }
}
