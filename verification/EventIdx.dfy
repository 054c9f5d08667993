/**
 * Suppressing notifications with event indices: the per-completion check against the driver's
 * used_event, and the loop that publishes avail_event before the device goes to sleep.
 */
module EventIdx {
  import opened RingIndex
  import opened Sequences

  // ----- interrupts

  /** The check after the push that made the used index `idx`. */
  predicate NeedNotify(usedEvent: nat, idx: int) {
    usedEvent == Idx(idx - 1)
  }

  /** How many of `n` pushes from index `base` on interrupt. */
  function Interrupts(usedEvent: nat, base: nat, n: nat): nat {
    if n == 0 then 0 else Interrupts(usedEvent, base, n - 1) + if NeedNotify(usedEvent, base + n) then 1 else 0
  }

  /** The test the standard gives for a batch: the index moved past the event. */
  predicate Crossed(event: nat, now: int, before: int) {
    Idx(now - event - 1) < Idx(now - before)
  }

  /** The event lies in the window of indices crossed. */
  ghost predicate InWindow(event: nat, base: int, n: nat) {
    exists p :: base <= p < base + n && event == Idx(p)
  }

  lemma WindowIff(event: nat, base: int, n: nat)
    requires event < WRAP && n < WRAP
    ensures InWindow(event, base, n) <==> Idx(event - base) < n
  {
    if InWindow(event, base, n) {
      var p :| base <= p < base + n && event == Idx(p);
      assert Idx(Idx(p) - base) == p - base;
    }
    if Idx(event - base) < n {
      assert event == Idx(base + Idx(event - base));
    }
  }

  lemma CrossedIff(event: nat, base: int, n: nat)
    requires event < WRAP && n < WRAP
    ensures Crossed(event, base + n, base) <==> Idx(event - base) < n
  {
    var d := Idx(event - base);
    assert Idx(base + n - event - 1) == Idx(n - 1 - d);
  }

  lemma {:induction false} InterruptsOnce(event: nat, base: nat, n: nat)
    requires event < WRAP && n < WRAP
    ensures Interrupts(event, base, n) == if Idx(event - base) < n then 1 else 0
  {
    if n > 0 {
      InterruptsOnce(event, base, n - 1);
      NotifyAt(event, base, n);
    }
  }

  lemma NotifyAt(event: nat, base: nat, n: nat)
    requires event < WRAP && 0 < n < WRAP
    ensures NeedNotify(event, base + n) <==> Idx(event - base) == n - 1
  {
    assert Idx(Idx(base + (n - 1)) - base) == n - 1;
    assert Idx(base + Idx(event - base)) == event;
  }

  /**
   * Checked one completion at a time, a run of pushes interrupts once if the event lies in the
   * window it crosses and not at all otherwise, exactly as the standard's test of the whole run.
   */
  lemma RunInterruptsIff(event: nat, base: nat, n: nat)
    requires event < WRAP && n < WRAP
    ensures Interrupts(event, base, n) == if InWindow(event, base, n) then 1 else 0
    ensures Interrupts(event, base, n) == if Crossed(event, base + n, base) then 1 else 0
  {
    hide Idx;
    InterruptsOnce(event, base, n);
    WindowIff(event, base, n);
    CrossedIff(event, base, n);
  }

  // ----- going to sleep on the used ring

  /** The driver: running, about to publish its event, about to look again, asleep. */
  datatype DriverPc = Runs | Arms(seen: nat) | Rechecks(seen: nat) | Asleep(seen: nat)

  /** `checking` is set between the device's index store and its look at the event. */
  datatype Used = Used(idx: nat, event: nat, irq: bool, driver: DriverPc, seen: nat, checking: bool)

  datatype UsedLabel = Push | Check | Collect | Arm | Recheck | Wake

  /** Premise: at most a ring of completions is not collected. */
  predicate UsedEnabled(s: Used, l: UsedLabel) {
    match l
    case Push => !s.checking && s.idx < s.seen + VIRTQ_SIZE_MAX
    case Check => s.checking
    case Collect => s.driver.Runs?
    case Arm => s.driver.Arms?
    case Recheck => s.driver.Rechecks?
    case Wake => s.driver.Asleep? && s.irq
  }

  function UsedApply(s: Used, l: UsedLabel): Used
    requires UsedEnabled(s, l)
  {
    match l
    case Push => s.(idx := s.idx + 1, checking := true)
    case Check => s.(checking := false, irq := s.irq || NeedNotify(s.event, s.idx))
    case Collect => s.(seen := s.idx, driver := Arms(s.idx))
    case Arm => s.(event := Idx(s.driver.seen), driver := Rechecks(s.driver.seen))
    case Recheck => s.(driver := if Idx(s.idx) == Idx(s.driver.seen) then Asleep(s.driver.seen) else Runs)
    case Wake => s.(irq := false, driver := Runs)
  }

  predicate UsedInv(s: Used) {
    && s.seen <= s.idx <= s.seen + VIRTQ_SIZE_MAX
    && (s.checking ==> s.idx > 0)
    && (!s.driver.Runs? ==> s.driver.seen == s.seen)
    && (s.driver.Rechecks? || s.driver.Asleep? ==> s.event == Idx(s.seen))
    && (s.driver.Asleep? ==> s.idx == s.seen || s.irq || (s.checking && s.idx == s.seen + 1))
  }

  lemma UsedStepKeeps(s: Used, l: UsedLabel)
    requires UsedInv(s) && UsedEnabled(s, l)
    ensures UsedInv(UsedApply(s, l))
  {
    hide Idx;
    if l.Recheck? { IdxInjective(s.driver.seen, s.idx); }
  }

  ghost predicate UsedRun(s: Used, ls: seq<UsedLabel>, t: Used)
    decreases |ls|
  {
    if ls == [] then s == t else UsedEnabled(s, ls[0]) && UsedRun(UsedApply(s, ls[0]), ls[1..], t)
  }

  lemma {:induction false} UsedRunKeeps(s: Used, ls: seq<UsedLabel>, t: Used)
    requires UsedInv(s) && UsedRun(s, ls, t)
    ensures UsedInv(t)
    decreases |ls|
  {
    if ls != [] {
      UsedStepKeeps(s, ls[0]);
      UsedRunKeeps(UsedApply(s, ls[0]), ls[1..], t);
    }
  }

  predicate UsedInit(s: Used) {
    s.idx == 0 && s.seen == 0 && s.event < WRAP && s.driver.Runs? && !s.checking
  }

  /** A driver asleep with completions to collect has its interrupt, or the device is about to raise it. */
  lemma NoLostInterrupt(s: Used, ls: seq<UsedLabel>, t: Used)
    requires UsedInit(s) && UsedRun(s, ls, t) && t.driver.Asleep? && t.idx != t.seen
    ensures t.irq || (UsedEnabled(t, Check) && UsedApply(t, Check).irq)
  {
    UsedRunKeeps(s, ls, t);
  }

  // ----- going to sleep on the available ring

  /** The device: asleep, about to read the index, about to publish it, about to look again, handling. */
  datatype DevicePc = Sleeps | Reads | Publishes(avail: nat) | Looks(avail: nat) | Handles(avail: nat)

  /** `batch` is where the driver's unannounced batch began, between its index store and its look at the event. */
  datatype AvailState =
    AvailState(idx: nat, event: nat, kick: bool, device: DevicePc, last: nat, announcing: bool, batch: nat)

  datatype AvailLabel = Publish(n: nat) | Announce | WakeUp | Read | SetEvent | LookAgain | HandleAll

  /** Premise: the driver has at most a ring of entries outstanding. */
  predicate AvailEnabled(s: AvailState, l: AvailLabel) {
    match l
    case Publish(n) => !s.announcing && 0 < n && s.idx + n <= s.last + VIRTQ_SIZE_MAX
    case Announce => s.announcing
    case WakeUp => s.device.Sleeps? && s.kick
    case Read => s.device.Reads?
    case SetEvent => s.device.Publishes?
    case LookAgain => s.device.Looks?
    case HandleAll => s.device.Handles?
  }

  function AvailApply(s: AvailState, l: AvailLabel): AvailState
    requires AvailEnabled(s, l)
  {
    match l
    case Publish(n) => s.(idx := s.idx + n, announcing := true, batch := s.idx)
    case Announce => s.(announcing := false, kick := s.kick || Crossed(s.event, s.idx, s.batch))
    case WakeUp => s.(kick := false, device := Reads)
    case Read => s.(device := Publishes(s.idx))
    case SetEvent => s.(event := Idx(s.device.avail), device := Looks(s.device.avail))
    case LookAgain =>
      s.(device := if Idx(s.idx) == Idx(s.device.avail) then Handles(s.device.avail) else Publishes(s.idx))
    case HandleAll => s.(last := s.device.avail, device := Sleeps)
  }

  /** The index up to which the device has looked since it last set the event, if it is done looking. */
  predicate Settled(s: AvailState, a: nat) {
    && s.event == Idx(a)
    && (s.idx == a || s.kick || (s.announcing && s.batch <= a < s.idx))
  }

  predicate AvailInv(s: AvailState) {
    && s.last <= s.idx <= s.last + VIRTQ_SIZE_MAX && s.event < WRAP
    && (s.announcing ==> s.batch < s.idx && s.idx <= s.batch + VIRTQ_SIZE_MAX)
    && (s.device.Publishes? || s.device.Looks? || s.device.Handles? ==> s.last <= s.device.avail <= s.idx)
    && (s.device.Looks? ==> s.event == Idx(s.device.avail))
    && (s.device.Handles? ==> Settled(s, s.device.avail))
    && (s.device.Sleeps? ==> Settled(s, s.last))
  }

  lemma AnnounceKicks(event: nat, a: nat, batch: nat, idx: nat)
    requires event == Idx(a) && batch <= a < idx <= batch + VIRTQ_SIZE_MAX
    ensures Crossed(event, idx, batch)
  {
    CrossedIff(event, batch, idx - batch);
    assert Idx(Idx(a) - batch) == a - batch;
  }

  lemma AnnounceKeeps(s: AvailState)
    requires AvailInv(s) && s.announcing
    ensures AvailInv(AvailApply(s, Announce))
  {
    hide Idx, Crossed;
    var a := if s.device.Handles? then s.device.avail else s.last;
    if (s.device.Handles? || s.device.Sleeps?) && s.batch <= a < s.idx {
      AnnounceKicks(s.event, a, s.batch, s.idx);
    }
  }

  lemma AvailStepKeeps(s: AvailState, l: AvailLabel)
    requires AvailInv(s) && AvailEnabled(s, l)
    ensures AvailInv(AvailApply(s, l))
  {
    if l.Announce? {
      AnnounceKeeps(s);
    } else if l.LookAgain? {
      IdxInjective(s.device.avail, s.idx);
    }
  }

  ghost predicate AvailRun(s: AvailState, ls: seq<AvailLabel>, t: AvailState)
    decreases |ls|
  {
    if ls == [] then s == t else AvailEnabled(s, ls[0]) && AvailRun(AvailApply(s, ls[0]), ls[1..], t)
  }

  lemma {:induction false} AvailRunKeeps(s: AvailState, ls: seq<AvailLabel>, t: AvailState)
    requires AvailInv(s) && AvailRun(s, ls, t)
    ensures AvailInv(t)
    decreases |ls|
  {
    hide AvailInv, AvailEnabled, AvailApply;
    if ls != [] {
      AvailStepKeeps(s, ls[0]);
      AvailRunKeeps(AvailApply(s, ls[0]), ls[1..], t);
    }
  }

  /** The device looks at the ring once when it is started. */
  predicate AvailInit(s: AvailState) {
    s.idx == 0 && s.last == 0 && s.event < WRAP && s.device.Reads? && !s.announcing
  }

  /**
   * Whatever the driver publishes once the device's loop has exited makes it kick: a device asleep
   * with entries to handle has its kick, or the driver is about to give it.
   */
  lemma NoLostKick(s: AvailState, ls: seq<AvailLabel>, t: AvailState)
    requires AvailInit(s) && AvailRun(s, ls, t) && t.device.Sleeps? && t.idx != t.last
    ensures t.kick || (AvailEnabled(t, Announce) && AvailApply(t, Announce).kick)
  {
    AvailRunKeeps(s, ls, t);
    hide Idx, Crossed;
    if !t.kick { AnnounceKicks(t.event, t.last, t.batch, t.idx); }
  }

  /** The number of entries the device computes in 16 bits is the number there are. */
  lemma EntryCount(s: AvailState, ls: seq<AvailLabel>, t: AvailState)
    requires AvailInit(s) && AvailRun(s, ls, t) && t.device.Handles?
    ensures Idx(Idx(t.device.avail) - Idx(t.last)) == t.device.avail - t.last <= VIRTQ_SIZE_MAX
  {
    AvailRunKeeps(s, ls, t);
  }

  // ----- one look per store, one wake-up per notification

  function UsedCount(ls: seq<UsedLabel>, l: UsedLabel): nat {
    if ls == [] then 0 else One(ls[0] == l) + UsedCount(ls[1..], l)
  }

  /** The looks at the event that raised an interrupt none was pending of. */
  function Raised(s: Used, ls: seq<UsedLabel>): nat
    decreases |ls|
  {
    if ls == [] || !UsedEnabled(s, ls[0]) then 0
    else One(ls[0].Check? && !s.irq && s.event == Idx(s.idx - 1)) + Raised(UsedApply(s, ls[0]), ls[1..])
  }

  /**
   * The device looks at the event once for each completion, and the driver is woken once for each
   * interrupt, which is raised exactly when the completion just stored is the one asked for.
   */
  lemma {:induction false} InterruptsMatch(s: Used, ls: seq<UsedLabel>, t: Used)
    requires UsedRun(s, ls, t)
    ensures UsedCount(ls, Push) + One(s.checking) == UsedCount(ls, Check) + One(t.checking)
    ensures Raised(s, ls) + One(s.irq) == UsedCount(ls, Wake) + One(t.irq)
    decreases |ls|
  {
    if ls != [] { InterruptsMatch(UsedApply(s, ls[0]), ls[1..], t); }
  }

  predicate Same(l: AvailLabel, k: AvailLabel) {
    l == k || (l.Publish? && k.Publish?)
  }

  function AvailCount(ls: seq<AvailLabel>, l: AvailLabel): nat {
    if ls == [] then 0 else One(Same(ls[0], l)) + AvailCount(ls[1..], l)
  }

  /** The announcements that gave a kick none was pending of. */
  function Kicks(s: AvailState, ls: seq<AvailLabel>): nat
    decreases |ls|
  {
    if ls == [] || !AvailEnabled(s, ls[0]) then 0
    else One(ls[0].Announce? && !s.kick && Crossed(s.event, s.idx, s.batch)) + Kicks(AvailApply(s, ls[0]), ls[1..])
  }

  /** The driver looks at the event once for each batch, and the device is woken once for each kick. */
  lemma {:induction false} KicksMatch(s: AvailState, ls: seq<AvailLabel>, t: AvailState)
    requires AvailRun(s, ls, t)
    ensures AvailCount(ls, Publish(1)) + One(s.announcing) == AvailCount(ls, Announce) + One(t.announcing)
    ensures Kicks(s, ls) + One(s.kick) == AvailCount(ls, WakeUp) + One(t.kick)
    decreases |ls|
  {
    hide Crossed, Idx;
    if ls != [] { KicksMatch(AvailApply(s, ls[0]), ls[1..], t); }
  }
}
