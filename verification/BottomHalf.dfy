/**
 * Bottom halves of one event loop: flag words, the lock-free list they wait on, and the wake-up
 * of the loop.
 *
 * Any number of threads enqueue concurrently with the loop.  Every access to shared memory is one
 * step; the list is modelled down to its head and next pointers.
 */
module BottomHalf {
  import opened Counting
  import opened Sequences

  datatype Ptr = Null | To(id: nat)

  datatype Flags = Flags(pending: bool, scheduled: bool, deleted: bool, oneshot: bool)

  /** Where a thread stands in bh_enqueue. */
  datatype Pc =
    | Idle
    | InsertRead(bh: nat)
    | InsertCas(bh: nat, seen: Ptr)
    | NotifyXchg(bh: nat)
    | NotifyWrite

  /** Where the loop thread stands in one iteration. */
  datatype LoopPc =
    | Waiting
    | AcceptCheck
    | AcceptClear
    | AcceptReset
    | Stealing
    | Polling(rest: Ptr)
    | Unlinked(bh: nat, rest: Ptr)
    | Calling(bh: nat, fl: Flags, rest: Ptr)
    | Freeing(bh: nat, fl: Flags, rest: Ptr)

  /**
   * `shared` and `local` are the abstract contents of the two lists, `inserter` names the thread
   * inserting a bottom half, `pusher` the thread that last pushed it, `announced` the ones whose
   * pusher has set the notified flag since, and `runs` counts callbacks.
   */
  datatype State = State(
    head: Ptr,
    next: map<nat, Ptr>,
    flags: map<nat, Flags>,
    freed: set<nat>,
    threads: map<nat, Pc>,
    loop: LoopPc,
    notified: bool,
    readable: bool,
    shared: seq<nat>,
    local: seq<nat>,
    inserter: map<nat, nat>,
    pusher: map<nat, nat>,
    announced: set<nat>,
    runs: map<nat, nat>)

  function PcOf(threads: map<nat, Pc>, t: nat): Pc {
    if t in threads then threads[t] else Idle
  }

  const NONE: Flags := Flags(false, false, false, false)

  ghost predicate Init(s: State) {
    s == State(Null, map[], map[], {}, map[], Waiting, false, false, [], [], map[], map[], {}, map[])
  }

  datatype Label =
    | New(b: nat)
    | Oneshot(t: nat, b: nat)
    | Schedule(t: nat, b: nat)
    | Delete(t: nat, b: nat)
    | Cancel(b: nat)
    | ReadHead(t: nat)
    | Cas(t: nat)
    | Xchg(t: nat)
    | Write(t: nat)
    | Wake(other: bool)
    | Accept
    | Steal
    | Unlink
    | FetchAnd
    | Call
    | Free

  /** The steps of the loop thread; the others are steps of any thread. */
  predicate LoopLabel(l: Label) {
    l.Wake? || l.Accept? || l.Steal? || l.Unlink? || l.FetchAnd? || l.Call? || l.Free?
  }

  /** Callers use a bottom half only before giving it up by a one-shot or a delete. */
  predicate Usable(s: State, b: nat) {
    b in s.flags && b in s.next && b in s.runs && !s.flags[b].deleted && !s.flags[b].oneshot
  }

  predicate Enabled(s: State, l: Label) {
    match l
    case New(b) => b !in s.flags
    case Oneshot(t, b) => b !in s.flags && PcOf(s.threads, t).Idle?
    case Schedule(t, b) => Usable(s, b) && PcOf(s.threads, t).Idle?
    case Delete(t, b) => Usable(s, b) && PcOf(s.threads, t).Idle?
    case Cancel(b) => Usable(s, b)
    case ReadHead(t) => PcOf(s.threads, t).InsertRead?
    case Cas(t) => PcOf(s.threads, t).InsertCas?
    case Xchg(t) => PcOf(s.threads, t).NotifyXchg?
    case Write(t) => PcOf(s.threads, t).NotifyWrite?
    case Wake(other) => s.loop.Waiting? && (s.readable || other)
    case Accept => s.loop.AcceptCheck? || s.loop.AcceptClear? || s.loop.AcceptReset?
    case Steal => s.loop.Stealing?
    case Unlink => s.loop.Polling? && (s.loop.rest.To? ==> s.loop.rest.id in s.next && s.local != [])
    case FetchAnd => s.loop.Unlinked? && s.loop.bh in s.flags
    case Call => s.loop.Calling? && s.loop.bh in s.runs
    case Free => s.loop.Freeing?
  }

  /** The atomic or into the flag word: the thread that sets `pending` must insert. */
  function FetchOr(s: State, t: nat, b: nat, fl: Flags): State
    requires b in s.flags
  {
    var was := s.flags[b];
    var now := Flags(true, was.scheduled || fl.scheduled, was.deleted || fl.deleted, was.oneshot || fl.oneshot);
    s.(flags := s.flags[b := now],
       threads := s.threads[t := if was.pending then NotifyXchg(b) else InsertRead(b)],
       inserter := if was.pending then s.inserter else s.inserter[b := t])
  }

  function Created(s: State, b: nat): State {
    s.(flags := s.flags[b := NONE], next := s.next[b := Null], runs := s.runs[b := 0])
  }

  function ThreadStep(s: State, l: Label): State
    requires Enabled(s, l) && !LoopLabel(l)
  {
    match l
    case New(b) => Created(s, b)
    case Oneshot(t, b) => FetchOr(Created(s, b), t, b, Flags(false, true, false, true))
    case Schedule(t, b) => FetchOr(s, t, b, Flags(false, true, false, false))
    case Delete(t, b) => FetchOr(s, t, b, Flags(false, false, true, false))
    case Cancel(b) => s.(flags := s.flags[b := s.flags[b].(scheduled := false)])
    case ReadHead(t) =>
      var b := PcOf(s.threads, t).bh;
      s.(next := s.next[b := s.head], threads := s.threads[t := InsertCas(b, s.head)])
    case Cas(t) =>
      var pc := PcOf(s.threads, t);
      if s.head == pc.seen then
        s.(head := To(pc.bh), threads := s.threads[t := NotifyXchg(pc.bh)],
           shared := [pc.bh] + s.shared, inserter := s.inserter - {pc.bh},
           pusher := s.pusher[pc.bh := t], announced := s.announced - {pc.bh})
      else
        s.(threads := s.threads[t := InsertRead(pc.bh)])
    case Xchg(t) =>
      s.(notified := true, announced := s.announced + {PcOf(s.threads, t).bh},
         threads := s.threads[t := if s.notified then Idle else NotifyWrite])
    case Write(t) => s.(readable := true, threads := s.threads[t := Idle])
  }

  function LoopStep(s: State, l: Label): State
    requires Enabled(s, l) && LoopLabel(l)
  {
    match l
    case Wake(_) => s.(loop := AcceptCheck)
    case Accept =>
      s.(readable := s.readable && !s.loop.AcceptClear?,
         notified := s.notified && !s.loop.AcceptReset?,
         loop := if s.loop.AcceptCheck? && s.notified then AcceptClear
                 else if s.loop.AcceptClear? then AcceptReset else Stealing)
    case Steal => s.(head := Null, loop := Polling(s.head), local := s.shared, shared := [])
    case Unlink =>
      var p := s.loop.rest;
      s.(loop := if p.Null? then Waiting else Unlinked(p.id, s.next[p.id]),
         local := if p.Null? then s.local else s.local[1..])
    case FetchAnd =>
      var b, fl := s.loop.bh, s.flags[s.loop.bh];
      s.(flags := s.flags[b := fl.(pending := false, scheduled := false)], loop := Calling(b, fl, s.loop.rest))
    case Call =>
      var b := s.loop.bh;
      var runs := if Due(s.loop.fl) then s.runs[b := s.runs[b] + 1] else s.runs;
      s.(runs := runs, loop := Freeing(b, s.loop.fl, s.loop.rest))
    case Free =>
      s.(freed := if s.loop.fl.deleted || s.loop.fl.oneshot then s.freed + {s.loop.bh} else s.freed,
         loop := Polling(s.loop.rest))
  }

  function Apply(s: State, l: Label): State
    requires Enabled(s, l)
  {
    if LoopLabel(l) then LoopStep(s, l) else ThreadStep(s, l)
  }

  /** The snapshot of the flags asks for the callback. */
  predicate Due(fl: Flags) {
    fl.scheduled && !fl.deleted
  }

  // ----- the invariant

  function First(a: seq<nat>): Ptr {
    if a == [] then Null else To(a[0])
  }

  /** The pointers starting at `p` spell the sequence `a`. */
  ghost predicate Linked(next: map<nat, Ptr>, p: Ptr, a: seq<nat>) {
    && p == First(a)
    && (forall i :: 0 <= i < |a| ==> a[i] in next && next[a[i]] == First(a[i + 1..]))
  }

  predicate Inserting(pc: Pc, b: nat) {
    pc == InsertRead(b) || (pc.InsertCas? && pc.bh == b)
  }

  /** What remains of the stolen list. */
  function LocalPtr(loop: LoopPc): Ptr {
    match loop
    case Polling(p) => p
    case Unlinked(_, p) => p
    case Calling(_, _, p) => p
    case Freeing(_, _, p) => p
    case _ => Null
  }

  /** The one the loop holds between taking it off the list and clearing its pending flag. */
  function HeldPtr(loop: LoopPc): Ptr {
    if loop.Unlinked? then To(loop.bh) else Null
  }

  /** A bottom half is on at most one list, or being inserted by one thread, or held by the loop. */
  ghost predicate ListInv(next: map<nat, Ptr>, head: Ptr, shared: seq<nat>, localPtr: Ptr, local: seq<nat>,
                          inserter: map<nat, nat>, held: Ptr)
  {
    && Linked(next, head, shared)
    && Linked(next, localPtr, local)
    && Distinct(shared) && Distinct(local)
    && (forall b :: b in shared ==> b !in local && b !in inserter && To(b) != held)
    && (forall b :: b in local ==> b !in inserter && To(b) != held)
    && (held.To? ==> held.id !in inserter)
  }

  ghost predicate ThreadInv(threads: map<nat, Pc>, inserter: map<nat, nat>, next: map<nat, Ptr>) {
    && (forall t :: t in threads && threads[t].InsertRead? ==>
          threads[t].bh in inserter && inserter[threads[t].bh] == t)
    && (forall t :: t in threads && threads[t].InsertCas? ==>
          && threads[t].bh in inserter && inserter[threads[t].bh] == t
          && threads[t].bh in next && next[threads[t].bh] == threads[t].seen)
    && (forall b :: b in inserter ==> inserter[b] in threads && Inserting(threads[inserter[b]], b))
  }

  /** The pending flag says exactly whether the bottom half is on its way to the loop. */
  ghost predicate PendingInv(flags: map<nat, Flags>, shared: seq<nat>, local: seq<nat>, inserter: map<nat, nat>,
                             held: Ptr)
  {
    && (forall b :: b in flags ==>
          (flags[b].pending <==> b in shared || b in local || b in inserter || To(b) == held))
    && (forall b :: b in shared || b in local || b in inserter || To(b) == held ==> b in flags)
    && (forall b :: b in flags && flags[b].scheduled ==> flags[b].pending)
  }

  predicate Running(loop: LoopPc, b: nat) {
    (loop.Calling? || loop.Freeing?) && loop.bh == b
  }

  /** The loop has taken `b` off for good and will free it. */
  predicate Leaving(loop: LoopPc, b: nat) {
    Running(loop, b) && (loop.fl.deleted || loop.fl.oneshot)
  }

  /** The life of one bottom half: used, given up, run, freed. */
  ghost predicate Life(f: Flags, freed: bool, runs: nat, loop: LoopPc, b: nat) {
    && (freed ==> !f.pending && (f.deleted || f.oneshot) && !Running(loop, b))
    && (Leaving(loop, b) ==> !f.pending)
    && (Running(loop, b) ==> (loop.fl.deleted ==> f.deleted) && (loop.fl.oneshot <==> f.oneshot))
    && (f.deleted || f.oneshot ==> freed || f.pending || Leaving(loop, b))
    && (f.oneshot ==>
          && !f.deleted
          && (f.pending ==> f.scheduled)
          && (Running(loop, b) ==> Due(loop.fl))
          && runs == if freed || (loop.Freeing? && loop.bh == b) then 1 else 0)
  }

  ghost predicate LifeInv(flags: map<nat, Flags>, freed: set<nat>, runs: map<nat, nat>, loop: LoopPc) {
    && flags.Keys == runs.Keys
    && freed <= flags.Keys
    && (loop.Calling? || loop.Freeing? ==> loop.bh in flags)
    && (forall b {:trigger runs[b]} :: b in flags ==> Life(flags[b], b in freed, runs[b], loop, b))
  }

  ghost predicate Writer(threads: map<nat, Pc>) {
    exists t :: t in threads && threads[t].NotifyWrite?
  }

  /** An announcement reaches the eventfd. */
  ghost predicate EventInv(notified: bool, readable: bool, threads: map<nat, Pc>, loop: LoopPc) {
    notified ==> readable || Writer(threads) || loop.AcceptReset?
  }

  /** Nobody waits on the list unannounced. */
  ghost predicate AnnounceInv(covered: bool, threads: map<nat, Pc>, shared: seq<nat>, announced: set<nat>,
                              pusher: map<nat, nat>)
  {
    && (forall b :: b in shared && b in announced ==> covered)
    && (forall b :: b in shared && b !in announced ==>
          b in pusher && pusher[b] in threads && threads[pusher[b]] == NotifyXchg(b))
  }

  ghost predicate Inv(s: State) {
    && s.next.Keys == s.flags.Keys
    && ListInv(s.next, s.head, s.shared, LocalPtr(s.loop), s.local, s.inserter, HeldPtr(s.loop))
    && ThreadInv(s.threads, s.inserter, s.next)
    && PendingInv(s.flags, s.shared, s.local, s.inserter, HeldPtr(s.loop))
    && LifeInv(s.flags, s.freed, s.runs, s.loop)
    && EventInv(s.notified, s.readable, s.threads, s.loop)
    && AnnounceInv(s.notified || s.loop.Stealing?, s.threads, s.shared, s.announced, s.pusher)
  }

  lemma InitInv(s: State)
    requires Init(s)
    ensures Inv(s)
  {}

  // ----- lists

  lemma LinkedPush(next: map<nat, Ptr>, p: Ptr, a: seq<nat>, b: nat)
    requires Linked(next, p, a) && b in next && next[b] == p
    ensures Linked(next, To(b), [b] + a)
  {
    var c := [b] + a;
    forall i | 0 <= i < |c| ensures c[i] in next && next[c[i]] == First(c[i + 1..]) {
      if i == 0 {
        assert c[1..] == a;
      } else {
        assert c[i + 1..] == a[i..];
      }
    }
  }

  lemma LinkedPop(next: map<nat, Ptr>, p: Ptr, a: seq<nat>)
    requires Linked(next, p, a) && p.To?
    ensures a != [] && a[0] == p.id && p.id in next && Linked(next, next[p.id], a[1..])
  {
    var c := a[1..];
    forall i | 0 <= i < |c| ensures c[i] in next && next[c[i]] == First(c[i + 1..]) {
      assert c[i + 1..] == a[i + 2..];
    }
  }

  lemma LinkedStore(next: map<nat, Ptr>, p: Ptr, a: seq<nat>, b: nat, q: Ptr)
    requires Linked(next, p, a) && b !in a
    ensures Linked(next[b := q], p, a)
  {}

  // ----- one thread moves

  lemma WriterKept(threads: map<nat, Pc>, t: nat, pc: Pc)
    requires Writer(threads) && !PcOf(threads, t).NotifyWrite?
    ensures Writer(threads[t := pc])
  {
    var w :| w in threads && threads[w].NotifyWrite?;
    assert w in threads[t := pc] && threads[t := pc][w].NotifyWrite?;
  }

  /** A move that starts and ends outside insertion. */
  lemma ThreadPlain(threads: map<nat, Pc>, inserter: map<nat, nat>, next: map<nat, Ptr>, t: nat, pc: Pc)
    requires ThreadInv(threads, inserter, next)
    requires !PcOf(threads, t).InsertRead? && !PcOf(threads, t).InsertCas?
    requires !pc.InsertRead? && !pc.InsertCas?
    ensures ThreadInv(threads[t := pc], inserter, next)
  {}

  /** A move that does not leave the notification step. */
  lemma AnnouncePlain(covered: bool, threads: map<nat, Pc>, shared: seq<nat>, announced: set<nat>, pusher: map<nat,
                      nat>, t: nat, pc: Pc)
    requires AnnounceInv(covered, threads, shared, announced, pusher)
    requires !PcOf(threads, t).NotifyXchg?
    ensures AnnounceInv(covered, threads[t := pc], shared, announced, pusher)
  {}

  // ----- creating and setting flags

  lemma ListStore(s: State, b: nat, q: Ptr)
    requires ListInv(s.next, s.head, s.shared, LocalPtr(s.loop), s.local, s.inserter, HeldPtr(s.loop))
    requires b !in s.shared && b !in s.local
    ensures ListInv(s.next[b := q], s.head, s.shared, LocalPtr(s.loop), s.local, s.inserter, HeldPtr(s.loop))
  {
    hide Linked;
    LinkedStore(s.next, s.head, s.shared, b, q);
    LinkedStore(s.next, LocalPtr(s.loop), s.local, b, q);
  }

  lemma LifeCreated(flags: map<nat, Flags>, freed: set<nat>, runs: map<nat, nat>, loop: LoopPc, b: nat)
    requires LifeInv(flags, freed, runs, loop) && b !in flags
    ensures LifeInv(flags[b := NONE], freed, runs[b := 0], loop)
  {}

  lemma ThreadCreated(threads: map<nat, Pc>, inserter: map<nat, nat>, next: map<nat, Ptr>, b: nat)
    requires ThreadInv(threads, inserter, next) && b !in next
    ensures ThreadInv(threads, inserter, next[b := Null])
  {}

  lemma CreatedKeeps(s: State, b: nat)
    requires Inv(s) && b !in s.flags
    ensures Inv(Created(s, b))
  {
    hide AnnounceInv, EventInv, ListInv, LifeInv, ThreadInv;
    ListStore(s, b, Null);
    LifeCreated(s.flags, s.freed, s.runs, s.loop, b);
    ThreadCreated(s.threads, s.inserter, s.next, b);
  }

  /** The caller of bh_enqueue may use `b`, and a one-shot is fresh. */
  predicate CanOr(s: State, t: nat, b: nat, fl: Flags) {
    && Usable(s, b) && PcOf(s.threads, t).Idle?
    && (fl.scheduled || fl.deleted)
    && (fl.oneshot ==> fl.scheduled && !fl.deleted && !s.flags[b].pending && s.runs[b] == 0 && !Running(s.loop, b))
  }

  lemma LifeOr(s: State, t: nat, b: nat, fl: Flags)
    requires LifeInv(s.flags, s.freed, s.runs, s.loop) && CanOr(s, t, b, fl)
    ensures LifeInv(FetchOr(s, t, b, fl).flags, s.freed, s.runs, s.loop)
  {
    assert Life(s.flags[b], b in s.freed, s.runs[b], s.loop, b);
  }

  /** Rewriting one flag word without touching its pending bit. */
  lemma PendingSame(flags: map<nat, Flags>, shared: seq<nat>, local: seq<nat>, inserter: map<nat, nat>, held: Ptr,
                    b: nat, f: Flags)
    requires PendingInv(flags, shared, local, inserter, held) && b in flags
    requires f.pending == flags[b].pending && (f.scheduled ==> f.pending)
    ensures PendingInv(flags[b := f], shared, local, inserter, held)
  {}

  lemma PendingInsert(flags: map<nat, Flags>, shared: seq<nat>, local: seq<nat>, inserter: map<nat, nat>, held: Ptr,
                      b: nat, f: Flags, t: nat)
    requires PendingInv(flags, shared, local, inserter, held) && b in flags && f.pending
    ensures PendingInv(flags[b := f], shared, local, inserter[b := t], held)
  {}

  lemma ListInsert(s: State, t: nat, b: nat)
    requires ListInv(s.next, s.head, s.shared, LocalPtr(s.loop), s.local, s.inserter, HeldPtr(s.loop))
    requires b !in s.shared && b !in s.local && To(b) != HeldPtr(s.loop)
    ensures ListInv(s.next, s.head, s.shared, LocalPtr(s.loop), s.local, s.inserter[b := t], HeldPtr(s.loop))
  {
    hide Linked;
  }

  lemma ThreadInsert(threads: map<nat, Pc>, inserter: map<nat, nat>, next: map<nat, Ptr>, t: nat, b: nat)
    requires ThreadInv(threads, inserter, next) && PcOf(threads, t).Idle? && b !in inserter
    ensures ThreadInv(threads[t := InsertRead(b)], inserter[b := t], next)
  {}

  lemma EventPlain(notified: bool, readable: bool, threads: map<nat, Pc>, loop: LoopPc, t: nat, pc: Pc)
    requires EventInv(notified, readable, threads, loop) && !PcOf(threads, t).NotifyWrite?
    ensures EventInv(notified, readable, threads[t := pc], loop)
  {
    if Writer(threads) { WriterKept(threads, t, pc); }
  }

  lemma NotPendingIsOff(s: State, b: nat)
    requires PendingInv(s.flags, s.shared, s.local, s.inserter, HeldPtr(s.loop)) && b in s.flags && !s.flags[b].pending
    ensures b !in s.shared && b !in s.local && b !in s.inserter && To(b) != HeldPtr(s.loop)
  {}

  lemma FetchOrKeeps(s: State, t: nat, b: nat, fl: Flags)
    requires Inv(s) && CanOr(s, t, b, fl)
    ensures Inv(FetchOr(s, t, b, fl))
  {
    hide ListInv, ThreadInv, AnnounceInv, EventInv, LifeInv, PendingInv;
    var u := FetchOr(s, t, b, fl);
    EventPlain(s.notified, s.readable, s.threads, s.loop, t, u.threads[t]);
    AnnouncePlain(s.notified || s.loop.Stealing?, s.threads, s.shared, s.announced, s.pusher, t, u.threads[t]);
    LifeOr(s, t, b, fl);
    if s.flags[b].pending {
      PendingSame(s.flags, s.shared, s.local, s.inserter, HeldPtr(s.loop), b, u.flags[b]);
      ThreadPlain(s.threads, s.inserter, s.next, t, NotifyXchg(b));
    } else {
      NotPendingIsOff(s, b);
      PendingInsert(s.flags, s.shared, s.local, s.inserter, HeldPtr(s.loop), b, u.flags[b], t);
      ThreadInsert(s.threads, s.inserter, s.next, t, b);
      ListInsert(s, t, b);
    }
  }

  lemma EnqueueKeeps(s: State, l: Label)
    requires Inv(s) && Enabled(s, l) && (l.Oneshot? || l.Schedule? || l.Delete?)
    ensures Inv(Apply(s, l))
  {
    hide Inv;
    match l
    case Oneshot(t, b) =>
      CreatedKeeps(s, b);
      NotYetRunning(s, b);
      FetchOrKeeps(Created(s, b), t, b, Flags(false, true, false, true));
    case Schedule(t, b) => FetchOrKeeps(s, t, b, Flags(false, true, false, false));
    case Delete(t, b) => FetchOrKeeps(s, t, b, Flags(false, false, true, false));
  }

  lemma NotYetRunning(s: State, b: nat)
    requires Inv(s) && b !in s.flags
    ensures !Running(s.loop, b)
  {}

  lemma CancelKeeps(s: State, b: nat)
    requires Inv(s) && Enabled(s, Cancel(b))
    ensures Inv(Apply(s, Cancel(b)))
  {
    hide ListInv, ThreadInv, AnnounceInv, EventInv, LifeInv;
    LifeCancel(s, b);
    PendingSame(s.flags, s.shared, s.local, s.inserter, HeldPtr(s.loop), b, s.flags[b].(scheduled := false));
  }

  lemma LifeCancel(s: State, b: nat)
    requires LifeInv(s.flags, s.freed, s.runs, s.loop) && Usable(s, b)
    ensures LifeInv(s.flags[b := s.flags[b].(scheduled := false)], s.freed, s.runs, s.loop)
  {
    assert Life(s.flags[b], b in s.freed, s.runs[b], s.loop, b);
  }

  // ----- insertion and notification

  lemma ThreadReads(threads: map<nat, Pc>, inserter: map<nat, nat>, next: map<nat, Ptr>, t: nat, head: Ptr)
    requires ThreadInv(threads, inserter, next) && PcOf(threads, t).InsertRead?
    ensures var b := PcOf(threads, t).bh; ThreadInv(threads[t := InsertCas(b, head)], inserter, next[b := head])
  {}

  lemma ReadHeadKeeps(s: State, t: nat)
    requires Inv(s) && Enabled(s, ReadHead(t))
    ensures Inv(Apply(s, ReadHead(t)))
  {
    hide ListInv, AnnounceInv, EventInv, LifeInv, PendingInv, ThreadInv;
    var b := PcOf(s.threads, t).bh;
    InsertingIsOff(s, t);
    ListStore(s, b, s.head);
    var pc := InsertCas(b, s.head);
    ThreadReads(s.threads, s.inserter, s.next, t, s.head);
    EventPlain(s.notified, s.readable, s.threads, s.loop, t, pc);
    AnnouncePlain(s.notified || s.loop.Stealing?, s.threads, s.shared, s.announced, s.pusher, t, pc);
  }

  /** What a thread is inserting is linked nowhere, so its next pointer is the thread's to write. */
  lemma InsertingIsOff(s: State, t: nat)
    requires Inv(s) && (PcOf(s.threads, t).InsertRead? || PcOf(s.threads, t).InsertCas?)
    ensures var b := PcOf(s.threads, t).bh;
            b in s.inserter && b in s.flags && b !in s.shared && b !in s.local && To(b) != HeldPtr(s.loop)
  {
    hide Linked;
  }

  lemma ListCas(s: State, b: nat)
    requires ListInv(s.next, s.head, s.shared, LocalPtr(s.loop), s.local, s.inserter, HeldPtr(s.loop))
    requires b in s.inserter && b in s.next && s.next[b] == s.head
    requires b !in s.shared && b !in s.local && To(b) != HeldPtr(s.loop)
    ensures ListInv(s.next, To(b), [b] + s.shared, LocalPtr(s.loop), s.local, s.inserter - {b}, HeldPtr(s.loop))
  {
    hide Linked;
    LinkedPush(s.next, s.head, s.shared, b);
    assert forall x :: x in [b] + s.shared <==> x == b || x in s.shared;
  }

  lemma ThreadCas(threads: map<nat, Pc>, inserter: map<nat, nat>, next: map<nat, Ptr>, t: nat, b: nat)
    requires ThreadInv(threads, inserter, next) && Inserting(PcOf(threads, t), b)
    ensures ThreadInv(threads[t := NotifyXchg(b)], inserter - {b}, next)
  {}

  lemma AnnounceCas(covered: bool, threads: map<nat, Pc>, shared: seq<nat>, announced: set<nat>, pusher: map<nat,
                    nat>, t: nat, b: nat)
    requires AnnounceInv(covered, threads, shared, announced, pusher) && b !in shared
    requires !PcOf(threads, t).NotifyXchg?
    ensures AnnounceInv(covered, threads[t := NotifyXchg(b)], [b] + shared, announced - {b}, pusher[b := t])
  {
    assert forall x :: x in [b] + shared <==> x == b || x in shared;
  }

  lemma PendingCas(flags: map<nat, Flags>, shared: seq<nat>, local: seq<nat>, inserter: map<nat, nat>, held: Ptr,
                   b: nat)
    requires PendingInv(flags, shared, local, inserter, held) && b in inserter
    ensures PendingInv(flags, [b] + shared, local, inserter - {b}, held)
  {
    assert forall x :: x in [b] + shared <==> x == b || x in shared;
  }

  lemma CasPushKeeps(s: State, t: nat)
    requires Inv(s) && Enabled(s, Cas(t)) && s.head == PcOf(s.threads, t).seen
    ensures Inv(Apply(s, Cas(t)))
  {
    hide ListInv, AnnounceInv, EventInv, LifeInv, PendingInv;
    var b := PcOf(s.threads, t).bh;
    InsertingIsOff(s, t);
    ListCas(s, b);
    ThreadCas(s.threads, s.inserter, s.next, t, b);
    PendingCas(s.flags, s.shared, s.local, s.inserter, HeldPtr(s.loop), b);
    EventPlain(s.notified, s.readable, s.threads, s.loop, t, NotifyXchg(b));
    AnnounceCas(s.notified || s.loop.Stealing?, s.threads, s.shared, s.announced, s.pusher, t, b);
  }

  /** A successful compare-and-swap is an abstract push, whatever happened since the head was read. */
  lemma CasPushes(s: State, t: nat)
    requires Inv(s) && Enabled(s, Cas(t)) && s.head == PcOf(s.threads, t).seen
    ensures var u := Apply(s, Cas(t));
            u.shared == [PcOf(s.threads, t).bh] + s.shared && Linked(u.next, u.head, u.shared)
  {
    hide LifeInv, PendingInv, AnnounceInv, EventInv, Linked;
    CasPushKeeps(s, t);
  }

  lemma CasKeeps(s: State, t: nat)
    requires Inv(s) && Enabled(s, Cas(t))
    ensures Inv(Apply(s, Cas(t)))
  {
    if s.head == PcOf(s.threads, t).seen {
      CasPushKeeps(s, t);
    } else {
      CasRetries(s, t);
    }
  }

  lemma ThreadRetries(threads: map<nat, Pc>, inserter: map<nat, nat>, next: map<nat, Ptr>, t: nat)
    requires ThreadInv(threads, inserter, next) && PcOf(threads, t).InsertCas?
    ensures ThreadInv(threads[t := InsertRead(PcOf(threads, t).bh)], inserter, next)
  {}

  lemma CasRetries(s: State, t: nat)
    requires Inv(s) && Enabled(s, Cas(t)) && s.head != PcOf(s.threads, t).seen
    ensures Inv(Apply(s, Cas(t)))
  {
    hide ListInv, AnnounceInv, EventInv, LifeInv, PendingInv, ThreadInv;
    var pc := InsertRead(PcOf(s.threads, t).bh);
    ThreadRetries(s.threads, s.inserter, s.next, t);
    EventPlain(s.notified, s.readable, s.threads, s.loop, t, pc);
    AnnouncePlain(s.notified || s.loop.Stealing?, s.threads, s.shared, s.announced, s.pusher, t, pc);
  }

  lemma XchgKeeps(s: State, t: nat)
    requires Inv(s) && Enabled(s, Xchg(t))
    ensures Inv(Apply(s, Xchg(t)))
  {
    hide ListInv, LifeInv, PendingInv, ThreadInv;
    var pc := if s.notified then Idle else NotifyWrite;
    ThreadPlain(s.threads, s.inserter, s.next, t, pc);
    if s.notified {
      EventPlain(s.notified, s.readable, s.threads, s.loop, t, pc);
    } else {
      assert t in s.threads[t := pc] && s.threads[t := pc][t].NotifyWrite?;
    }
  }

  lemma WriteKeeps(s: State, t: nat)
    requires Inv(s) && Enabled(s, Write(t))
    ensures Inv(Apply(s, Write(t)))
  {
    hide ListInv, LifeInv, PendingInv, ThreadInv, AnnounceInv;
    ThreadPlain(s.threads, s.inserter, s.next, t, Idle);
    AnnouncePlain(s.notified || s.loop.Stealing?, s.threads, s.shared, s.announced, s.pusher, t, Idle);
  }

  // ----- the loop

  /** Between callbacks the loop's position is no part of a bottom half's life. */
  lemma LifeQuiet(flags: map<nat, Flags>, freed: set<nat>, runs: map<nat, nat>, loop: LoopPc, loop': LoopPc)
    requires LifeInv(flags, freed, runs, loop)
    requires !loop.Calling? && !loop.Freeing? && !loop'.Calling? && !loop'.Freeing?
    ensures LifeInv(flags, freed, runs, loop')
  {
    forall b | b in flags ensures Life(flags[b], b in freed, runs[b], loop', b) {
      assert Life(flags[b], b in freed, runs[b], loop, b);
    }
  }

  lemma AcceptKeeps(s: State, l: Label)
    requires Inv(s) && Enabled(s, l) && (l.Wake? || l.Accept?)
    ensures Inv(Apply(s, l))
  {
    hide ListInv, LifeInv, PendingInv, ThreadInv;
    LifeQuiet(s.flags, s.freed, s.runs, s.loop, Apply(s, l).loop);
  }

  lemma StealKeeps(s: State)
    requires Inv(s) && Enabled(s, Steal)
    ensures Inv(Apply(s, Steal))
  {
    hide LifeInv, ThreadInv, ListInv, PendingInv;
    LifeQuiet(s.flags, s.freed, s.runs, s.loop, Apply(s, Steal).loop);
    ListSteal(s.next, s.head, s.shared, s.local, s.inserter);
    PendingSteal(s.flags, s.shared, s.inserter);
    StolenAll(s);
  }

  lemma StolenAll(s: State)
    requires Inv(s) && s.loop.Stealing?
    ensures s.local == []
  {}

  lemma ListSteal(next: map<nat, Ptr>, head: Ptr, shared: seq<nat>, local: seq<nat>, inserter: map<nat, nat>)
    requires ListInv(next, head, shared, Null, local, inserter, Null)
    ensures local == [] && ListInv(next, Null, [], head, shared, inserter, Null)
  {}

  lemma PendingSteal(flags: map<nat, Flags>, shared: seq<nat>, inserter: map<nat, nat>)
    requires PendingInv(flags, shared, [], inserter, Null)
    ensures PendingInv(flags, [], shared, inserter, Null)
  {}

  lemma ListPop(next: map<nat, Ptr>, head: Ptr, shared: seq<nat>, b: nat, local: seq<nat>, inserter: map<nat, nat>)
    requires ListInv(next, head, shared, To(b), local, inserter, Null)
    ensures local != [] && local[0] == b && b in next && Distinct(local)
    ensures ListInv(next, head, shared, next[b], local[1..], inserter, To(b))
  {
    hide Linked;
    LinkedPop(next, To(b), local);
    TailMembers(local);
    assert b in local;
  }

  lemma PendingPop(flags: map<nat, Flags>, shared: seq<nat>, local: seq<nat>, inserter: map<nat, nat>)
    requires PendingInv(flags, shared, local, inserter, Null) && local != [] && Distinct(local)
    ensures PendingInv(flags, shared, local[1..], inserter, To(local[0]))
  {
    TailMembers(local);
    assert local[0] in local;
  }

  lemma EventQuiet(s: State, loop: LoopPc)
    requires EventInv(s.notified, s.readable, s.threads, s.loop) && !s.loop.AcceptReset?
    ensures EventInv(s.notified, s.readable, s.threads, loop)
  {}

  lemma UnlinkNext(s: State, b: nat)
    requires Inv(s) && s.loop == Polling(To(b))
    ensures s.local != [] && b in s.next && Inv(s.(loop := Unlinked(b, s.next[b]), local := s.local[1..]))
  {
    hide LifeInv, ThreadInv, AnnounceInv, PendingInv, ListInv, EventInv, Distinct;
    ListPop(s.next, s.head, s.shared, b, s.local, s.inserter);
    EventQuiet(s, Unlinked(b, s.next[b]));
    LifeQuiet(s.flags, s.freed, s.runs, s.loop, Unlinked(b, s.next[b]));
    PendingPop(s.flags, s.shared, s.local, s.inserter);
  }

  lemma UnlinkDone(s: State)
    requires Inv(s) && s.loop == Polling(Null)
    ensures Inv(s.(loop := Waiting))
  {
    hide LifeInv, ThreadInv, AnnounceInv, PendingInv, ListInv, EventInv;
    EventQuiet(s, Waiting);
    LifeQuiet(s.flags, s.freed, s.runs, s.loop, Waiting);
  }

  lemma UnlinkKeeps(s: State)
    requires Inv(s) && Enabled(s, Unlink)
    ensures Inv(Apply(s, Unlink))
  {
    hide Inv;
    if s.loop.rest.To? {
      UnlinkNext(s, s.loop.rest.id);
    } else {
      UnlinkDone(s);
    }
  }

  lemma FetchAndKeeps(s: State)
    requires Inv(s) && Enabled(s, FetchAnd)
    ensures Inv(Apply(s, FetchAnd))
  {
    hide ThreadInv, AnnounceInv, ListInv, LifeInv, PendingInv, EventInv;
    LifeFetchAnd(s);
    ListFetchAnd(s.next, s.head, s.shared, s.loop.rest, s.local, s.inserter, s.loop.bh);
    PendingFetchAnd(s.flags, s.shared, s.local, s.inserter, s.next, s.head, s.loop.rest, s.loop.bh);
    EventElsewhere(s.notified, s.readable, s.threads, s.loop, Apply(s, FetchAnd).loop);
  }

  lemma ListFetchAnd(next: map<nat, Ptr>, head: Ptr, shared: seq<nat>, localPtr: Ptr, local: seq<nat>,
                     inserter: map<nat, nat>, b: nat)
    requires ListInv(next, head, shared, localPtr, local, inserter, To(b))
    ensures ListInv(next, head, shared, localPtr, local, inserter, Null)
    ensures b !in shared && b !in local && b !in inserter
  {
    hide Linked;
  }

  /** Once its flag is cleared the one the loop held is nowhere. */
  lemma PendingFetchAnd(flags: map<nat, Flags>, shared: seq<nat>, local: seq<nat>, inserter: map<nat, nat>,
                        next: map<nat, Ptr>, head: Ptr, localPtr: Ptr, b: nat)
    requires PendingInv(flags, shared, local, inserter, To(b)) && b in flags
    requires ListInv(next, head, shared, localPtr, local, inserter, To(b))
    ensures PendingInv(flags[b := flags[b].(pending := false, scheduled := false)], shared, local, inserter, Null)
  {
    hide ListInv;
    ListFetchAnd(next, head, shared, localPtr, local, inserter, b);
  }

  lemma EventElsewhere(notified: bool, readable: bool, threads: map<nat, Pc>, loop: LoopPc, loop': LoopPc)
    requires EventInv(notified, readable, threads, loop) && !loop.AcceptReset?
    ensures EventInv(notified, readable, threads, loop')
  {}

  lemma LifeFetchAnd(s: State)
    requires Inv(s) && Enabled(s, FetchAnd)
    ensures var u := Apply(s, FetchAnd); LifeInv(u.flags, u.freed, u.runs, u.loop)
  {
    hide ThreadInv, AnnounceInv, ListInv;
    var u := Apply(s, FetchAnd);
    forall b | b in u.flags ensures Life(u.flags[b], b in u.freed, u.runs[b], u.loop, b) {
      assert Life(s.flags[b], b in s.freed, s.runs[b], s.loop, b);
    }
  }

  lemma CallKeeps(s: State)
    requires Inv(s) && Enabled(s, Call)
    ensures Inv(Apply(s, Call))
  {
    hide ThreadInv, AnnounceInv, ListInv, PendingInv;
    var u := Apply(s, Call);
    forall b | b in u.flags ensures Life(u.flags[b], b in u.freed, u.runs[b], u.loop, b) {
      assert Life(s.flags[b], b in s.freed, s.runs[b], s.loop, b);
    }
  }

  lemma FreeKeeps(s: State)
    requires Inv(s) && Enabled(s, Free)
    ensures Inv(Apply(s, Free))
  {
    hide ThreadInv, AnnounceInv, ListInv, PendingInv;
    var u := Apply(s, Free);
    forall b | b in u.flags ensures Life(u.flags[b], b in u.freed, u.runs[b], u.loop, b) {
      assert Life(s.flags[b], b in s.freed, s.runs[b], s.loop, b);
    }
  }

  lemma StepKeeps(s: State, l: Label)
    requires Inv(s) && Enabled(s, l)
    ensures Inv(Apply(s, l))
  {
    hide Inv;
    match l
    case New(b) => CreatedKeeps(s, b);
    case Oneshot(_, _) => EnqueueKeeps(s, l);
    case Schedule(_, _) => EnqueueKeeps(s, l);
    case Delete(_, _) => EnqueueKeeps(s, l);
    case Cancel(b) => CancelKeeps(s, b);
    case ReadHead(t) => ReadHeadKeeps(s, t);
    case Cas(t) => CasKeeps(s, t);
    case Xchg(t) => XchgKeeps(s, t);
    case Write(t) => WriteKeeps(s, t);
    case Wake(_) => AcceptKeeps(s, l);
    case Accept => AcceptKeeps(s, l);
    case Steal => StealKeeps(s);
    case Unlink => UnlinkKeeps(s);
    case FetchAnd => FetchAndKeeps(s);
    case Call => CallKeeps(s);
    case Free => FreeKeeps(s);
  }

  // ----- whole runs

  ghost predicate Run(s: State, ls: seq<Label>, u: State)
    decreases |ls|
  {
    if ls == [] then s == u else Enabled(s, ls[0]) && Run(Apply(s, ls[0]), ls[1..], u)
  }

  lemma {:induction false} RunKeeps(s: State, ls: seq<Label>, u: State)
    requires Inv(s) && Run(s, ls, u)
    ensures Inv(u)
    decreases |ls|
  {
    hide Inv;
    if ls != [] {
      StepKeeps(s, ls[0]);
      RunKeeps(Apply(s, ls[0]), ls[1..], u);
    }
  }

  ghost predicate Reachable(u: State) {
    exists s, ls :: Init(s) && Run(s, ls, u)
  }

  lemma ReachableInv(u: State)
    requires Reachable(u)
    ensures Inv(u)
  {
    var s, ls :| Init(s) && Run(s, ls, u);
    InitInv(s);
    RunKeeps(s, ls, u);
  }

  /**
   * No lost wake-up: while the loop waits, a bottom half on the list whose pusher has got past
   * setting the notified flag has the eventfd readable or about to be written.
   */
  lemma NoLostWakeup(u: State, b: nat)
    requires Reachable(u) && u.loop.Waiting? && b in u.shared
    requires b in u.pusher ==> PcOf(u.threads, u.pusher[b]) != NotifyXchg(b)
    ensures u.readable || Writer(u.threads)
  {
    hide Linked, ThreadInv, PendingInv, LifeInv, Writer;
    ReachableInv(u);
  }

  /**
   * The pointers always spell two lists, on at most one of which a bottom half sits; the pending
   * flag says exactly whether it is on one of them, being inserted, or held by the loop.
   */
  lemma LinkedOnce(u: State)
    requires Reachable(u)
    ensures Linked(u.next, u.head, u.shared) && Linked(u.next, LocalPtr(u.loop), u.local)
    ensures Distinct(u.shared + u.local)
    ensures forall b :: b in u.flags ==>
              (u.flags[b].pending <==> b in u.shared || b in u.local || b in u.inserter || To(b) == HeldPtr(u.loop))
  {
    hide ThreadInv, LifeInv, AnnounceInv, EventInv;
    ReachableInv(u);
    DistinctConcat(u.shared, u.local);
  }

  lemma DistinctConcat(a: seq<nat>, b: seq<nat>)
    requires Distinct(a) && Distinct(b) && forall x :: x in a ==> x !in b
    ensures Distinct(a + b)
  {
    var c := a + b;
    forall i, j | 0 <= i < j < |c| ensures c[i] != c[j] {
      if i < |a| <= j {
        assert c[i] in a && c[j] in b;
      }
    }
  }

  /** No step overwrites the next pointer of a bottom half that is linked. */
  lemma NextStable(s: State, l: Label, b: nat)
    requires Reachable(s) && Enabled(s, l) && (b in s.shared || b in s.local)
    ensures b in s.next && b in Apply(s, l).next && Apply(s, l).next[b] == s.next[b]
  {
    ReachableInv(s);
    LinkedKnown(s, b);
    if l.ReadHead? {
      InsertingIsOff(s, l.t);
    }
    NextWritten(s, l, b);
  }

  lemma NextWrittenByLoop(s: State, l: Label, b: nat)
    requires Enabled(s, l) && b in s.next && LoopLabel(l)
    ensures b in Apply(s, l).next && Apply(s, l).next[b] == s.next[b]
  {
    hide PcOf, Due, FetchOr, Created;
  }

  lemma NextWritten(s: State, l: Label, b: nat)
    requires Enabled(s, l) && b in s.next && b in s.flags
    requires l.ReadHead? ==> PcOf(s.threads, l.t).bh != b
    ensures b in Apply(s, l).next && Apply(s, l).next[b] == s.next[b]
  {
    if LoopLabel(l) { NextWrittenByLoop(s, l, b); }
  }

  lemma LinkedKnown(s: State, b: nat)
    requires Inv(s) && (b in s.shared || b in s.local)
    ensures b in s.next && b in s.flags
  {
    hide Linked, LifeInv, AnnounceInv, EventInv, ThreadInv;
  }

  /** The bottom halves a step dereferences. */
  function Touched(s: State, l: Label): set<nat>
    requires Enabled(s, l)
  {
    match l
    case Schedule(_, b) => {b}
    case Delete(_, b) => {b}
    case Cancel(b) => {b}
    case ReadHead(t) => {PcOf(s.threads, t).bh}
    case Unlink => if s.loop.rest.To? then {s.loop.rest.id} else {}
    case FetchAnd => {s.loop.bh}
    case Call => {s.loop.bh}
    case Free => {s.loop.bh}
    case _ => {}
  }

  /** No use after free, and therefore no second free. */
  lemma TouchesLive(s: State, l: Label)
    requires Reachable(s) && Enabled(s, l)
    ensures Touched(s, l) !! s.freed
  {
    hide Linked, AnnounceInv, EventInv;
    ReachableInv(s);
    forall b | b in Touched(s, l) ensures b !in s.freed {
      TouchedInUse(s, l, b);
    }
  }

  lemma TouchedInUse(s: State, l: Label, b: nat)
    requires Inv(s) && Enabled(s, l) && b in Touched(s, l)
    ensures b !in s.freed
  {
    hide AnnounceInv, EventInv;
    if b in s.freed {
      assert Life(s.flags[b], true, s.runs[b], s.loop, b);
      if l.ReadHead? { InsertingIsOff(s, l.t); }
    }
  }

  /** A one-shot runs exactly once: not yet while it is on its way, once when it is freed. */
  lemma OneshotOnce(u: State, b: nat)
    requires Reachable(u) && b in u.flags && u.flags[b].oneshot
    ensures b in u.runs && u.runs[b] <= 1
    ensures b in u.freed ==> u.runs[b] == 1
    ensures b !in u.freed && !(u.loop.Freeing? && u.loop.bh == b) ==> u.runs[b] == 0
    ensures b !in u.freed ==> u.flags[b].pending || Leaving(u.loop, b)
  {
    hide ListInv, ThreadInv, AnnounceInv, EventInv, PendingInv;
    ReachableInv(u);
    assert Life(u.flags[b], b in u.freed, u.runs[b], u.loop, b);
  }

  /** What is given up by a delete is on its way to being freed, or freed. */
  lemma DeletedIsFreed(u: State, b: nat)
    requires Reachable(u) && b in u.flags && u.flags[b].deleted
    ensures b in u.freed || u.flags[b].pending || Leaving(u.loop, b)
  {
    hide ListInv, ThreadInv, AnnounceInv, EventInv, PendingInv;
    ReachableInv(u);
    assert Life(u.flags[b], b in u.freed, u.runs[b], u.loop, b);
  }

  // ----- no scheduled callback is lost

  /** The callback asked for is still to come, is being called, or has been since the count was `ran`. */
  ghost predicate Owed(s: State, b: nat, ran: nat) {
    && b in s.flags && b in s.runs && !s.flags[b].deleted && s.runs[b] >= ran
    && (s.flags[b].scheduled || (s.loop.Calling? && s.loop.bh == b && Due(s.loop.fl)) || s.runs[b] > ran)
  }

  lemma OwedLoop(s: State, l: Label, b: nat, ran: nat)
    requires Owed(s, b, ran) && Enabled(s, l) && LoopLabel(l)
    ensures Owed(Apply(s, l), b, ran)
  {}

  lemma OwedStep(s: State, l: Label, b: nat, ran: nat)
    requires Owed(s, b, ran) && Enabled(s, l) && l != Cancel(b) && !(l.Delete? && l.b == b)
    ensures Owed(Apply(s, l), b, ran)
  {
    if LoopLabel(l) { OwedLoop(s, l, b, ran); }
  }

  /**
   * Over any run in which nobody cancels or deletes it, a scheduled bottom half stays scheduled
   * until the loop takes it to its callback; its callback count has then gone up.
   */
  lemma {:induction false} ScheduleNotLost(s: State, ls: seq<Label>, u: State, b: nat, ran: nat)
    requires Run(s, ls, u) && Owed(s, b, ran)
    requires forall i :: 0 <= i < |ls| ==> ls[i] != Cancel(b) && !(ls[i].Delete? && ls[i].b == b)
    ensures Owed(u, b, ran)
    decreases |ls|
  {
    if ls != [] {
      OwedStep(s, ls[0], b, ran);
      ScheduleNotLost(Apply(s, ls[0]), ls[1..], u, b, ran);
    }
  }

  /** A scheduled callback is never stranded: it is on its way to the loop. */
  lemma ScheduledOnTheWay(u: State, b: nat)
    requires Reachable(u) && b in u.flags && u.flags[b].scheduled
    ensures b !in u.freed
    ensures b in u.shared || b in u.local || b in u.inserter || To(b) == HeldPtr(u.loop)
  {
    hide ListInv, ThreadInv, AnnounceInv, EventInv;
    ReachableInv(u);
    assert Life(u.flags[b], b in u.freed, u.runs[b], u.loop, b);
  }

  /** The loop waits, nothing wakes it, and no thread is in the middle of enqueueing. */
  ghost predicate Quiescent(u: State) {
    u.loop.Waiting? && !u.readable && forall t :: t in u.threads ==> u.threads[t].Idle?
  }

  /** When all is quiet no bottom half waits on a list, and none is scheduled. */
  lemma NothingWaits(u: State)
    requires Inv(u) && Quiescent(u)
    ensures u.shared == [] && u.local == [] && forall b :: b in u.flags ==> !u.flags[b].pending && !u.flags[b].scheduled
  {
    hide LifeInv;
    assert First(u.local) == Null;
    assert !u.notified;
    assert forall b :: b !in u.shared;
    assert forall b :: b !in u.inserter;
  }

  /**
   * A bottom half scheduled at any moment and neither cancelled nor deleted since has run by the
   * time all is quiet.
   */
  lemma ScheduledHasRun(s: State, t: nat, b: nat, ls: seq<Label>, u: State)
    requires Reachable(s) && Enabled(s, Schedule(t, b)) && Run(Apply(s, Schedule(t, b)), ls, u) && Quiescent(u)
    requires forall i :: 0 <= i < |ls| ==> ls[i] != Cancel(b) && !(ls[i].Delete? && ls[i].b == b)
    ensures b in u.runs && u.runs[b] > s.runs[b]
  {
    hide Quiescent, Run, Reachable, Inv;
    ReachableInv(s);
    StepKeeps(s, Schedule(t, b));
    RunKeeps(Apply(s, Schedule(t, b)), ls, u);
    ScheduleNotLost(Apply(s, Schedule(t, b)), ls, u, b, s.runs[b]);
    NothingWaits(u);
    Waits(u);
  }

  lemma Waits(u: State)
    requires Quiescent(u)
    ensures u.loop.Waiting?
  {}

  // ----- and none is made up

  /** The steps of a run that ask for a callback of `b`. */
  function Asks(ls: seq<Label>, b: nat): nat {
    if ls == [] then 0
    else Asks(ls[1..], b) + if (ls[0].Schedule? || ls[0].Oneshot?) && ls[0].b == b then 1 else 0
  }

  /** Callbacks made and still to be made. */
  function Made(s: State, b: nat): nat {
    (if b in s.runs then s.runs[b] else 0)
    + (if b in s.flags && s.flags[b].scheduled then 1 else 0)
    + (if s.loop.Calling? && s.loop.bh == b && s.loop.fl.scheduled && !s.loop.fl.deleted then 1 else 0)
  }

  lemma MadeStep(s: State, l: Label, b: nat)
    requires Enabled(s, l)
    ensures Made(Apply(s, l), b) <= Made(s, b) + Asks([l], b)
  {
    hide Made, Apply;
    assert [l][1..] == [];
    if LoopLabel(l) { MadeLoop(s, l, b); } else { MadeThread(s, l, b); }
  }

  lemma MadeThread(s: State, l: Label, b: nat)
    requires Enabled(s, l) && !LoopLabel(l)
    ensures Made(Apply(s, l), b) <= Made(s, b) + if (l.Schedule? || l.Oneshot?) && l.b == b then 1 else 0
  {
    hide FetchOr, Created, Made;
    match l
    case New(c) => MadeNew(s, c, b);
    case Oneshot(t, c) => MadeNew(s, c, b); MadeOr(Created(s, c), t, c, Flags(false, true, false, true), b);
    case Schedule(t, c) => MadeOr(s, t, c, Flags(false, true, false, false), b);
    case Delete(t, c) => MadeOr(s, t, c, Flags(false, false, true, false), b);
    case Cancel(c) => MadeCancel(s, c, b);
    case ReadHead(_) => MadePush(s, l, b);
    case Cas(_) => MadePush(s, l, b);
    case _ => MadeNotify(s, l, b);
  }

  lemma MadeNew(s: State, c: nat, b: nat)
    requires c !in s.flags
    ensures c in Created(s, c).flags && Made(Created(s, c), b) <= Made(s, b)
  {}

  lemma MadeOr(s: State, t: nat, c: nat, fl: Flags, b: nat)
    requires c in s.flags
    ensures Made(FetchOr(s, t, c, fl), b) <= Made(s, b) + if fl.scheduled && c == b then 1 else 0
  {}

  lemma MadeCancel(s: State, c: nat, b: nat)
    requires c in s.flags
    ensures Made(s.(flags := s.flags[c := s.flags[c].(scheduled := false)]), b) <= Made(s, b)
  {}

  lemma MadeSame(s: State, u: State, b: nat)
    requires u.runs == s.runs && u.loop == s.loop && u.flags == s.flags
    ensures Made(u, b) == Made(s, b)
  {}

  lemma MadePush(s: State, l: Label, b: nat)
    requires Enabled(s, l) && (l.ReadHead? || l.Cas?)
    ensures Made(Apply(s, l), b) == Made(s, b)
  {
    hide FetchOr, Created, Made;
    MadeSame(s, Apply(s, l), b);
  }

  lemma MadeNotify(s: State, l: Label, b: nat)
    requires Enabled(s, l) && (l.Xchg? || l.Write?)
    ensures Made(Apply(s, l), b) == Made(s, b)
  {
    hide FetchOr, Created, Made;
    MadeSame(s, Apply(s, l), b);
  }

  lemma MadeLoop(s: State, l: Label, b: nat)
    requires Enabled(s, l) && LoopLabel(l)
    ensures Made(Apply(s, l), b) <= Made(s, b)
  {}

  lemma {:induction false} MadeRun(s: State, ls: seq<Label>, u: State, b: nat)
    requires Run(s, ls, u)
    ensures Made(u, b) <= Made(s, b) + Asks(ls, b)
    decreases |ls|
  {
    hide Made, Enabled, Apply;
    if ls != [] {
      MadeStep(s, ls[0], b);
      MadeRun(Apply(s, ls[0]), ls[1..], u, b);
      assert [ls[0]][1..] == [];
    }
  }

  /** Callbacks never outnumber the steps that asked for one. */
  lemma NoCallUnasked(s: State, ls: seq<Label>, u: State, b: nat)
    requires Init(s) && Run(s, ls, u) && b in u.runs
    ensures u.runs[b] <= Asks(ls, b)
  {
    MadeRun(s, ls, u, b);
  }

  /** Deleted, and no older snapshot of its flags is about to be acted on. */
  predicate Silenced(s: State, b: nat) {
    && b in s.flags && b in s.runs && s.flags[b].deleted
    && (s.loop.Calling? && s.loop.bh == b ==> s.loop.fl.deleted)
  }

  lemma SilencedStep(s: State, l: Label, b: nat)
    requires Silenced(s, b) && Enabled(s, l)
    ensures Silenced(Apply(s, l), b) && Apply(s, l).runs[b] == s.runs[b]
  {
    if LoopLabel(l) { SilencedLoop(s, l, b); }
  }

  lemma SilencedLoop(s: State, l: Label, b: nat)
    requires Silenced(s, b) && Enabled(s, l) && LoopLabel(l)
    ensures Silenced(Apply(s, l), b) && Apply(s, l).runs[b] == s.runs[b]
  {}

  /** A deleted bottom half is never called again. */
  lemma {:induction false} DeletedStaysQuiet(s: State, ls: seq<Label>, u: State, b: nat)
    requires Silenced(s, b) && Run(s, ls, u)
    ensures Silenced(u, b) && u.runs[b] == s.runs[b]
    decreases |ls|
  {
    hide Silenced, Enabled, Apply;
    if ls != [] {
      SilencedStep(s, ls[0], b);
      DeletedStaysQuiet(Apply(s, ls[0]), ls[1..], u, b);
    }
  }

  /** Not asked for, and no older snapshot of its flags is about to be acted on. */
  predicate Unasked(s: State, b: nat) {
    && b in s.flags && b in s.runs && !s.flags[b].scheduled
    && (s.loop.Calling? && s.loop.bh == b ==> !s.loop.fl.scheduled)
  }

  lemma UnaskedStep(s: State, l: Label, b: nat)
    requires Unasked(s, b) && Enabled(s, l) && !(l.Schedule? && l.b == b)
    ensures Unasked(Apply(s, l), b) && Apply(s, l).runs[b] == s.runs[b]
  {
    if LoopLabel(l) { UnaskedLoop(s, l, b); }
  }

  lemma UnaskedLoop(s: State, l: Label, b: nat)
    requires Unasked(s, b) && Enabled(s, l) && LoopLabel(l)
    ensures Unasked(Apply(s, l), b) && Apply(s, l).runs[b] == s.runs[b]
  {}

  /** A cancelled bottom half is not called until it is scheduled again. */
  lemma CancelledStaysQuiet(s: State, b: nat, ls: seq<Label>, u: State)
    requires Enabled(s, Cancel(b)) && !(s.loop.Calling? && s.loop.bh == b && s.loop.fl.scheduled)
    requires Run(Apply(s, Cancel(b)), ls, u)
    requires forall i :: 0 <= i < |ls| ==> !(ls[i].Schedule? && ls[i].b == b)
    ensures b in u.runs && u.runs[b] == s.runs[b]
  {
    hide Run;
    UnaskedRun(Apply(s, Cancel(b)), ls, u, b);
  }

  lemma {:induction false} UnaskedRun(s: State, ls: seq<Label>, u: State, b: nat)
    requires Unasked(s, b) && Run(s, ls, u)
    requires forall i :: 0 <= i < |ls| ==> !(ls[i].Schedule? && ls[i].b == b)
    ensures b in u.runs && u.runs[b] == s.runs[b]
    decreases |ls|
  {
    hide Enabled, Apply;
    if ls != [] {
      UnaskedStep(s, ls[0], b);
      UnaskedRun(Apply(s, ls[0]), ls[1..], u, b);
    }
  }

  // ----- what is given up goes

  lemma FlagsStay(s: State, l: Label, b: nat)
    requires Enabled(s, l) && b in s.flags
    ensures var u := Apply(s, l);
            && b in u.flags
            && (s.flags[b].deleted ==> u.flags[b].deleted) && (s.flags[b].oneshot ==> u.flags[b].oneshot)
  {
    if LoopLabel(l) {
      FlagsStayLoop(s, l, b);
    } else {
      hide LoopStep;
    }
  }

  lemma FlagsStayLoop(s: State, l: Label, b: nat)
    requires Enabled(s, l) && LoopLabel(l) && b in s.flags
    ensures var u := Apply(s, l);
            b in u.flags && u.flags[b].deleted == s.flags[b].deleted && u.flags[b].oneshot == s.flags[b].oneshot
  {
    hide ThreadStep;
  }

  lemma {:induction false} FlagsStayOn(s: State, ls: seq<Label>, u: State, b: nat)
    requires Run(s, ls, u) && b in s.flags
    ensures b in u.flags
    ensures (s.flags[b].deleted ==> u.flags[b].deleted) && (s.flags[b].oneshot ==> u.flags[b].oneshot)
    decreases |ls|
  {
    hide Enabled, Apply;
    if ls != [] {
      FlagsStay(s, ls[0], b);
      FlagsStayOn(Apply(s, ls[0]), ls[1..], u, b);
    }
  }

  lemma GoneWhenQuiet(u: State, b: nat)
    requires Inv(u) && Quiescent(u) && b in u.flags && (u.flags[b].deleted || u.flags[b].oneshot)
    ensures b in u.freed && b in u.runs && (u.flags[b].oneshot ==> u.runs[b] == 1)
  {
    NothingWaits(u);
    hide ListInv, ThreadInv, AnnounceInv, EventInv, PendingInv;
    assert Life(u.flags[b], b in u.freed, u.runs[b], u.loop, b);
  }

  /** A bottom half deleted at any moment is freed by the time all is quiet. */
  lemma DeletedHasGone(s: State, t: nat, b: nat, ls: seq<Label>, u: State)
    requires Reachable(s) && Enabled(s, Delete(t, b)) && Run(Apply(s, Delete(t, b)), ls, u) && Quiescent(u)
    ensures b in u.freed
  {
    hide Quiescent, Run, Reachable, Inv;
    ReachableInv(s);
    StepKeeps(s, Delete(t, b));
    RunKeeps(Apply(s, Delete(t, b)), ls, u);
    FlagsStayOn(Apply(s, Delete(t, b)), ls, u, b);
    GoneWhenQuiet(u, b);
  }

  /** A one-shot has run once and is freed by the time all is quiet. */
  lemma OneshotHasGone(s: State, t: nat, b: nat, ls: seq<Label>, u: State)
    requires Reachable(s) && Enabled(s, Oneshot(t, b)) && Run(Apply(s, Oneshot(t, b)), ls, u) && Quiescent(u)
    ensures b in u.freed && b in u.runs && u.runs[b] == 1
  {
    hide Quiescent, Run, Reachable, Inv;
    ReachableInv(s);
    StepKeeps(s, Oneshot(t, b));
    RunKeeps(Apply(s, Oneshot(t, b)), ls, u);
    FlagsStayOn(Apply(s, Oneshot(t, b)), ls, u, b);
    GoneWhenQuiet(u, b);
  }

  // ----- notifications are coalesced

  /** The steps of a run that set the notified flag, in all and by one thread; those that reset it. */
  function Sets(s: State, ls: seq<Label>): nat
    decreases |ls|
  {
    if ls == [] || !Enabled(s, ls[0]) then 0
    else One(ls[0].Xchg? && !s.notified) + Sets(Apply(s, ls[0]), ls[1..])
  }

  function SetsBy(s: State, ls: seq<Label>, t: nat): nat
    decreases |ls|
  {
    if ls == [] || !Enabled(s, ls[0]) then 0
    else One(ls[0] == Xchg(t) && !s.notified) + SetsBy(Apply(s, ls[0]), ls[1..], t)
  }

  function Resets(s: State, ls: seq<Label>): nat
    decreases |ls|
  {
    if ls == [] || !Enabled(s, ls[0]) then 0
    else One(ls[0].Accept? && s.loop.AcceptReset? && s.notified) + Resets(Apply(s, ls[0]), ls[1..])
  }

  function WritesBy(ls: seq<Label>, t: nat): nat {
    if ls == [] then 0 else One(ls[0] == Write(t)) + WritesBy(ls[1..], t)
  }

  lemma FlagStep(s: State, l: Label)
    requires Enabled(s, l)
    ensures One(s.notified) + One(l.Xchg? && !s.notified)
            == One(Apply(s, l).notified) + One(l.Accept? && s.loop.AcceptReset? && s.notified)
  {
    if LoopLabel(l) { FlagLoop(s, l); }
  }

  lemma FlagLoop(s: State, l: Label)
    requires Enabled(s, l) && LoopLabel(l)
    ensures One(s.notified) == One(Apply(s, l).notified) + One(l.Accept? && s.loop.AcceptReset? && s.notified)
  {}

  lemma WriterStep(s: State, l: Label, t: nat)
    requires Enabled(s, l)
    ensures One(PcOf(s.threads, t).NotifyWrite?) + One(l == Xchg(t) && !s.notified)
            == One(PcOf(Apply(s, l).threads, t).NotifyWrite?) + One(l == Write(t))
  {
    if LoopLabel(l) { ThreadsStay(s, l); }
  }

  lemma ThreadsStay(s: State, l: Label)
    requires Enabled(s, l) && LoopLabel(l)
    ensures Apply(s, l).threads == s.threads
  {}

  /**
   * The notified flag is set and reset in turn, and every write to the eventfd is that of a thread
   * that set it: however many bottom halves are enqueued, the loop is written to once each time it
   * has accepted.
   */
  lemma {:induction false} WakeupsCoalesce(s: State, ls: seq<Label>, u: State, t: nat)
    requires Run(s, ls, u)
    ensures One(s.notified) + Sets(s, ls) == Resets(s, ls) + One(u.notified)
    ensures One(PcOf(s.threads, t).NotifyWrite?) + SetsBy(s, ls, t)
            == WritesBy(ls, t) + One(PcOf(u.threads, t).NotifyWrite?)
    decreases |ls|
  {
    hide Enabled, Apply, PcOf;
    if ls != [] {
      FlagStep(s, ls[0]);
      WriterStep(s, ls[0], t);
      WakeupsCoalesce(Apply(s, ls[0]), ls[1..], u, t);
    }
  }

  /** What the loop alone makes of the eventfd and the flag before it waits again. */
  function ReadableLater(s: State): bool {
    if s.loop.AcceptCheck? then s.readable && !s.notified else s.readable && !s.loop.AcceptClear?
  }

  function NotifiedLater(s: State): bool {
    s.notified && !s.loop.AcceptCheck? && !s.loop.AcceptClear? && !s.loop.AcceptReset?
  }

  lemma LaterStep(s: State, l: Label)
    requires Enabled(s, l) && LoopLabel(l) && !l.Wake?
    ensures ReadableLater(Apply(s, l)) == ReadableLater(s) && NotifiedLater(Apply(s, l)) == NotifiedLater(s)
  {}

  /**
   * A loop that wakes up and finds the flag set has cleared both the eventfd and the flag when it
   * waits again, unless someone notified it meanwhile; if it finds the flag clear it leaves the
   * eventfd as it is.
   */
  lemma {:induction false} SleepsAgain(s: State, ls: seq<Label>, u: State)
    requires Run(s, ls, u) && u.loop.Waiting?
    requires forall i :: 0 <= i < |ls| ==> LoopLabel(ls[i]) && !ls[i].Wake?
    ensures s.loop.AcceptCheck? ==> u.readable == (s.readable && !s.notified) && !u.notified
    ensures u.readable == ReadableLater(s) && u.notified == NotifiedLater(s)
    decreases |ls|
  {
    hide Enabled, Apply;
    if ls != [] {
      LaterStep(s, ls[0]);
      SleepsAgain(Apply(s, ls[0]), ls[1..], u);
    }
  }
}
