/** Resubmitting what an earlier incarnation left in flight, then taking entries off the available ring. */
module Dequeue {
  import opened RingIndex
  import opened ChainWalk

  datatype Outcome = AllHandled | QueueBroken | ResubmitFailed | TooMany | BadHead | ChainFailed

  /** What the handler is given: the head and a copy of its buffers, the device-writable ones last. */
  datatype Request = Request(head: nat, buffers: seq<Buffer>, writable: nat)

  /** The request carries the translation of the chain that was read. */
  ghost predicate Shown(mem: Mem, max: nat, q: Request) {
    && ChainFits(mem, max, q.head)
    && forall ds :: Flat(mem, 0, q.head, ds) ==> q.buffers == Buffers(mem, ds) && q.writable == Writes(ds)
  }

  /** `given` are requests for `heads`, the i-th of them from walk `from + i` of the call. */
  ghost predicate Gives(given: seq<Request>, mem: nat -> Mem, max: nat, from: nat, heads: seq<nat>) {
    |given| == |heads| && forall i :: 0 <= i < |given| ==> GivesOne(given[i], mem, max, from + i, heads[i])
  }

  ghost predicate GivesOne(q: Request, mem: nat -> Mem, max: nat, walk: nat, head: nat) {
    q.head == head && Shown(mem(walk), max, q)
  }

  lemma GivesNone(mem: nat -> Mem, max: nat)
    ensures Gives([], mem, max, 0, [])
  {}

  lemma AndNone(heads: seq<nat>)
    ensures heads + [] == heads
  {}

  lemma GivesMore(a: seq<Request>, b: seq<Request>, mem: nat -> Mem, max: nat, from: nat, heads: seq<nat>,
                  more: seq<nat>)
    requires Gives(a, mem, max, from, heads) && Gives(b, mem, max, from + |heads|, more)
    ensures Gives(a + b, mem, max, from, heads + more)
  {
    hide GivesOne;
    forall i | 0 <= i < |a + b| ensures GivesOne((a + b)[i], mem, max, from + i, (heads + more)[i]) {
      if i >= |a| {
        assert GivesOne(b[i - |a|], mem, max, from + |heads| + (i - |a|), more[i - |a|]);
      }
    }
  }

  /** The heads in `n` consecutive ring slots from index `last`; a ring without slots has none. */
  function Heads(ring: seq<nat>, last: nat, n: nat): seq<nat> {
    if ring == [] then [] else seq(n, i requires 0 <= i < n => ring[Slot(Idx(last + i), |ring|)])
  }

  /** The ring holds the driver's entries `lo` to `hi - 1`, in the slots their numbers name. */
  ghost predicate Published(ring: seq<nat>, entries: seq<nat>, lo: nat, hi: nat) {
    hi <= |entries| && 0 < |ring| && forall p :: lo <= p < hi ==> ring[Slot(p, |ring|)] == entries[p]
  }

  lemma HeadsNone(ring: seq<nat>, last: nat)
    requires last < WRAP
    ensures Idx(last) == last && Heads(ring, last, 0) == []
  {}

  lemma HeadsNext(ring: seq<nat>, last: nat, n: nat)
    requires ring != []
    ensures |Heads(ring, last, n)| == n
    ensures Heads(ring, last, n + 1) == Heads(ring, last, n) + [ring[Slot(Idx(last + n), |ring|)]]
    ensures Idx(Idx(last + n) + 1) == Idx(last + (n + 1))
  {
    IdxAdd(last + n, 1);
  }

  lemma SmallIdx(x: nat)
    requires x < WRAP
    ensures Idx(x) == x
  {}

  lemma IdxSub(avail: nat, x: nat)
    ensures Idx(avail - Idx(x)) == Idx(avail - x) && Idx(x) < WRAP
  {}

  lemma IdxAdd(x: nat, i: nat)
    ensures Idx(Idx(x) + i) == Idx(x + i)
  {}

  /** Across the 65536 wrap, what is taken is what was published, in order. */
  lemma TakenInOrder(ring: seq<nat>, entries: seq<nat>, seen: nat, n: nat)
    requires RingSize(|ring|) && Published(ring, entries, seen, seen + n)
    ensures Heads(ring, Idx(seen), n) == entries[seen..seen + n]
  {
    hide Idx, Slot;
    var t := Heads(ring, Idx(seen), n);
    forall i | 0 <= i < n ensures t[i] == entries[seen..seen + n][i] {
      IdxAdd(seen, i);
      SlotOfIdx(seen + i, |ring|);
    }
  }

  class Virtq {
    const qsz: nat
    const walker: Walker
    var lastAvail: nat
    var broken: bool
    /** Nothing has been resubmitted yet. */
    var inflightCheck: bool
    var handled: seq<Request>

    constructor (size: nat, base: nat)
      ensures qsz == size && lastAvail == Idx(base) && !broken && inflightCheck && handled == []
    {
      qsz, lastAvail, broken, inflightCheck, handled := size, base % WRAP, false, true, [];
      walker := new Walker(size);
    }

    method DequeueOne(mem: Mem, head: nat) returns (ok: bool)
      requires head < qsz == mem.qsz
      modifies this`lastAvail, this`handled, walker, walker.buffers
      ensures ok <==> ChainFits(mem, walker.buffers.Length, head)
      ensures if ok then
                && lastAvail == Idx(old(lastAvail) + 1)
                && handled != [] && handled == old(handled) + [handled[|handled| - 1]]
                && handled[|handled| - 1].head == head && Shown(mem, walker.buffers.Length, handled[|handled| - 1])
              else handled == old(handled) && lastAvail == old(lastAvail)
    {
      var r := walker.WalkChain(mem, head);
      if r.Err? { return false; }
      assert walker.Valid() by {
        var ds :| Flat(mem, 0, head, ds) && Fits(mem, walker.buffers.Length, ds);
        assert walker.Holds(mem, ds);
      }
      handled := handled + [Request(head, walker.buffers[..walker.nOut + walker.nIn], walker.nIn)];
      lastAvail := Idx(lastAvail + 1);
      return true;
    }

    /** Hand over the heads left in flight, in their order, up to the first that cannot be. */
    method Resubmit(mem: nat -> Mem, heads: seq<nat>) returns (k: nat, ghost given: seq<Request>)
      requires lastAvail < WRAP && forall i :: mem(i).qsz == qsz
      modifies this`lastAvail, this`handled, walker, walker.buffers
      ensures k <= |heads| && lastAvail == Idx(old(lastAvail) + k) && handled == old(handled) + given
      ensures Gives(given, mem, walker.buffers.Length, 0, heads[..k])
      ensures k < |heads| ==> heads[k] >= qsz || !ChainFits(mem(k), walker.buffers.Length, heads[k])
    {
      hide Shown, ChainFits, Idx;
      k, given := 0, [];
      ghost var last, max := lastAvail, walker.buffers.Length;
      SmallIdx(lastAvail);
      while k < |heads|
        invariant k <= |heads| && lastAvail == Idx(last + k) && handled == old(handled) + given
        invariant Gives(given, mem, max, 0, heads[..k])
      {
        if heads[k] >= qsz { return; }
        var ok := DequeueOne(mem(k), heads[k]);
        if !ok { return; }
        ghost var q := handled[|handled| - 1];
        assert Gives([q], mem, max, k, [heads[k]]);
        GivesMore(given, [q], mem, max, 0, heads[..k], [heads[k]]);
        assert heads[..k + 1] == heads[..k] + [heads[k]];
        IdxAdd(last + k, 1);
        k, given := k + 1, given + [q];
      }
    }

    /** Take `count` entries of the ring; `from` walks of the call have been made. */
    method TakeAvailable(mem: nat -> Mem, from: nat, ring: seq<nat>, count: nat)
      returns (res: Outcome, n: nat, ghost given: seq<Request>)
      requires lastAvail < WRAP && |ring| == qsz && count <= qsz && !broken && forall i :: mem(i).qsz == qsz
      modifies this`lastAvail, this`handled, this`broken, walker, walker.buffers
      ensures lastAvail == Idx(old(lastAvail) + n) && n <= count && handled == old(handled) + given
      ensures Gives(given, mem, walker.buffers.Length, from, Heads(ring, old(lastAvail), n))
      ensures res == AllHandled <==> n == count
      ensures res != AllHandled ==>
                && (res == BadHead || res == ChainFailed) && n < count
                && var h := ring[Slot(Idx(old(lastAvail) + n), qsz)];
                   if res == BadHead then h >= qsz else h < qsz && !ChainFits(mem(from + n), walker.buffers.Length, h)
      ensures broken <==> res == ChainFailed
    {
      hide Idx, Slot, Heads, Shown, ChainFits;
      n, given := 0, [];
      HeadsNone(ring, lastAvail);
      ghost var last, max := lastAvail, walker.buffers.Length;
      while n < count
        invariant n <= count && lastAvail == Idx(last + n) && !broken && handled == old(handled) + given
        invariant Gives(given, mem, max, from, Heads(ring, last, n))
      {
        HeadsNext(ring, last, n);
        var head := ring[Slot(lastAvail, qsz)];
        if head >= qsz {
          res := BadHead;
          return;
        }
        var ok := DequeueOne(mem(from + n), head);
        if !ok {
          broken := true;
          res := ChainFailed;
          return;
        }
        ghost var q := handled[|handled| - 1];
        assert Gives([q], mem, max, from + n, [head]);
        GivesMore(given, [q], mem, max, from, Heads(ring, last, n), [head]);
        n, given := n + 1, given + [q];
      }
      res := AllHandled;
    }

    /**
     * One call; `mem(i)` is what its i-th chain walk finds in guest memory and `heads` what was left
     * in flight.  The handler is given those heads once and first, then entries of the ring in
     * order, each with the buffers its chain was found to describe.  The queue moves on by exactly
     * what was handed over, whatever ends the call, and breaks exactly on a chain, or a head left in
     * flight, that is not good.
     */
    method DequeueMany(mem: nat -> Mem, heads: seq<nat>, avail: nat, ring: seq<nat>)
      returns (res: Outcome, k: nat, n: nat, ghost given: seq<Request>)
      requires lastAvail < WRAP && avail < WRAP && |ring| == qsz && forall i :: mem(i).qsz == qsz
      modifies this, walker, walker.buffers
      ensures k <= |heads| && lastAvail == Idx(old(lastAvail) + k + n) && n <= Idx(avail - (old(lastAvail) + k))
      ensures handled == old(handled) + given
      ensures Gives(given, mem, walker.buffers.Length, 0, heads[..k] + Heads(ring, Idx(old(lastAvail) + k), n))
      ensures res != ResubmitFailed ==> k == if old(broken) || !old(inflightCheck) then 0 else |heads|
      ensures res == ResubmitFailed ==>
                && !old(broken) && old(inflightCheck) && k < |heads| && n == 0
                && (heads[k] >= qsz || !ChainFits(mem(k), walker.buffers.Length, heads[k]))
      ensures res == QueueBroken <==> old(broken)
      ensures old(broken) ==> n == 0
      ensures var backlog := Idx(avail - (old(lastAvail) + k));
              !old(broken) && res != ResubmitFailed ==>
                && (res == TooMany <==> backlog > qsz) && (res == TooMany ==> n == 0)
                && (res == AllHandled <==> n == backlog <= qsz)
                && (res == BadHead || res == ChainFailed ==>
                      && n < backlog <= qsz
                      && var h := ring[Slot(Idx(old(lastAvail) + k + n), qsz)];
                         if res == BadHead then h >= qsz
                         else h < qsz && !ChainFits(mem(k + n), walker.buffers.Length, h))
      ensures broken <==> old(broken) || res == ChainFailed || res == ResubmitFailed
      ensures inflightCheck <==> old(inflightCheck) && (old(broken) || res == ResubmitFailed)
    {
      hide Idx, Slot, Heads, ChainFits, Gives;
      k, n, given := 0, 0, [];
      GivesNone(mem, walker.buffers.Length);
      assert heads[..k] == [];
      ghost var last, max := lastAvail, walker.buffers.Length;
      SmallIdx(lastAvail);
      HeadsNone(ring, lastAvail);
      if broken {
        AndNone(heads[..k]);
        res := QueueBroken;
        return;
      }
      if inflightCheck {
        k, given := Resubmit(mem, heads);
        if k < |heads| {
          broken := true;
          res := ResubmitFailed;
          IdxSub(avail, last + k);
          HeadsNone(ring, lastAvail);
          AndNone(heads[..k]);
          return;
        }
        inflightCheck := false;
      }
      var numAvail := Idx(avail - lastAvail);
      IdxSub(avail, last + k);
      HeadsNone(ring, lastAvail);
      if numAvail > qsz {
        AndNone(heads[..k]);
        res := TooMany;
        return;
      }
      ghost var more;
      res, n, more := TakeAvailable(mem, k, ring, numAvail);
      IdxAdd(last + k, n);
      GivesMore(given, more, mem, max, 0, heads[..k], Heads(ring, Idx(last + k), n));
      given := given + more;
    }

    /** Calls that go on where the last one stopped show the handler every entry once, in order. */
    method DispatchStream(mem: nat -> Mem, avail: nat, ring: seq<nat>, ghost entries: seq<nat>, ghost seen: nat)
      returns (res: Outcome, ghost now: nat, ghost given: seq<Request>)
      requires RingSize(qsz) && |ring| == qsz && avail < WRAP && !inflightCheck && forall i :: mem(i).qsz == qsz
      requires seen <= |entries| && lastAvail == Idx(seen)
      requires Published(ring, entries, seen, seen + Idx(avail - Idx(seen)))
      modifies this, walker, walker.buffers
      ensures seen <= now <= |entries| && lastAvail == Idx(now) && !inflightCheck
      ensures handled == old(handled) + given
      ensures Gives(given, mem, walker.buffers.Length, 0, entries[seen..now])
      ensures res == AllHandled ==> now == seen + Idx(avail - Idx(seen))
    {
      hide Idx, Slot, Heads, Shown, ChainFits, Gives;
      IdxSub(avail, seen);
      var k, n;
      res, k, n, given := DequeueMany(mem, [], avail, ring);
      now := seen + n;
      IdxAdd(seen, n);
      IdxAdd(seen, 0);
      TakenInOrder(ring, entries, seen, n);
      assert [][..k] + entries[seen..now] == entries[seen..now];
    }
  }
}
