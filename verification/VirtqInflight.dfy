/**
 * The code that maintains the inflight region of a virtqueue, store by store.  Each method is
 * tied to the single-store functions that the transition system of module Inflight steps through.
 */
module VirtqInflight {
  import opened RingIndex
  import opened Counting
  import opened Inflight

  // ----- recovery as one function of the region

  /** The region a completed recovery leaves behind. */
  function Recovered(r: Region, ringUsedIdx: nat): Region
    requires r.lastBatchHead < |r.desc| || MaxCounter(r.desc) == 0 || Idx(ringUsedIdx - r.usedIdx) == 0
  {
    var lost := MaxCounter(r.desc) != 0 && Idx(ringUsedIdx - r.usedIdx) != 0;
    (if lost then StoreInflight(r, r.lastBatchHead, false) else r).(usedIdx := ringUsedIdx)
  }

  /** The recovery steps of the transition system, run without a crash, compute it. */
  lemma StepsRecover(s: State, todo: seq<nat>)
    requires Inv(s) && s.dev.Down?
    requires var a := Apply(s, Reconnect);
             var b := if a.dev.reqCnt == 0 || Lead(a) == 0 then a
                      else if Enabled(a, ClearLast) then Apply(a, ClearLast) else a;
             Enabled(b, FinishRecovery(todo))
    ensures s.region.lastBatchHead < |s.region.desc| || MaxCounter(s.region.desc) == 0 || Lead(s) == 0
    ensures var a := Apply(s, Reconnect);
            var b := if a.dev.reqCnt == 0 || Lead(a) == 0 then a
                     else if Enabled(a, ClearLast) then Apply(a, ClearLast) else a;
            var u := Apply(b, FinishRecovery(todo));
            && u.region == Recovered(s.region, s.usedRingIdx)
            && u.dev.reqCnt == MaxCounter(s.region.desc) + 1
            && u.dev.todo == s.hist.outstanding
  {
    hide PlaceInv, Conserved, RingHolds, CountersAscend, FlagInv, IsReplayOrder, RingSize, MaxCounter;
    var a := Apply(s, Reconnect);
    ReconnectKeeps(s);
    if a.dev.reqCnt == 0 || Lead(a) == 0 {
      ReplayIsOutstanding(a, todo);
    } else {
      LeadOne(a);
      ClearLastKeeps(a);
      ReplayIsOutstanding(Apply(a, ClearLast), todo);
    }
  }

  // ----- the head a fetch is about to take

  ghost function NextHead(s: State): nat
    requires Enabled(s, FetchCounter)
  {
    s.availRing[Slot(s.dev.lastAvail, s.n)]
  }

  // ----- sorting by counter

  ghost predicate SortedByCounter(desc: seq<DescState>, a: seq<nat>) {
    && (forall i :: 0 <= i < |a| ==> a[i] < |desc|)
    && (forall i, j :: 0 <= i < j < |a| ==> desc[a[i]].counter <= desc[a[j]].counter)
  }

  function InsertByCounter(desc: seq<DescState>, a: seq<nat>, h: nat): (r: seq<nat>)
    requires h < |desc| && forall i :: 0 <= i < |a| ==> a[i] < |desc|
    ensures forall x :: x in r <==> x in a || x == h
  {
    if a == [] || desc[h].counter <= desc[a[0]].counter then [h] + a
    else [a[0]] + InsertByCounter(desc, a[1..], h)
  }

  lemma PrependSorted(desc: seq<DescState>, x: nat, r: seq<nat>)
    requires SortedByCounter(desc, r) && Distinct(r) && x < |desc| && x !in r
    requires forall y :: y in r ==> y < |desc| && desc[x].counter <= desc[y].counter
    ensures SortedByCounter(desc, [x] + r) && Distinct([x] + r)
  {
    assert forall i :: 0 <= i < |r| ==> r[i] in r;
  }

  lemma {:induction false} InsertSorts(desc: seq<DescState>, a: seq<nat>, h: nat)
    requires h < |desc| && SortedByCounter(desc, a) && Distinct(a) && h !in a
    ensures var r := InsertByCounter(desc, a, h); SortedByCounter(desc, r) && Distinct(r)
  {
    if a == [] || desc[h].counter <= desc[a[0]].counter {
      PrependSorted(desc, h, a);
    } else {
      InsertSorts(desc, a[1..], h);
      PrependSorted(desc, a[0], InsertByCounter(desc, a[1..], h));
    }
  }

  /** Stands for the library sort by counter. */
  function SortHeads(desc: seq<DescState>, a: seq<nat>): (r: seq<nat>)
    requires forall i :: 0 <= i < |a| ==> a[i] < |desc|
    ensures forall x :: x in r <==> x in a
  {
    if a == [] then []
    else
      var rest := SortHeads(desc, a[1..]);
      assert forall i :: 0 <= i < |rest| ==> rest[i] in rest;
      InsertByCounter(desc, rest, a[0])
  }

  lemma {:induction false} SortSorts(desc: seq<DescState>, a: seq<nat>)
    requires Distinct(a) && forall i :: 0 <= i < |a| ==> a[i] < |desc|
    ensures SortedByCounter(desc, SortHeads(desc, a)) && Distinct(SortHeads(desc, a))
  {
    if a != [] {
      SortSorts(desc, a[1..]);
      InsertSorts(desc, SortHeads(desc, a[1..]), a[0]);
    }
  }

  // ----- the code

  class Virtq {
    const desc: array<DescState>
    var lastBatchHead: nat
    var usedIdx: nat
    var ringUsedIdx: nat
    var reqCnt: nat

    /** The region after each store made to it. */
    ghost var stores: seq<Region>

    constructor (size: nat)
      ensures fresh(desc) && desc.Length == size
    {
      desc := new DescState[size](_ => DescState(false, 0, 0));
      lastBatchHead, usedIdx, ringUsedIdx, reqCnt, stores := 0, 0, 0, 0, [];
    }

    /** The shared region as a value. */
    function Shared(): Region
      reads this, desc
    {
      Region(desc[..], lastBatchHead, usedIdx)
    }

    // Single stores to the region; each is recorded, as the process may die after any of them.

    method SetCounter(head: nat, c: nat)
      requires head < desc.Length
      modifies this`stores, desc
      ensures Shared() == StoreCounter(old(Shared()), head, c) && stores == old(stores) + [Shared()]
    {
      desc[head] := desc[head].(counter := c);
      stores := stores + [Shared()];
    }

    method SetInflight(head: nat, flag: bool)
      requires head < desc.Length
      modifies this`stores, desc
      ensures Shared() == StoreInflight(old(Shared()), head, flag) && stores == old(stores) + [Shared()]
    {
      desc[head] := desc[head].(inflight := flag);
      stores := stores + [Shared()];
    }

    method SetNext(head: nat, x: nat)
      requires head < desc.Length
      modifies this`stores, desc
      ensures Shared() == StoreNext(old(Shared()), head, x) && stores == old(stores) + [Shared()]
    {
      desc[head] := desc[head].(next := x);
      stores := stores + [Shared()];
    }

    method SetBatchHead(head: nat)
      modifies this`stores, this`lastBatchHead
      ensures Shared() == old(Shared()).(lastBatchHead := head) && stores == old(stores) + [Shared()]
    {
      lastBatchHead := head;
      stores := stores + [Shared()];
    }

    method SetUsedIdx(idx: nat)
      modifies this`stores, this`usedIdx
      ensures Shared() == old(Shared()).(usedIdx := idx) && stores == old(stores) + [Shared()]
    {
      usedIdx := idx;
      stores := stores + [Shared()];
    }

    /** For every state about to fetch `head`, the stores are those of its two steps, in their order. */
    method AvailUpdate(head: nat, ghost s: State)
      requires head < desc.Length
      modifies this`reqCnt, this`stores, desc
      ensures Enabled(s, FetchCounter) && NextHead(s) == head && s.region == old(Shared())
              && s.dev.reqCnt == old(reqCnt) ==>
                var t := Apply(s, FetchCounter);
                && Enabled(t, FetchFlag)
                && stores == old(stores) + [t.region, Apply(t, FetchFlag).region]
                && Shared() == Apply(t, FetchFlag).region && reqCnt == Apply(t, FetchFlag).dev.reqCnt
    {
      SetCounter(head, reqCnt);
      SetInflight(head, true);
      reqCnt := reqCnt + 1;
    }

    /** For every state in the middle of pushing `head`, the stores are those of linking it to the last batch. */
    method UsedUpdate(head: nat, ghost s: State)
      requires head < desc.Length
      modifies this`lastBatchHead, this`stores, desc
      ensures Enabled(s, PushNext) && s.dev.push.head == head && s.region == old(Shared()) ==>
                var t := Apply(s, PushNext);
                && Enabled(t, PushHead)
                && stores == old(stores) + [t.region, Apply(t, PushHead).region]
                && Shared() == Apply(t, PushHead).region
    {
      SetNext(head, lastBatchHead);
      SetBatchHead(head);
    }

    /** For every state that has published `head`, the stores are those of forgetting it. */
    method UsedCommit(head: nat, ghost s: State)
      requires head < desc.Length
      modifies this`usedIdx, this`stores, desc
      ensures Enabled(s, PushFlag) && s.dev.push.head == head && s.region == old(Shared())
              && s.usedRingIdx == ringUsedIdx ==>
                var t := Apply(s, PushFlag);
                && Enabled(t, PushUsedIdx)
                && stores == old(stores) + [t.region, Apply(t, PushUsedIdx).region]
                && Shared() == Apply(t, PushUsedIdx).region
    {
      SetInflight(head, false);
      SetUsedIdx(ringUsedIdx);
    }

    /** The batch size assertion and the head it walks from are what module Inflight proves. */
    method ReconnectUpdate()
      requires MaxCounter(desc[..]) != 0 && Idx(ringUsedIdx - usedIdx) != 0 ==>
                 Idx(ringUsedIdx - usedIdx) == 1 && lastBatchHead < desc.Length
      modifies this`reqCnt, this`usedIdx, this`stores, desc
      ensures old(lastBatchHead) < desc.Length || MaxCounter(old(desc[..])) == 0 || Idx(ringUsedIdx - old(usedIdx)) == 0
      ensures Shared() == Recovered(old(Shared()), ringUsedIdx)
      ensures reqCnt == MaxCounter(old(desc[..])) + 1
      ensures stores == old(stores)
                        + (if MaxCounter(old(desc[..])) == 0 || Idx(ringUsedIdx - old(usedIdx)) == 0 then []
                           else [StoreInflight(old(Shared()), lastBatchHead, false)])
                        + [Shared()]
    {
      reqCnt := 0;
      for idx := 0 to desc.Length
        invariant desc[..] == old(desc[..]) && usedIdx == old(usedIdx) && stores == old(stores)
        invariant reqCnt == MaxCounter(desc[..idx])
      {
        assert desc[..idx + 1][..idx] == desc[..idx];
        if desc[idx].counter > reqCnt {
          reqCnt := desc[idx].counter;
        }
      }
      assert desc[..desc.Length] == desc[..];
      if reqCnt != 0 {
        var batchSize := Idx(ringUsedIdx - usedIdx);
        if batchSize != 0 {
          assert batchSize == 1;
          var idx := lastBatchHead;
          while batchSize != 0
            invariant batchSize == 1 ==> idx == lastBatchHead && desc[..] == old(desc[..]) && stores == old(stores)
            invariant batchSize == 0 ==>
                        && Shared() == StoreInflight(old(Shared()), lastBatchHead, false)
                        && stores == old(stores) + [Shared()]
            invariant batchSize <= 1 && usedIdx == old(usedIdx) && reqCnt == MaxCounter(old(desc[..]))
          {
            SetInflight(idx, false);
            idx := desc[idx].next;
            batchSize := batchSize - 1;
          }
        }
      }
      reqCnt := reqCnt + 1;
      SetUsedIdx(ringUsedIdx);
    }

    /** Collect the flagged heads in index order, then sort them. */
    method ResubmitOrder() returns (heads: seq<nat>)
      ensures IsReplayOrder(desc[..], heads)
    {
      var found: seq<nat> := [];
      for i := 0 to desc.Length
        invariant forall k :: 0 <= k < |found| ==> found[k] < i && desc[found[k]].inflight
        invariant Distinct(found)
        invariant forall h :: 0 <= h < i && desc[h].inflight ==> h in found
      {
        if desc[i].inflight {
          found := found + [i];
        }
      }
      heads := SortHeads(desc[..], found);
      SortSorts(desc[..], found);
      assert forall k :: 0 <= k < |heads| ==> heads[k] in heads;
    }
  }
}
