/**
 * Walking a descriptor chain: the guest controls the descriptors, so the chain may point anywhere,
 * share, or run in circles; what comes out is either an error or the flattened chain, translated.
 */
module ChainWalk {
  import opened Counting
  import opened MemMap

  const DESC_SIZE := 16
  const U16 := 0x1_0000
  const WINDOWS_CHAIN_LEN_MAX := 515

  datatype Desc = Desc(addr: nat, len: nat, write: bool, more: bool, indirect: bool, next: nat)

  datatype Buffer = Buffer(base: nat, len: nat, writable: bool)

  datatype Error = NoBuffers | Invalid | Fault | OutOfRange | Nested

  datatype Result = Ok(count: nat) | Err(error: Error)

  /**
   * Guest memory, which the guest may write at any time: what the n-th descriptor read of a walk
   * finds at an index of the ring, or at a pointer.  The memory map does not change under a walk.
   */
  datatype Mem = Mem(qsz: nat, map_: seq<Region>, ringAt: (nat, nat) -> Desc, tableAt: (nat, nat) -> Desc)

  /** Descriptors that can be read, and the bound `next` is checked against. */
  datatype Source = Source(at: (nat, nat) -> Desc, size: nat, limit: nat)

  function MaxChain(qsz: nat): nat {
    if qsz > WINDOWS_CHAIN_LEN_MAX then qsz else WINDOWS_CHAIN_LEN_MAX
  }

  function Ring(mem: Mem): Source {
    Source(mem.ringAt, mem.qsz, mem.qsz)
  }

  predicate GoodLength(d: Desc) {
    d.len != 0 && d.len % DESC_SIZE == 0
  }

  /** An indirect table, if its length is good and it is mapped; its length is kept in 16 bits. */
  function Table(mem: Mem, d: Desc): Option<Source> {
    if !GoodLength(d) then None
    else match GpaToPtr(mem.map_, d.addr, d.len)
      case None => None
      case Found(ptr) =>
        var n := d.len / DESC_SIZE;
        Found(Source((t: nat, i: nat) => mem.tableAt(t, ptr + DESC_SIZE * i), n, n % U16))
  }

  /**
   * Entry `i` of a table is read at its guest address, 16 bytes for each entry before it, and ends
   * inside the mapped table.
   */
  lemma TableEntries(mem: Mem, d: Desc, t: nat, i: nat)
    requires Table(mem, d).Found? && i < d.len / 16
    ensures GpaToPtr(mem.map_, d.addr, d.len).Found?
    ensures var src, base := Table(mem, d).value, GpaToPtr(mem.map_, d.addr, d.len).value;
            && i < src.size && src.limit <= src.size && 16 * src.size == d.len
            && src.at(t, i) == mem.tableAt(t, base + 16 * i) && base + 16 * i + 16 <= base + d.len
            && (Ascends(mem.map_) ==> GpaToPtr(mem.map_, d.addr + 16 * i, 16) == Found(base + 16 * i))
  {
    if Ascends(mem.map_) { PartFound(mem.map_, d.addr, d.len, 16 * i, 16); }
  }

  // ----- what a chain is

  /** Reading on from read `t` at index `i`, plain descriptors `pre` link to index `j`. */
  ghost predicate Leads(src: Source, t: nat, i: nat, pre: seq<Desc>, j: nat)
    decreases |pre|
  {
    if pre == [] then i == j
    else
      var d := src.at(t, i);
      !d.indirect && d.more && d.next < src.limit && pre[0] == d && Leads(src, t + 1, d.next, pre[1..], j)
  }

  /** `ds` is the chain in an indirect table from index `idx`, as reads from `t` on find it. */
  ghost predicate FlatTable(src: Source, t: nat, idx: nat, ds: seq<Desc>)
    decreases |ds|
  {
    ds != [] &&
    var d := src.at(t, idx);
    && !d.indirect && ds[0] == d
    && if d.more then d.next < src.limit && FlatTable(src, t + 1, d.next, ds[1..]) else |ds| == 1
  }

  /** `ds` is the flattened chain from index `idx` of the ring, as reads from `t` on find it. */
  ghost predicate Flat(mem: Mem, t: nat, idx: nat, ds: seq<Desc>)
    decreases |ds|
  {
    ds != [] &&
    var d := mem.ringAt(t, idx);
    if d.indirect then
      !d.more && Table(mem, d).Found? && FlatTable(Table(mem, d).value, t + 1, 0, ds)
    else
      && ds[0] == d
      && if d.more then d.next < mem.qsz && Flat(mem, t + 1, d.next, ds[1..]) else |ds| == 1
  }

  predicate MapsTo(mem: Mem, d: Desc) {
    GpaToPtr(mem.map_, d.addr, d.len).Found?
  }

  /** Every device-writable descriptor comes after every device-readable one. */
  ghost predicate Framed(ds: seq<Desc>) {
    forall i, j :: 0 <= i < j < |ds| && ds[i].write ==> ds[j].write
  }

  ghost predicate Fits(mem: Mem, max: nat, ds: seq<Desc>) {
    |ds| <= max && Framed(ds) && AllMap(mem, ds)
  }

  function ToBuffer(mem: Mem, d: Desc): Buffer {
    match GpaToPtr(mem.map_, d.addr, d.len)
    case Found(ptr) => Buffer(ptr, d.len, d.write)
    case None => Buffer(0, d.len, d.write)
  }

  function Buffers(mem: Mem, ds: seq<Desc>): seq<Buffer> {
    seq(|ds|, i requires 0 <= i < |ds| => ToBuffer(mem, ds[i]))
  }

  /** Device-readable and device-writable buffers of a chain. */
  function Writes(ds: seq<Desc>): nat {
    if ds == [] then 0 else Writes(ds[..|ds| - 1]) + if ds[|ds| - 1].write then 1 else 0
  }

  lemma {:induction false} TableUnique(src: Source, t: nat, idx: nat, ds: seq<Desc>, es: seq<Desc>)
    requires FlatTable(src, t, idx, ds) && FlatTable(src, t, idx, es)
    ensures ds == es
    decreases |ds|
  {
    if src.at(t, idx).more {
      TableUnique(src, t + 1, src.at(t, idx).next, ds[1..], es[1..]);
      assert ds == [ds[0]] + ds[1..] && es == [es[0]] + es[1..];
    }
  }

  /** A chain has at most one flattening. */
  lemma {:induction false} FlatUnique(mem: Mem, t: nat, idx: nat, ds: seq<Desc>, es: seq<Desc>)
    requires Flat(mem, t, idx, ds) && Flat(mem, t, idx, es)
    ensures ds == es
    decreases |ds|
  {
    var d := mem.ringAt(t, idx);
    if d.indirect {
      TableUnique(Table(mem, d).value, t + 1, 0, ds, es);
    } else if d.more {
      FlatUnique(mem, t + 1, d.next, ds[1..], es[1..]);
      assert ds == [ds[0]] + ds[1..] && es == [es[0]] + es[1..];
    }
  }

  // ----- how far the walk has come

  lemma {:induction false} LeadsOne(src: Source, t: nat, i: nat, pre: seq<Desc>, j: nat)
    requires Leads(src, t, i, pre, j)
    requires var d := src.at(t + |pre|, j); !d.indirect && d.more && d.next < src.limit
    ensures var d := src.at(t + |pre|, j); Leads(src, t, i, pre + [d], d.next)
    decreases |pre|
  {
    var d := src.at(t + |pre|, j);
    if pre == [] {
      assert [d][1..] == [] && pre + [d] == [d];
    } else {
      LeadsOne(src, t + 1, pre[0].next, pre[1..], j);
      assert (pre + [d])[1..] == pre[1..] + [d];
    }
  }

  /** The chains from where the walk began are what it has passed and the chains from where it is. */
  lemma {:induction false} Onward(mem: Mem, t: nat, i: nat, pre: seq<Desc>, j: nat, ds: seq<Desc>)
    requires Leads(Ring(mem), t, i, pre, j)
    ensures Flat(mem, t, i, ds) <==> |ds| > |pre| && ds[..|pre|] == pre && Flat(mem, t + |pre|, j, ds[|pre|..])
    decreases |pre|
  {
    hide Table, FlatTable;
    if pre == [] {
      assert ds[0..] == ds;
    } else if ds != [] {
      var d := mem.ringAt(t, i);
      Onward(mem, t + 1, d.next, pre[1..], j, ds[1..]);
      if |ds| > |pre| {
        assert ds[|pre|..] == ds[1..][|pre| - 1..];
        assert ds[1..|pre|] == ds[1..][..|pre| - 1];
        assert ds[..|pre|] == [ds[0]] + ds[1..|pre|] && pre == [pre[0]] + pre[1..];
      }
    }
  }

  lemma {:induction false} TableOnward(src: Source, t: nat, i: nat, pre: seq<Desc>, j: nat, ds: seq<Desc>)
    requires Leads(src, t, i, pre, j)
    ensures FlatTable(src, t, i, ds) <==>
            |ds| > |pre| && ds[..|pre|] == pre && FlatTable(src, t + |pre|, j, ds[|pre|..])
    decreases |pre|
  {
    if pre == [] {
      assert ds[0..] == ds;
    } else if ds != [] {
      var d := src.at(t, i);
      TableOnward(src, t + 1, d.next, pre[1..], j, ds[1..]);
      if |ds| > |pre| {
        assert ds[|pre|..] == ds[1..][|pre| - 1..];
        assert ds[1..|pre|] == ds[1..][..|pre| - 1];
        assert ds[..|pre|] == [ds[0]] + ds[1..|pre|] && pre == [pre[0]] + pre[1..];
      }
    }
  }

  /** The guest leaves its descriptors alone. */
  ghost predicate Still(src: Source) {
    forall t: nat, u: nat, i: nat :: src.at(t, i) == src.at(u, i)
  }

  lemma {:induction false} LeadsLater(src: Source, t: nat, u: nat, i: nat, pre: seq<Desc>, j: nat)
    requires Still(src) && Leads(src, t, i, pre, j)
    ensures Leads(src, u, i, pre, j)
    decreases |pre|
  {
    if pre != [] {
      assert src.at(t, i) == src.at(u, i);
      LeadsLater(src, t + 1, u + 1, src.at(t, i).next, pre[1..], j);
    }
  }

  /** Descriptors whose links come back to where they began have no flattening. */
  lemma {:induction false} CircularHasNone(mem: Mem, t: nat, i: nat, round: seq<Desc>, ds: seq<Desc>)
    requires Still(Ring(mem)) && round != [] && Leads(Ring(mem), t, i, round, i)
    ensures !Flat(mem, t, i, ds)
    decreases |ds|
  {
    Onward(mem, t, i, round, i, ds);
    if Flat(mem, t, i, ds) {
      LeadsLater(Ring(mem), t, t + |round|, i, round, i);
      CircularHasNone(mem, t + |round|, i, round, ds[|round|..]);
    }
  }

  /** A chain that runs into a circle anywhere is refused, whatever there is room for. */
  lemma CircularFails(mem: Mem, max: nat, head: nat, pre: seq<Desc>, i: nat, round: seq<Desc>)
    requires Still(Ring(mem)) && Leads(Ring(mem), 0, head, pre, i) && round != [] && Leads(Ring(mem), 0, i, round, i)
    ensures !ChainFits(mem, max, head)
  {
    hide Flat, Fits;
    forall ds ensures !Flat(mem, 0, head, ds) {
      Onward(mem, 0, head, pre, i, ds);
      if Flat(mem, 0, head, ds) {
        LeadsLater(Ring(mem), 0, |pre|, i, round, i);
        CircularHasNone(mem, |pre|, i, round, ds[|pre|..]);
      }
    }
  }

  // ----- what the buffers already hold decides what still fits

  lemma {:induction false} WritesZero(ds: seq<Desc>)
    ensures Writes(ds) <= |ds|
    ensures Writes(ds) == 0 <==> forall i :: 0 <= i < |ds| ==> !ds[i].write
  {
    if ds != [] {
      WritesZero(ds[..|ds| - 1]);
      assert ds[|ds| - 1].write == false || Writes(ds) > 0;
    }
  }

  /** In a framed chain the writable descriptors are exactly the last ones. */
  lemma {:induction false} WritesAreLast(ds: seq<Desc>, i: nat)
    requires Framed(ds) && i < |ds|
    ensures Writes(ds) <= |ds| && (ds[i].write <==> i >= |ds| - Writes(ds))
  {
    var n := |ds| - 1;
    var pre := ds[..n];
    WritesZero(pre);
    assert Framed(pre);
    assert Writes(pre) > 0 ==> ds[n].write;
    if i < n { WritesAreLast(pre, i); }
  }

  lemma FramedOne(pre: seq<Desc>, d: Desc)
    requires Framed(pre)
    ensures Framed(pre + [d]) <==> d.write || Writes(pre) == 0
  {
    var ds := pre + [d];
    WritesZero(pre);
    if Framed(ds) && Writes(pre) > 0 {
      var i :| 0 <= i < |pre| && pre[i].write;
      assert ds[i].write && ds[|pre|] == d;
    }
  }

  lemma MappedOne(mem: Mem, pre: seq<Desc>, d: Desc)
    requires AllMap(mem, pre)
    ensures AllMap(mem, pre + [d]) <==> MapsTo(mem, d)
  {
    assert (pre + [d])[|pre|] == d;
  }

  ghost predicate AllMap(mem: Mem, ds: seq<Desc>) {
    forall i :: 0 <= i < |ds| ==> MapsTo(mem, ds[i])
  }

  lemma FitsOne(mem: Mem, max: nat, pre: seq<Desc>, d: Desc)
    requires Fits(mem, max, pre)
    ensures Fits(mem, max, pre + [d]) <==> |pre| < max && MapsTo(mem, d) && (d.write || Writes(pre) == 0)
  {
    hide Framed, MapsTo, AllMap, Writes;
    FramedOne(pre, d);
    MappedOne(mem, pre, d);
  }

  lemma BuffersOne(mem: Mem, pre: seq<Desc>, d: Desc)
    ensures Buffers(mem, pre + [d]) == Buffers(mem, pre) + [ToBuffer(mem, d)]
    ensures Writes(pre + [d]) == Writes(pre) + if d.write then 1 else 0
  {
    hide ToBuffer;
    assert (pre + [d])[..|pre|] == pre;
  }

  lemma FitsPrefix(mem: Mem, max: nat, pre: seq<Desc>, ds: seq<Desc>)
    requires Fits(mem, max, ds) && |pre| <= |ds| && ds[..|pre|] == pre
    ensures Fits(mem, max, pre)
  {
    assert forall i :: 0 <= i < |pre| ==> pre[i] == ds[i];
  }

  /** The chain takes up `count` descriptors of the ring, an indirect one included. */
  ghost predicate Consumes(mem: Mem, head: nat, count: nat) {
    exists seen, idx ::
      && Leads(Ring(mem), 0, head, seen, idx) && count == |seen| + 1 && !mem.ringAt(|seen|, idx).more
  }

  lemma {:induction false} EndsOnce(src: Source, t: nat, i: nat, a: seq<Desc>, j: nat, b: seq<Desc>, k: nat)
    requires Leads(src, t, i, a, j) && Leads(src, t, i, b, k) && !src.at(t + |a|, j).more && !src.at(t + |b|, k).more
    ensures |a| == |b|
    decreases |a|
  {
    if a != [] && b != [] { EndsOnce(src, t + 1, src.at(t, i).next, a[1..], j, b[1..], k); }
  }

  /** It takes up one number of them. */
  lemma ConsumesOnce(mem: Mem, head: nat, count: nat, other: nat)
    requires Consumes(mem, head, count) && Consumes(mem, head, other)
    ensures count == other
  {
    var a, j :| Leads(Ring(mem), 0, head, a, j) && count == |a| + 1 && !mem.ringAt(|a|, j).more;
    var b, k :| Leads(Ring(mem), 0, head, b, k) && other == |b| + 1 && !mem.ringAt(|b|, k).more;
    EndsOnce(Ring(mem), 0, head, a, j, b, k);
  }

  // ----- what a refused walk met

  /** The fault of a plain descriptor that follows `pre`. */
  ghost predicate Unfit(mem: Mem, max: nat, pre: seq<Desc>, d: Desc, e: Error) {
    match e
    case Fault => !MapsTo(mem, d)
    case NoBuffers => MapsTo(mem, d) && |pre| >= max
    case Invalid => MapsTo(mem, d) && |pre| < max && !d.write && Writes(pre) > 0
    case _ => false
  }

  /** The fault of one read, at which the walk ends: all before it was in order. */
  ghost predicate Faulty(mem: Mem, max: nat, src: Source, pre: seq<Desc>, d: Desc, e: Error) {
    || (!d.indirect && Unfit(mem, max, pre, d, e))
    || (!d.indirect && Fits(mem, max, pre + [d]) && d.more && d.next >= src.limit && e == OutOfRange)
  }

  /** In the table the walk read the descriptors `seen` from read `t` on, and then a faulty one. */
  ghost predicate TableBlamed(mem: Mem, max: nat, src: Source, t: nat, pre: seq<Desc>, seen: seq<Desc>, idx: nat,
                              e: Error)
  {
    && idx < src.size && Leads(src, t, 0, seen, idx) && Fits(mem, max, pre + seen)
    && var d := src.at(t + |seen|, idx);
       (d.indirect && e == Nested) || Faulty(mem, max, src, pre + seen, d, e)
  }

  ghost predicate TableRefused(mem: Mem, max: nat, src: Source, t: nat, pre: seq<Desc>, e: Error) {
    exists seen, idx :: TableBlamed(mem, max, src, t, pre, seen, idx, e)
  }

  /** So in the ring, or in the indirect table its chain ends in. */
  ghost predicate Blamed(mem: Mem, max: nat, head: nat, seen: seq<Desc>, idx: nat, e: Error) {
    && idx < mem.qsz && Leads(Ring(mem), 0, head, seen, idx) && Fits(mem, max, seen)
    && var d := mem.ringAt(|seen|, idx);
       || Faulty(mem, max, Ring(mem), seen, d, e)
       || (d.indirect && (d.more || !GoodLength(d)) && e == Invalid)
       || (d.indirect && !d.more && GoodLength(d) && Table(mem, d).None? && e == Fault)
       || (d.indirect && !d.more && Table(mem, d).Found?
           && TableRefused(mem, max, Table(mem, d).value, |seen| + 1, seen, e))
  }

  ghost predicate Refused(mem: Mem, max: nat, head: nat, e: Error) {
    exists seen, idx :: Blamed(mem, max, head, seen, idx, e)
  }

  /** The buffers of one virtqueue; device-readable ones come first. */
  class Walker {
    const buffers: array<Buffer>
    var nOut: nat
    var nIn: nat

    ghost predicate Valid()
      reads this
    {
      nOut + nIn <= buffers.Length
    }

    constructor (qsz: nat)
      ensures Valid() && fresh(buffers) && buffers.Length == MaxChain(qsz) && nOut == nIn == 0
    {
      buffers := new Buffer[MaxChain(qsz)](_ => Buffer(0, 0, false));
      nOut, nIn := 0, 0;
    }

    /** The buffers are the translation of `ds`. */
    ghost predicate Holds(mem: Mem, ds: seq<Desc>)
      reads this, buffers
    {
      && Valid() && buffers[..nOut + nIn] == Buffers(mem, ds) && nIn == Writes(ds) && nOut + nIn == |ds|
      && Fits(mem, buffers.Length, ds)
    }

    method AddBuffer(addr: nat, len: nat, writable: bool) returns (r: Result)
      requires Valid()
      modifies this, buffers
      ensures Valid()
      ensures r.Ok? <==> old(nOut + nIn) < buffers.Length && (writable || old(nIn) == 0)
      ensures r.Err? ==> r.error == if old(nOut + nIn) < buffers.Length then Invalid else NoBuffers
      ensures r.Ok? ==> buffers[..nOut + nIn] == old(buffers[..nOut + nIn]) + [Buffer(addr, len, writable)]
      ensures r.Ok? ==> nOut + nIn == old(nOut + nIn) + 1 && nIn == old(nIn) + if writable then 1 else 0
    {
      var n := nOut + nIn;
      if n >= buffers.Length { return Err(NoBuffers); }
      if writable {
        nIn := nIn + 1;
      } else {
        if nIn != 0 { return Err(Invalid); }
        nOut := nOut + 1;
      }
      buffers[n] := Buffer(addr, len, writable);
      return Ok(n);
    }

    method MapBuffer(mem: Mem, d: Desc, ghost pre: seq<Desc>) returns (r: Result)
      requires Holds(mem, pre)
      modifies this, buffers
      ensures r.Ok? <==> Fits(mem, buffers.Length, pre + [d])
      ensures r.Ok? ==> Holds(mem, pre + [d])
      ensures r.Err? ==> Unfit(mem, buffers.Length, pre, d, r.error)
    {
      FitsOne(mem, buffers.Length, pre, d);
      BuffersOne(mem, pre, d);
      match GpaToPtr(mem.map_, d.addr, d.len) {
        case None => r := Err(Fault);
        case Found(ptr) => r := AddBuffer(ptr, d.len, d.write);
      }
    }

    /** The table `src` that descriptor `d`, read `t - 1`, names; `pre` is what the buffers hold. */
    method WalkTable(mem: Mem, src: Source, t: nat, ghost pre: seq<Desc>) returns (r: Result)
      requires Holds(mem, pre) && src.limit <= src.size && 0 < src.size
      modifies this, buffers
      ensures r.Ok? <==> TableFits(mem, buffers.Length, src, t, pre)
      ensures r.Ok? ==> forall rest :: FlatTable(src, t, 0, rest) ==> Holds(mem, pre + rest)
      ensures r.Err? ==> TableRefused(mem, buffers.Length, src, t, pre, r.error)
    {
      hide FlatTable, Leads, Fits, Unfit, Buffers, Writes;
      var idx: nat, n: nat := 0, 0;
      ghost var seen := [];
      assert Leads(src, t, 0, seen, idx) by { LeadsNone(src, t, 0); }
      assert pre + seen == pre;
      while true
        invariant idx < src.size && n == |seen| && Leads(src, t, 0, seen, idx) && Holds(mem, pre + seen)
        decreases buffers.Length - |pre + seen|
      {
        var e := src.at(t + n, idx);
        if e.indirect {
          NoTable(mem, buffers.Length, src, t, pre, seen, idx);
          assert TableBlamed(mem, buffers.Length, src, t, pre, seen, idx, Nested);
          return Err(Nested);
        }
        assert pre + seen + [e] == pre + (seen + [e]);
        r := MapBuffer(mem, e, pre + seen);
        if r.Err? {
          TableStuck(mem, buffers.Length, src, t, pre, seen, idx);
          assert TableBlamed(mem, buffers.Length, src, t, pre, seen, idx, r.error);
          return;
        }
        if !e.more {
          TableEnds(mem, buffers.Length, src, t, pre, seen, idx);
          return Ok(0);
        }
        if e.next >= src.limit {
          NoTable(mem, buffers.Length, src, t, pre, seen, idx);
          assert TableBlamed(mem, buffers.Length, src, t, pre, seen, idx, OutOfRange);
          return Err(OutOfRange);
        }
        LeadsOne(src, t, 0, seen, idx);
        FitsSize(mem, buffers.Length, pre + (seen + [e]));
        seen, idx, n := seen + [e], e.next, n + 1;
      }
    }

    /**
     * Succeeds exactly if what the reads found is a chain whose flattening fits, and then the
     * buffers are its translation; otherwise the error is that of the descriptor the walk came to.
     * It ends on every descriptor graph: each round adds a buffer or returns.
     */
    method WalkChain(mem: Mem, head: nat) returns (r: Result)
      requires head < mem.qsz
      modifies this, buffers
      ensures r.Ok? <==> ChainFits(mem, buffers.Length, head)
      ensures r.Ok? ==> forall ds :: Flat(mem, 0, head, ds) ==> Holds(mem, ds)
      ensures r.Ok? ==> Consumes(mem, head, r.count)
      ensures r.Err? ==> Refused(mem, buffers.Length, head, r.error)
    {
      hide Flat, FlatTable, Leads, Fits, Unfit, Table, Buffers, Writes, TableBlamed, TableRefused;
      nOut, nIn := 0, 0;
      var idx: nat, n: nat := head, 0;
      ghost var seen := [];
      LeadsNone(Ring(mem), 0, head);
      FitsNone(mem, buffers.Length);
      while true
        invariant idx < mem.qsz && n == |seen| && Leads(Ring(mem), 0, head, seen, idx) && Holds(mem, seen)
        decreases buffers.Length - |seen|
      {
        var d := mem.ringAt(n, idx);
        if d.indirect {
          r := Indirect(mem, head, d, n, idx, seen);
          return;
        }
        r := MapBuffer(mem, d, seen);
        if r.Err? {
          ChainStuck(mem, buffers.Length, head, seen, idx);
          assert Blamed(mem, buffers.Length, head, seen, idx, r.error);
          return;
        }
        if !d.more {
          ChainEnds(mem, head, seen, idx);
          return Ok(n + 1);
        }
        if d.next >= mem.qsz {
          NoChain(mem, buffers.Length, head, seen, idx);
          assert Blamed(mem, buffers.Length, head, seen, idx, OutOfRange);
          return Err(OutOfRange);
        }
        LeadsOne(Ring(mem), 0, head, seen, idx);
        FitsSize(mem, buffers.Length, seen + [d]);
        seen, idx, n := seen + [d], d.next, n + 1;
      }
    }

    /** The chain goes on, and ends, in an indirect table. */
    method Indirect(mem: Mem, ghost head: nat, d: Desc, n: nat, ghost idx: nat, ghost seen: seq<Desc>)
      returns (r: Result)
      requires idx < mem.qsz && n == |seen| && Leads(Ring(mem), 0, head, seen, idx) && Holds(mem, seen)
      requires d == mem.ringAt(n, idx) && d.indirect
      modifies this, buffers
      ensures r.Ok? <==> ChainFits(mem, buffers.Length, head)
      ensures r.Ok? ==> forall ds :: Flat(mem, 0, head, ds) ==> Holds(mem, ds)
      ensures r.Ok? ==> Consumes(mem, head, r.count)
      ensures r.Err? ==> Refused(mem, buffers.Length, head, r.error)
    {
      hide Flat, FlatTable, Leads, Fits, Unfit, GpaToPtr, Buffers, Writes, TableBlamed, TableRefused;
      if d.more {
        NoChain(mem, buffers.Length, head, seen, idx);
        assert Blamed(mem, buffers.Length, head, seen, idx, Invalid);
        return Err(Invalid);
      }
      IntoTable(mem, buffers.Length, head, seen, idx);
      if d.len == 0 || d.len % DESC_SIZE != 0 {
        assert Blamed(mem, buffers.Length, head, seen, idx, Invalid);
        return Err(Invalid);
      }
      var found := Table(mem, d);
      if found.None? {
        assert Blamed(mem, buffers.Length, head, seen, idx, Fault);
        return Err(Fault);
      }
      r := WalkTable(mem, found.value, n + 1, seen);
      if r.Err? {
        assert Blamed(mem, buffers.Length, head, seen, idx, r.error);
        return;
      }
      r := Ok(n + 1);
    }
  }

  lemma LeadsNone(src: Source, t: nat, i: nat)
    ensures Leads(src, t, i, [], i)
  {}

  lemma FitsNone(mem: Mem, max: nat)
    ensures Fits(mem, max, []) && Buffers(mem, []) == [] && Writes([]) == 0
  {}

  lemma FitsSize(mem: Mem, max: nat, ds: seq<Desc>)
    requires Fits(mem, max, ds)
    ensures |ds| <= max
  {}

  ghost predicate ChainFits(mem: Mem, max: nat, head: nat) {
    exists ds :: Flat(mem, 0, head, ds) && Fits(mem, max, ds)
  }

  lemma NoChain(mem: Mem, max: nat, head: nat, seen: seq<Desc>, idx: nat)
    requires Leads(Ring(mem), 0, head, seen, idx)
    requires var d := mem.ringAt(|seen|, idx); d.more && (d.indirect || d.next >= mem.qsz)
    ensures !ChainFits(mem, max, head)
  {
    forall ds ensures !Flat(mem, 0, head, ds) { Onward(mem, 0, head, seen, idx, ds); }
  }

  lemma ChainStuck(mem: Mem, max: nat, head: nat, seen: seq<Desc>, idx: nat)
    requires Leads(Ring(mem), 0, head, seen, idx) && !mem.ringAt(|seen|, idx).indirect
    requires !Fits(mem, max, seen + [mem.ringAt(|seen|, idx)])
    ensures !ChainFits(mem, max, head)
  {
    forall ds | Flat(mem, 0, head, ds) ensures !Fits(mem, max, ds) {
      Onward(mem, 0, head, seen, idx, ds);
      var so := seen + [mem.ringAt(|seen|, idx)];
      assert ds[|seen|..][0] == mem.ringAt(|seen|, idx);
      assert ds[..|so|] == so;
      if Fits(mem, max, ds) { FitsPrefix(mem, max, so, ds); }
    }
  }

  lemma ChainEnds(mem: Mem, head: nat, seen: seq<Desc>, idx: nat)
    requires Leads(Ring(mem), 0, head, seen, idx)
    requires var d := mem.ringAt(|seen|, idx); !d.indirect && !d.more
    ensures var ds := seen + [mem.ringAt(|seen|, idx)];
            Flat(mem, 0, head, ds) && forall es :: Flat(mem, 0, head, es) ==> es == ds
  {
    var ds := seen + [mem.ringAt(|seen|, idx)];
    assert ds[|seen|..] == [mem.ringAt(|seen|, idx)] && ds[..|seen|] == seen;
    Onward(mem, 0, head, seen, idx, ds);
    forall es | Flat(mem, 0, head, es) ensures es == ds {
      FlatUnique(mem, 0, head, es, ds);
    }
  }

  /** The chain ends in an indirect table. */
  lemma IntoTable(mem: Mem, max: nat, head: nat, seen: seq<Desc>, idx: nat)
    requires Leads(Ring(mem), 0, head, seen, idx)
    requires var d := mem.ringAt(|seen|, idx); d.indirect && !d.more
    ensures var d := mem.ringAt(|seen|, idx);
            && (ChainFits(mem, max, head) <==>
                  Table(mem, d).Found? && TableFits(mem, max, Table(mem, d).value, |seen| + 1, seen))
            && (forall ds :: Flat(mem, 0, head, ds) ==>
                  && |ds| > |seen| && ds == seen + ds[|seen|..] && Table(mem, d).Found?
                  && FlatTable(Table(mem, d).value, |seen| + 1, 0, ds[|seen|..]))
  {
    hide Fits;
    var d := mem.ringAt(|seen|, idx);
    forall ds | Flat(mem, 0, head, ds)
      ensures |ds| > |seen| && ds == seen + ds[|seen|..] && Table(mem, d).Found?
              && FlatTable(Table(mem, d).value, |seen| + 1, 0, ds[|seen|..])
    {
      Onward(mem, 0, head, seen, idx, ds);
    }
    if Table(mem, d).Found? && TableFits(mem, max, Table(mem, d).value, |seen| + 1, seen) {
      var rest :| FlatTable(Table(mem, d).value, |seen| + 1, 0, rest) && Fits(mem, max, seen + rest);
      assert (seen + rest)[|seen|..] == rest && (seen + rest)[..|seen|] == seen;
      Onward(mem, 0, head, seen, idx, seen + rest);
    }
  }

  /** The indirect table has a chain, and it fits after what is already there. */
  ghost predicate TableFits(mem: Mem, max: nat, src: Source, t: nat, pre: seq<Desc>) {
    exists rest :: FlatTable(src, t, 0, rest) && Fits(mem, max, pre + rest)
  }

  lemma NoTable(mem: Mem, max: nat, src: Source, t: nat, pre: seq<Desc>, seen: seq<Desc>, idx: nat)
    requires Leads(src, t, 0, seen, idx)
    requires var e := src.at(t + |seen|, idx); e.indirect || (e.more && e.next >= src.limit)
    ensures !TableFits(mem, max, src, t, pre)
  {
    forall rest ensures !FlatTable(src, t, 0, rest) { TableOnward(src, t, 0, seen, idx, rest); }
  }

  lemma TableStuck(mem: Mem, max: nat, src: Source, t: nat, pre: seq<Desc>, seen: seq<Desc>, idx: nat)
    requires Leads(src, t, 0, seen, idx)
    requires !Fits(mem, max, pre + (seen + [src.at(t + |seen|, idx)]))
    ensures !TableFits(mem, max, src, t, pre)
  {
    forall rest | FlatTable(src, t, 0, rest) ensures !Fits(mem, max, pre + rest) {
      TableOnward(src, t, 0, seen, idx, rest);
      var so := pre + (seen + [src.at(t + |seen|, idx)]);
      assert rest[|seen|..][0] == src.at(t + |seen|, idx);
      assert rest[..|seen| + 1] == seen + [src.at(t + |seen|, idx)];
      assert (pre + rest)[..|so|] == so;
      if Fits(mem, max, pre + rest) { FitsPrefix(mem, max, so, pre + rest); }
    }
  }

  lemma TableEnds(mem: Mem, max: nat, src: Source, t: nat, pre: seq<Desc>, seen: seq<Desc>, idx: nat)
    requires Leads(src, t, 0, seen, idx)
    requires var e := src.at(t + |seen|, idx); !e.indirect && !e.more && Fits(mem, max, pre + (seen + [e]))
    ensures TableFits(mem, max, src, t, pre)
    ensures forall rest :: FlatTable(src, t, 0, rest) ==> rest == seen + [src.at(t + |seen|, idx)]
  {
    var all := seen + [src.at(t + |seen|, idx)];
    assert all[|seen|..] == [src.at(t + |seen|, idx)] && all[..|seen|] == seen;
    TableOnward(src, t, 0, seen, idx, all);
    forall rest | FlatTable(src, t, 0, rest) ensures rest == all {
      TableUnique(src, t, 0, rest, all);
    }
  }

  // ----- a refused walk has one fault

  /** Of two ways along the links one is the beginning of the other. */
  lemma {:induction false} OneWay(src: Source, t: nat, i: nat, a: seq<Desc>, j: nat, b: seq<Desc>, k: nat)
    requires Leads(src, t, i, a, j) && Leads(src, t, i, b, k) && |a| <= |b|
    ensures b[..|a|] == a && Leads(src, t + |a|, j, b[|a|..], k)
    decreases |a|
  {
    if a == [] {
      assert b[0..] == b;
    } else {
      OneWay(src, t + 1, src.at(t, i).next, a[1..], j, b[1..], k);
      assert b[|a|..] == b[1..][|a| - 1..];
      assert b[..|a|] == [b[0]] + b[1..][..|a| - 1] && a == [a[0]] + a[1..];
    }
  }

  lemma FaultyStops(mem: Mem, max: nat, src: Source, pre: seq<Desc>, d: Desc, e: Error, all: seq<Desc>)
    requires Faulty(mem, max, src, pre, d, e) && |pre| < |all| && all[..|pre| + 1] == pre + [d] && Fits(mem, max, all)
    ensures d.more && d.next >= src.limit
  {
    hide Framed, AllMap;
    FitsPrefix(mem, max, pre + [d], all);
    FitsPrefix(mem, max, pre, all);
    FitsOne(mem, max, pre, d);
  }

  lemma FaultyOnce(mem: Mem, max: nat, src: Source, pre: seq<Desc>, d: Desc, e: Error, f: Error)
    requires Faulty(mem, max, src, pre, d, e) && Faulty(mem, max, src, pre, d, f) && Fits(mem, max, pre)
    ensures e == f
  {
    FitsOne(mem, max, pre, d);
  }

  /** The walk of a table comes to one fault. */
  lemma TableRefusedOnce(mem: Mem, max: nat, src: Source, t: nat, pre: seq<Desc>, e: Error, f: Error)
    requires TableRefused(mem, max, src, t, pre, e) && TableRefused(mem, max, src, t, pre, f)
    ensures e == f
  {
    hide Fits, Faulty, Leads;
    var a, j :| TableBlamed(mem, max, src, t, pre, a, j, e);
    var b, k :| TableBlamed(mem, max, src, t, pre, b, k, f);
    if |a| <= |b| {
      TableFaultOnce(mem, max, src, t, pre, a, j, e, b, k, f);
    } else {
      TableFaultOnce(mem, max, src, t, pre, b, k, f, a, j, e);
    }
  }

  lemma TableFaultOnce(mem: Mem, max: nat, src: Source, t: nat, pre: seq<Desc>, a: seq<Desc>, j: nat, e: Error,
                       b: seq<Desc>, k: nat, f: Error)
    requires TableBlamed(mem, max, src, t, pre, a, j, e) && TableBlamed(mem, max, src, t, pre, b, k, f) && |a| <= |b|
    ensures e == f
  {
    hide Fits, Faulty;
    OneWay(src, t, 0, a, j, b, k);
    var d := src.at(t + |a|, j);
    if |a| < |b| {
      assert b[|a|..][0] == d;
      assert (pre + b)[..|pre + a| + 1] == (pre + a) + [d];
      if !d.indirect { FaultyStops(mem, max, src, pre + a, d, e, pre + b); }
    } else {
      assert b == a && j == k;
      if !d.indirect { FaultyOnce(mem, max, src, pre + a, d, e, f); } else { PlainFault(mem, max, src, pre + a, d); }
    }
  }

  lemma PlainFault(mem: Mem, max: nat, src: Source, pre: seq<Desc>, d: Desc)
    requires d.indirect
    ensures forall e :: !Faulty(mem, max, src, pre, d, e)
  {}

  /** The walk of a chain comes to one fault, so its error is the only one that fits. */
  lemma RefusedOnce(mem: Mem, max: nat, head: nat, e: Error, f: Error)
    requires Refused(mem, max, head, e) && Refused(mem, max, head, f)
    ensures e == f
  {
    hide Fits, Faulty, Leads, TableRefused;
    var a, j :| Blamed(mem, max, head, a, j, e);
    var b, k :| Blamed(mem, max, head, b, k, f);
    if |a| <= |b| {
      FaultOnce(mem, max, head, a, j, e, b, k, f);
    } else {
      FaultOnce(mem, max, head, b, k, f, a, j, e);
    }
  }

  lemma FaultOnce(mem: Mem, max: nat, head: nat, a: seq<Desc>, j: nat, e: Error, b: seq<Desc>, k: nat, f: Error)
    requires Blamed(mem, max, head, a, j, e) && Blamed(mem, max, head, b, k, f) && |a| <= |b|
    ensures e == f
  {
    hide Fits, Faulty, TableRefused, Table;
    OneWay(Ring(mem), 0, head, a, j, b, k);
    var d := mem.ringAt(|a|, j);
    if |a| < |b| {
      assert b[|a|..][0] == d;
      assert b[..|a| + 1] == a + [d];
      FaultyStops(mem, max, Ring(mem), a, d, e, b);
    } else {
      assert b == a && j == k;
      if !d.indirect {
        FaultyOnce(mem, max, Ring(mem), a, d, e, f);
      } else {
        PlainFault(mem, max, Ring(mem), a, d);
        TableNoneIff(mem, d);
        if Table(mem, d).Found? && !d.more { TableRefusedOnce(mem, max, Table(mem, d).value, |a| + 1, a, e, f); }
      }
    }
  }

  lemma TableNoneIff(mem: Mem, d: Desc)
    ensures Table(mem, d).Found? ==> GoodLength(d)
  {}

  // ----- there is room for every chain that stays in the ring

  lemma RoomForRing(qsz: nat)
    ensures qsz <= MaxChain(qsz) && 515 <= MaxChain(qsz) && (MaxChain(qsz) == qsz || MaxChain(qsz) == 515)
  {}

  /** The indices a walk passes. */
  ghost function Passed(src: Source, t: nat, i: nat, pre: seq<Desc>): (r: seq<nat>)
    ensures |r| == |pre|
    decreases |pre|
  {
    if pre == [] then [] else [i] + Passed(src, t + 1, src.at(t, i).next, pre[1..])
  }

  lemma {:induction false} PassedAt(src: Source, t: nat, i: nat, pre: seq<Desc>, j: nat, n: nat)
    requires Leads(src, t, i, pre, j) && n < |pre|
    ensures var k := Passed(src, t, i, pre)[n];
            && (n > 0 ==> k < src.limit) && Leads(src, t, i, pre[..n], k) && Leads(src, t + n, k, pre[n..], j)
    decreases |pre|
  {
    if n == 0 {
      assert pre[..0] == [] && pre[0..] == pre;
    } else {
      PassedAt(src, t + 1, src.at(t, i).next, pre[1..], j, n - 1);
      assert pre[..n][1..] == pre[1..][..n - 1] && pre[n..] == pre[1..][n - 1..];
    }
  }

  /** A chain that ends passes no index twice. */
  lemma PassesOnce(mem: Mem, head: nat, seen: seq<Desc>, idx: nat, a: nat, b: nat)
    requires Still(Ring(mem)) && Leads(Ring(mem), 0, head, seen, idx) && !mem.ringAt(|seen|, idx).more
    requires a < b <= |seen|
    ensures var p := Passed(Ring(mem), 0, head, seen) + [idx]; p[a] != p[b]
  {
    hide Flat;
    var src, p := Ring(mem), Passed(Ring(mem), 0, head, seen) + [idx];
    if p[a] == p[b] {
      PassedAt(src, 0, head, seen, idx, a);
      var round := seen[a..b];
      assert Leads(src, a, p[a], round, p[a]) by {
        if b < |seen| {
          PassedAt(src, a, p[a], seen[a..], idx, b - a);
          PassedLater(src, 0, head, seen, idx, a, b - a);
          assert seen[a..][..b - a] == round;
        }
      }
      NeverEnds(src, a, p[a], round, seen[a..], idx);
    }
  }

  lemma {:induction false} PassedLater(src: Source, t: nat, i: nat, pre: seq<Desc>, j: nat, a: nat, n: nat)
    requires Leads(src, t, i, pre, j) && a + n < |pre|
    ensures var k := Passed(src, t, i, pre)[a];
            && |Passed(src, t + a, k, pre[a..])| == |pre| - a
            && Passed(src, t + a, k, pre[a..])[n] == Passed(src, t, i, pre)[a + n]
    decreases a
  {
    if a == 0 {
      assert pre[0..] == pre;
    } else {
      PassedLater(src, t + 1, src.at(t, i).next, pre[1..], j, a - 1, n);
      assert pre[a..] == pre[1..][a - 1..];
    }
  }

  /** From a circle no way leads to an end. */
  lemma {:induction false} NeverEnds(src: Source, t: nat, i: nat, round: seq<Desc>, way: seq<Desc>, j: nat)
    requires Still(src) && round != [] && Leads(src, t, i, round, i) && Leads(src, t, i, way, j)
    ensures src.at(t + |way|, j).more
    decreases |way|
  {
    if |round| <= |way| {
      OneWay(src, t, i, round, i, way, j);
      LeadsLater(src, t, t + |round|, i, round, i);
      NeverEnds(src, t + |round|, i, round, way[|round|..], j);
    } else {
      OneWay(src, t, i, way, j, round, i);
      assert round[|way|..] != [];
    }
  }

  /** A chain in the ring that comes to its end has no more descriptors than the queue, so there is room for it. */
  lemma RingChainFits(mem: Mem, head: nat, seen: seq<Desc>, idx: nat)
    requires Still(Ring(mem)) && head < mem.qsz && Leads(Ring(mem), 0, head, seen, idx)
    requires !mem.ringAt(|seen|, idx).more
    ensures |seen| + 1 <= mem.qsz <= MaxChain(mem.qsz)
  {
    var src, p := Ring(mem), Passed(Ring(mem), 0, head, seen) + [idx];
    forall i | 0 <= i < |p| ensures p[i] < mem.qsz {
      if i < |seen| {
        PassedAt(src, 0, head, seen, idx, i);
        if i == 0 { OneWay(src, 0, head, [], head, seen[..0], p[0]); }
      } else {
        EndInside(src, 0, head, seen, idx);
      }
    }
    forall i, j | 0 <= i < j < |p| ensures p[i] != p[j] {
      PassesOnce(mem, head, seen, idx, i, j);
    }
    NoMoreThan(p, mem.qsz);
  }

  lemma {:induction false} EndInside(src: Source, t: nat, i: nat, pre: seq<Desc>, j: nat)
    requires Leads(src, t, i, pre, j)
    ensures j == i || j < src.limit
    decreases |pre|
  {
    if pre != [] { EndInside(src, t + 1, src.at(t, i).next, pre[1..], j); }
  }
}
