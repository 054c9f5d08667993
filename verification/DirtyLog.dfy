/** Logging what a completed request wrote: its writable buffers and the used ring. */
module DirtyLog {
  import opened ChainWalk
  import MemMap
  import opened MemLog

  const USED_IDX_OFFSET := 2
  const USED_RING_OFFSET := 4
  const USED_ELEM_SIZE := 8

  datatype Range = Range(gpa: nat, len: nat)

  /** The guest ranges of the descriptors. */
  function Ranges(ds: seq<Desc>): seq<Range> {
    seq(|ds|, i requires 0 <= i < |ds| => Range(ds[i].addr, ds[i].len))
  }

  function UsedRanges(base: nat, idx: nat): seq<Range> {
    [Range((base + USED_IDX_OFFSET) % MemLog.U64, 2),
     Range((base + USED_RING_OFFSET + USED_ELEM_SIZE * idx) % MemLog.U64, USED_ELEM_SIZE)]
  }

  /**
   * Short of a wrap the index field is the two bytes at 2, and the elements are 8 bytes each, one
   * after another, from 4 on.
   */
  lemma UsedLayout(base: nat, i: nat, j: nat)
    requires i < j && base + 4 + 8 * (j + 1) <= MemLog.U64
    ensures var a, b := UsedRanges(base, i), UsedRanges(base, j);
            && |a| == |b| == 2 && a[0] == b[0] == Range(base + 2, 2)
            && a[0].gpa + a[0].len == base + 4 <= a[1].gpa
            && a[1].len == b[1].len == 8 && b[1].gpa - a[1].gpa == 8 * (j - i) && a[1].gpa == base + 4 + 8 * i
            && a[1].gpa + a[1].len <= b[1].gpa
  {}

  /** What marking the ranges one after another ends in: the first fault, if there is one. */
  function JudgedAll(size: nat, rs: seq<Range>): Outcome {
    if rs == [] then AllSet
    else if Judged(size, rs[0].gpa, rs[0].len).AllSet? then JudgedAll(size, rs[1..])
    else Judged(size, rs[0].gpa, rs[0].len)
  }

  lemma {:induction false} JudgedMore(size: nat, rs: seq<Range>, r: Range)
    ensures JudgedAll(size, rs + [r])
            == if JudgedAll(size, rs).AllSet? then Judged(size, r.gpa, r.len) else JudgedAll(size, rs)
  {
    hide Judged;
    if rs == [] {
      assert rs + [r] == [r];
    } else {
      assert (rs + [r])[1..] == rs[1..] + [r];
      JudgedMore(size, rs[1..], r);
    }
  }

  /** Marking goes through exactly if every range is sound and ends within the log's whole words. */
  lemma {:induction false} JudgedIff(size: nat, rs: seq<Range>)
    ensures JudgedAll(size, rs).AllSet? <==>
            forall i :: 0 <= i < |rs| ==> Sound(rs[i].gpa, rs[i].len) && Within(size, rs[i].gpa, rs[i].len)
  {
    if rs != [] {
      JudgedIff(size, rs[1..]);
      assert forall i :: 0 < i < |rs| ==> rs[i] == rs[1..][i - 1];
    }
  }

  lemma {:induction false} JudgedPrefix(size: nat, rs: seq<Range>, more: seq<Range>)
    requires !JudgedAll(size, rs).AllSet?
    ensures JudgedAll(size, rs + more) == JudgedAll(size, rs)
  {
    hide Judged;
    assert (rs + more)[1..] == rs[1..] + more;
    if Judged(size, rs[0].gpa, rs[0].len).AllSet? { JudgedPrefix(size, rs[1..], more); }
  }

  ghost predicate SomeTouches(rs: seq<Range>, page: nat) {
    exists i :: 0 <= i < |rs| && Touches(rs[i].gpa, rs[i].len, page)
  }

  /** Exactly the pages the ranges touch are dirty as well. */
  ghost predicate MarkedAll(was: seq<Word>, words: seq<Word>, rs: seq<Range>) {
    && |was| == |words|
    && (forall page: nat :: page < WORD_BITS * |words| ==>
          (Dirty(words, page) <==> Dirty(was, page) || SomeTouches(rs, page)))
  }

  lemma MarkedNone(words: seq<Word>)
    ensures MarkedAll(words, words, [])
  {}

  lemma TouchesMore(rs: seq<Range>, r: Range, page: nat)
    ensures SomeTouches(rs + [r], page) <==> SomeTouches(rs, page) || Touches(r.gpa, r.len, page)
  {
    hide Touches;
    var qs := rs + [r];
    if Touches(r.gpa, r.len, page) { assert qs[|rs|] == r; }
    if SomeTouches(rs, page) {
      var i :| 0 <= i < |rs| && Touches(rs[i].gpa, rs[i].len, page);
      assert qs[i] == rs[i];
    }
  }

  lemma MarkedMore(was: seq<Word>, mid: seq<Word>, words: seq<Word>, rs: seq<Range>, r: Range)
    requires MarkedAll(was, mid, rs) && Marked(mid, words, r.gpa, r.len)
    ensures MarkedAll(was, words, rs + [r])
  {
    hide Touches, SomeTouches;
    forall page: nat | page < WORD_BITS * |words|
      ensures Dirty(words, page) <==> Dirty(was, page) || SomeTouches(rs + [r], page)
    {
      TouchesMore(rs, r, page);
    }
  }

  /** The pointer of a mapped descriptor leads back to the address it named, even for no bytes. */
  lemma NamedAddress(mem: Mem, d: Desc)
    requires MemMap.Laid(mem.map_) && MapsTo(mem, d)
    ensures MemMap.PtrToGpa(mem.map_, ToBuffer(mem, d).base) == d.addr != MemMap.TRANSLATION_FAILED
    ensures d.addr + d.len < MemLog.U64
  {
    var k := MemMap.GpaFound(mem.map_, d.addr, d.len);
    MemMap.PtrFound(mem.map_, k, mem.map_[k].ptr + (d.addr - mem.map_[k].gpa));
  }

  /** The buffers after the device-readable ones are the translation of exactly the writable descriptors. */
  lemma WritableTail(mem: Mem, max: nat, chain: seq<Desc>)
    requires Fits(mem, max, chain)
    ensures Writes(chain) <= |chain|
    ensures var k := |chain| - Writes(chain);
            && Buffers(mem, chain)[k..] == Buffers(mem, chain[k..]) && AllMap(mem, chain[k..])
            && forall i :: 0 <= i < |chain| ==> (chain[i].write <==> i >= k)
  {
    hide MapsTo, ToBuffer, Writes;
    WritesZero(chain);
    forall i | 0 <= i < |chain| ensures chain[i].write <==> i >= |chain| - Writes(chain) {
      WritesAreLast(chain, i);
    }
  }

  /** A chain with an empty writable descriptor is walked without error, so the assertion can be reached. */
  lemma EmptyWritableHappens()
    ensures exists mem: Mem, d: Desc ::
              MemMap.Laid(mem.map_) && d.write && d.len == 0 && Flat(mem, 0, 0, [d])
              && Fits(mem, WINDOWS_CHAIN_LEN_MAX, [d])
  {
    var d := Desc(0, 0, true, false, false, 0);
    var r := MemMap.Region(0, 0, 0x1000, 0x10000, 0);
    var mem := Mem(1, [r], (_: nat, _: nat) => d, (_: nat, _: nat) => d);
    assert MemMap.HasGpa(r, 0) && MapsTo(mem, d);
    assert Flat(mem, 0, 0, [d]) && AllMap(mem, [d]) && Framed([d]);
  }

  /** Of mapped descriptors only the empty ones stop at the assertion. */
  lemma LoggedIff(mem: Mem, size: nat, ds: seq<Desc>)
    requires MemMap.Laid(mem.map_) && AllMap(mem, ds)
    ensures JudgedAll(size, Ranges(ds)).AllSet? <==>
            forall i :: 0 <= i < |ds| ==> ds[i].len > 0 && Within(size, ds[i].addr, ds[i].len)
  {
    hide MapsTo, Within;
    JudgedIff(size, Ranges(ds));
    forall i | 0 <= i < |ds| ensures Sound(Ranges(ds)[i].gpa, Ranges(ds)[i].len) <==> ds[i].len > 0 {
      NamedAddress(mem, ds[i]);
    }
  }

  /** One marking after another, up to the first that fails. */
  method MarkOne(words: array<Word>, size: nat, r: Range, ghost was: seq<Word>, ghost rs: seq<Range>)
    returns (res: Outcome)
    requires words.Length == size / 8 && 8 * size < MemLog.U64 && r.gpa < MemLog.U64 && r.len < MemLog.U64
    requires MarkedAll(was, words[..], rs) && JudgedAll(size, rs).AllSet?
    modifies words
    ensures res == JudgedAll(size, rs + [r])
    ensures res.AllSet? ==> MarkedAll(was, words[..], rs + [r])
  {
    ghost var mid := words[..];
    JudgedMore(size, rs, r);
    res := MarkGpaRange(words, size, r.gpa, r.len);
    if res.AllSet? { MarkedMore(was, mid, words[..], rs, r); }
  }

  lemma RangesOne(ds: seq<Desc>, i: nat)
    requires i < |ds|
    ensures Ranges(ds[..i + 1]) == Ranges(ds[..i]) + [Range(ds[i].addr, ds[i].len)]
    ensures Ranges(ds) == Ranges(ds[..i + 1]) + Ranges(ds[i + 1..])
  {}

  /** Mark the buffers, which are the translation of the writable descriptors `ds`. */
  method LogBuffers(mem: Mem, words: array<Word>, size: nat, bufs: seq<Buffer>, ghost ds: seq<Desc>)
    returns (res: Outcome)
    requires words.Length == size / 8 && 8 * size < MemLog.U64
    requires MemMap.Laid(mem.map_) && AllMap(mem, ds) && bufs == Buffers(mem, ds)
    modifies words
    ensures res == JudgedAll(size, Ranges(ds))
    ensures res.AllSet? ==> MarkedAll(old(words[..]), words[..], Ranges(ds))
  {
    hide Ranges, Judged, JudgedAll;
    ghost var was := words[..];
    MarkedNone(was);
    NoRanges(size, ds);
    var i := 0;
    while i < |bufs|
      invariant i <= |bufs| && JudgedAll(size, Ranges(ds[..i])).AllSet?
      invariant MarkedAll(was, words[..], Ranges(ds[..i]))
    {
      NamedAddress(mem, ds[i]);
      RangesOne(ds, i);
      var gpa := MemMap.PtrToGpa(mem.map_, bufs[i].base);
      if gpa != MemMap.TRANSLATION_FAILED {
        res := MarkOne(words, size, Range(gpa, bufs[i].len), was, Ranges(ds[..i]));
        if !res.AllSet? {
          JudgedPrefix(size, Ranges(ds[..i + 1]), Ranges(ds[i + 1..]));
          return;
        }
      }
      i := i + 1;
    }
    assert ds[..i] == ds;
    res := AllSet;
  }

  lemma NoRanges(size: nat, ds: seq<Desc>)
    ensures Ranges(ds[..0]) == [] && JudgedAll(size, []).AllSet?
  {}

  /**
   * A push marks exactly the pages of its writable descriptors, at the addresses they name, and of
   * the used ring where that is logged, unless one of these ranges fails: the first that is empty,
   * wraps or runs into the ragged end of the log decides.
   */
  method LogModified(mem: Mem, words: array<Word>, size: nat, bufs: seq<Buffer>, logUsed: bool, usedBase: nat,
                     usedIdx: nat,
                     ghost ds: seq<Desc>)
    returns (res: Outcome)
    requires words.Length == size / 8 && 8 * size < MemLog.U64
    requires MemMap.Laid(mem.map_) && AllMap(mem, ds) && bufs == Buffers(mem, ds)
    modifies words
    ensures var rs := Ranges(ds) + if logUsed then UsedRanges(usedBase, usedIdx) else [];
            && res == JudgedAll(size, rs)
            && (res.AllSet? ==> MarkedAll(old(words[..]), words[..], rs))
  {
    hide Ranges, Judged, JudgedAll;
    ghost var was, rs := words[..], Ranges(ds);
    res := LogBuffers(mem, words, size, bufs, ds);
    if !logUsed {
      assert rs + [] == rs;
      return;
    }
    var used := UsedRanges(usedBase, usedIdx);
    assert rs + used == (rs + [used[0]]) + [used[1]];
    if !res.AllSet? {
      JudgedPrefix(size, rs, used);
      return;
    }
    res := MarkOne(words, size, used[0], was, rs);
    if !res.AllSet? {
      JudgedPrefix(size, rs + [used[0]], [used[1]]);
      return;
    }
    res := MarkOne(words, size, used[1], was, rs + [used[0]]);
  }
}
