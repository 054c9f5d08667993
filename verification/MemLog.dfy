/**
 * The dirty page log: a bitmap in memory shared with the client, one bit a page, written a 64-bit
 * word at a time while others write it too.
 */
module MemLog {

  const WORD_BITS := 64
  const LOG_PAGE := 0x1000
  const U64 := 0x1_0000_0000_0000_0000

  // ----- words

  /** A word in the log's byte order, least significant bit first. */
  type Word = w: seq<bool> | |w| == WORD_BITS witness seq(64, i => false)

  /** The operators of an unsigned 64-bit integer; shifts are defined for counts below the width. */
  function Ones(): Word {
    seq(64, i => true)
  }

  function Shl(w: Word, n: nat): Word
    requires n < WORD_BITS
  {
    seq(64, i requires 0 <= i < 64 => i >= n && w[i - n])
  }

  function Shr(w: Word, n: nat): Word
    requires n < WORD_BITS
  {
    seq(64, i requires 0 <= i < 64 => i + n < 64 && w[i + n])
  }

  function Or(w: Word, v: Word): Word {
    seq(64, i requires 0 <= i < 64 => w[i] || v[i])
  }

  // ----- the writer's accesses

  /** Each access sets the bits of a mask in one word; storing all ones sets them all. */
  datatype Access = Access(idx: nat, mask: Word)

  predicate Covers(a: Access, w: nat, k: nat)
    requires k < WORD_BITS
  {
    a.idx == w && a.mask[k]
  }

  ghost predicate Inside(xs: seq<Access>, n: nat) {
    forall i :: 0 <= i < |xs| ==> xs[i].idx < n
  }

  ghost predicate Some(xs: seq<Access>, w: nat, k: nat)
    requires k < WORD_BITS
  {
    exists i :: 0 <= i < |xs| && Covers(xs[i], w, k)
  }

  function Done(words: seq<Word>, a: Access): seq<Word>
    requires a.idx < |words|
  {
    words[a.idx := Or(words[a.idx], a.mask)]
  }

  function DoneAll(words: seq<Word>, xs: seq<Access>): (r: seq<Word>)
    requires Inside(xs, |words|)
    ensures |r| == |words|
    decreases |xs|
  {
    if xs == [] then words else DoneAll(Done(words, xs[0]), xs[1..])
  }

  /** The mask of the last, partial word. */
  function LastMask(lo: nat, hi: nat): Word
    requires lo < hi < WORD_BITS
  {
    Shl(Shr(Ones(), WORD_BITS - (hi - lo)), lo)
  }

  /** What makes every shift defined and every index fall in the log. */
  predicate Writable(start: nat, end: nat, n: nat) {
    end <= WORD_BITS * n && (start < end || end % WORD_BITS == 0)
  }

  predicate Partial(start: nat, end: nat) {
    start % WORD_BITS != 0 && start / WORD_BITS < end / WORD_BITS
  }

  /** The first word the writer fills or ends in, and the first bit of it that is to be set. */
  function FillFrom(start: nat, end: nat): nat {
    start / WORD_BITS + if Partial(start, end) then 1 else 0
  }

  function FillBit(start: nat, end: nat): nat {
    if Partial(start, end) then 0 else start % WORD_BITS
  }

  function FirstPart(start: nat, end: nat): seq<Access> {
    if Partial(start, end) then [Access(start / WORD_BITS, Shl(Ones(), start % WORD_BITS))] else []
  }

  function Full(lo: nat, hi: nat): seq<Access>
    decreases hi - lo
  {
    if lo < hi then [Access(lo, Ones())] + Full(lo + 1, hi) else []
  }

  function LastPart(start: nat, end: nat): seq<Access>
    requires start < end || end % WORD_BITS == 0
  {
    if end % WORD_BITS != 0 then [Access(end / WORD_BITS, LastMask(FillBit(start, end), end % WORD_BITS))] else []
  }

  function Accesses(start: nat, end: nat): seq<Access>
    requires start < end || end % WORD_BITS == 0
  {
    FirstPart(start, end) + Full(FillFrom(start, end), end / WORD_BITS) + LastPart(start, end)
  }

  lemma {:induction false} FullInside(lo: nat, hi: nat, n: nat)
    requires hi <= n
    ensures Inside(Full(lo, hi), n)
    decreases hi - lo
  {
    if lo < hi { FullInside(lo + 1, hi, n); }
  }

  lemma {:induction false} FullCovers(lo: nat, hi: nat, w: nat, k: nat)
    requires k < WORD_BITS
    ensures Some(Full(lo, hi), w, k) <==> lo <= w < hi
    decreases hi - lo
  {
    if lo < hi {
      FullCovers(lo + 1, hi, w, k);
      SomeConcat([Access(lo, Ones())], Full(lo + 1, hi), w, k);
      SomeOne(Access(lo, Ones()), w, k);
    }
  }

  lemma SomeOne(a: Access, w: nat, k: nat)
    requires k < WORD_BITS
    ensures Some([a], w, k) <==> Covers(a, w, k)
  {
    assert [a][0] == a;
  }

  lemma SomeConcat(xs: seq<Access>, ys: seq<Access>, w: nat, k: nat)
    requires k < WORD_BITS
    ensures Some(xs + ys, w, k) <==> Some(xs, w, k) || Some(ys, w, k)
  {
    var zs := xs + ys;
    if Some(xs, w, k) {
      var i :| 0 <= i < |xs| && Covers(xs[i], w, k);
      assert zs[i] == xs[i];
    }
    if Some(ys, w, k) {
      var i :| 0 <= i < |ys| && Covers(ys[i], w, k);
      assert zs[|xs| + i] == ys[i];
    }
    if Some(zs, w, k) {
      var i :| 0 <= i < |zs| && Covers(zs[i], w, k);
      assert zs[i] == if i < |xs| then xs[i] else ys[i - |xs|];
    }
  }

  lemma FirstCovers(start: nat, end: nat, w: nat, k: nat)
    requires k < WORD_BITS
    ensures Some(FirstPart(start, end), w, k) <==>
            Partial(start, end) && w == start / WORD_BITS && start % WORD_BITS <= k
  {
    if Partial(start, end) {
      var a := Access(start / WORD_BITS, Shl(Ones(), start % WORD_BITS));
      SomeOne(a, w, k);
      ShiftedOnes(start % WORD_BITS, k);
    }
  }

  lemma ShiftedOnes(lo: nat, k: nat)
    requires lo < WORD_BITS && k < WORD_BITS
    ensures Shl(Ones(), lo)[k] <==> lo <= k
  {}

  lemma LastBits(lo: nat, hi: nat, k: nat)
    requires lo < hi < WORD_BITS && k < WORD_BITS
    ensures LastMask(lo, hi)[k] <==> lo <= k < hi
  {}

  lemma LastCovers(start: nat, end: nat, w: nat, k: nat)
    requires k < WORD_BITS && (start < end || end % WORD_BITS == 0)
    ensures Some(LastPart(start, end), w, k) <==> w == end / WORD_BITS && FillBit(start, end) <= k < end % WORD_BITS
  {
    if end % WORD_BITS != 0 {
      var a := Access(end / WORD_BITS, LastMask(FillBit(start, end), end % WORD_BITS));
      SomeOne(a, w, k);
      LastBits(FillBit(start, end), end % WORD_BITS, k);
    }
  }

  /** The accesses cover exactly the bits of the range. */
  lemma AccessesCover(start: nat, end: nat, w: nat, k: nat)
    requires k < WORD_BITS && (start < end || end % WORD_BITS == 0)
    ensures Some(Accesses(start, end), w, k) <==> start <= WORD_BITS * w + k < end
  {
    hide Some, FirstPart, LastPart, Full;
    SomeConcat(FirstPart(start, end) + Full(FillFrom(start, end), end / WORD_BITS), LastPart(start, end), w, k);
    SomeConcat(FirstPart(start, end), Full(FillFrom(start, end), end / WORD_BITS), w, k);
    FirstCovers(start, end, w, k);
    FullCovers(FillFrom(start, end), end / WORD_BITS, w, k);
    LastCovers(start, end, w, k);
  }

  lemma AccessesInside(start: nat, end: nat, n: nat)
    requires Writable(start, end, n)
    ensures Inside(Accesses(start, end), n)
  {
    FullInside(FillFrom(start, end), end / WORD_BITS, n);
  }

  lemma {:induction false} DoneAllBits(words: seq<Word>, xs: seq<Access>, w: nat, k: nat)
    requires Inside(xs, |words|) && w < |words| && k < WORD_BITS
    ensures DoneAll(words, xs)[w][k] <==> words[w][k] || Some(xs, w, k)
    decreases |xs|
  {
    if xs != [] {
      DoneAllBits(Done(words, xs[0]), xs[1..], w, k);
      assert xs == [xs[0]] + xs[1..];
      SomeConcat([xs[0]], xs[1..], w, k);
      SomeOne(xs[0], w, k);
    }
  }

  /** `words` is `was` with exactly the bits `start` to `end - 1` set as well. */
  ghost predicate SetExactly(was: seq<Word>, words: seq<Word>, start: nat, end: nat) {
    && |was| == |words|
    && (forall w: nat, k: nat :: w < |words| && k < WORD_BITS ==>
          (words[w][k] <==> was[w][k] || start <= WORD_BITS * w + k < end))
  }

  lemma WriterSetsExactly(words: seq<Word>, start: nat, end: nat)
    requires Writable(start, end, |words|)
    ensures Inside(Accesses(start, end), |words|)
    ensures SetExactly(words, DoneAll(words, Accesses(start, end)), start, end)
  {
    AccessesInside(start, end, |words|);
    var done := DoneAll(words, Accesses(start, end));
    forall w: nat, k: nat | w < |words| && k < WORD_BITS
      ensures done[w][k] <==> words[w][k] || start <= WORD_BITS * w + k < end
    {
      DoneAllBits(words, Accesses(start, end), w, k);
      AccessesCover(start, end, w, k);
    }
  }

  // ----- other writers at the same time

  /** `zs` runs the accesses of `xs` and of `ys`, each in order, in some interleaving. */
  ghost predicate Interleaves(xs: seq<Access>, ys: seq<Access>, zs: seq<Access>)
    decreases |zs|
  {
    if zs == [] then
      xs == [] && ys == []
    else
      || (xs != [] && xs[0] == zs[0] && Interleaves(xs[1..], ys, zs[1..]))
      || (ys != [] && ys[0] == zs[0] && Interleaves(xs, ys[1..], zs[1..]))
  }

  lemma {:induction false} InterleavedCovers(xs: seq<Access>, ys: seq<Access>, zs: seq<Access>, w: nat, k: nat)
    requires Interleaves(xs, ys, zs) && k < WORD_BITS
    ensures Some(zs, w, k) <==> Some(xs, w, k) || Some(ys, w, k)
    decreases |zs|
  {
    if zs != [] {
      assert zs == [zs[0]] + zs[1..];
      SomeConcat([zs[0]], zs[1..], w, k);
      if xs != [] && xs[0] == zs[0] && Interleaves(xs[1..], ys, zs[1..]) {
        InterleavedCovers(xs[1..], ys, zs[1..], w, k);
        assert xs == [xs[0]] + xs[1..];
        SomeConcat([xs[0]], xs[1..], w, k);
      } else {
        InterleavedCovers(xs, ys[1..], zs[1..], w, k);
        assert ys == [ys[0]] + ys[1..];
        SomeConcat([ys[0]], ys[1..], w, k);
      }
    }
  }

  /** Whatever others set meanwhile, no bit is lost and the writer adds exactly its range. */
  lemma ConcurrentWriters(words: seq<Word>, start: nat, end: nat, others: seq<Access>, zs: seq<Access>, w: nat, k: nat)
    requires Writable(start, end, |words|) && Inside(zs, |words|)
    requires Interleaves(Accesses(start, end), others, zs) && w < |words| && k < WORD_BITS
    ensures DoneAll(words, zs)[w][k] <==> words[w][k] || Some(others, w, k) || start <= WORD_BITS * w + k < end
  {
    hide Some, Accesses, Interleaves;
    DoneAllBits(words, zs, w, k);
    InterleavedCovers(Accesses(start, end), others, zs, w, k);
    AccessesCover(start, end, w, k);
  }

  // ----- in place

  lemma {:induction false} DoneConcat(words: seq<Word>, xs: seq<Access>, ys: seq<Access>)
    requires Inside(xs + ys, |words|)
    ensures Inside(xs, |words|) && Inside(ys, |words|)
    ensures DoneAll(words, xs + ys) == DoneAll(DoneAll(words, xs), ys)
    decreases |xs|
  {
    assert forall i :: 0 <= i < |xs| ==> (xs + ys)[i] == xs[i];
    assert forall i :: 0 <= i < |ys| ==> (xs + ys)[|xs| + i] == ys[i];
    if xs == [] {
      assert xs + ys == ys;
    } else {
      assert (xs + ys)[1..] == xs[1..] + ys;
      DoneConcat(Done(words, xs[0]), xs[1..], ys);
    }
  }

  lemma StoreIsOr(w: Word)
    ensures Or(w, Ones()) == Ones()
  {}

  /** Whole words are stored, not read and written back. */
  method StoreFull(words: array<Word>, lo: nat, hi: nat)
    requires hi <= words.Length
    modifies words
    ensures Inside(Full(lo, hi), words.Length)
    ensures words[..] == DoneAll(old(words[..]), Full(lo, hi))
  {
    FullInside(lo, hi, words.Length);
    ghost var was := words[..];
    var i := lo;
    while i < hi
      invariant lo <= i && (i <= hi || i == lo)
      invariant Inside(Full(i, hi), words.Length)
      invariant DoneAll(words[..], Full(i, hi)) == DoneAll(was, Full(lo, hi))
    {
      StoreIsOr(words[i]);
      ghost var a := Access(i, Ones());
      assert Full(i, hi) == [a] + Full(i + 1, hi);
      assert ([a] + Full(i + 1, hi))[1..] == Full(i + 1, hi);
      ghost var next := Done(words[..], a);
      FullInside(i + 1, hi, words.Length);
      words[i] := Ones();
      assert words[..] == next;
      i := i + 1;
    }
  }

  method SetBits(words: array<Word>, start: nat, end: nat)
    requires Writable(start, end, words.Length)
    modifies words
    ensures SetExactly(old(words[..]), words[..], start, end)
  {
    ghost var was := words[..];
    WriterSetsExactly(was, start, end);
    var startIdx, endIdx := start / WORD_BITS, end / WORD_BITS;
    var startIn, endIn := start % WORD_BITS, end % WORD_BITS;
    if startIn != 0 && startIdx < endIdx {
      words[startIdx] := Or(words[startIdx], Shl(Ones(), startIn));
      startIn, startIdx := 0, startIdx + 1;
    }
    ghost var first, full, last := FirstPart(start, end), Full(FillFrom(start, end), endIdx), LastPart(start, end);
    DoneConcat(was, first + full, last);
    DoneConcat(was, first, full);
    assert words[..] == DoneAll(was, first);
    StoreFull(words, startIdx, endIdx);
    if endIn != 0 {
      var clear := WORD_BITS - (endIn - startIn);
      words[endIdx] := Or(words[endIdx], Shl(Shr(Ones(), clear), startIn));
    }
    assert words[..] == DoneAll(was, Accesses(start, end));
  }

  // ----- guest address ranges

  /** Some byte of the range lies on the page. */
  ghost predicate Touches(gpa: nat, len: nat, page: nat) {
    exists a: nat :: gpa <= a < gpa + len && a / LOG_PAGE == page
  }

  lemma TouchesIff(gpa: nat, len: nat, page: nat)
    requires len > 0
    ensures Touches(gpa, len, page) <==> gpa / LOG_PAGE <= page < (gpa + len - 1) / LOG_PAGE + 1
  {
    if gpa / LOG_PAGE <= page <= (gpa + len - 1) / LOG_PAGE {
      var a := if gpa / LOG_PAGE == page then gpa else LOG_PAGE * page;
      assert a / LOG_PAGE == page && gpa <= a < gpa + len;
    }
  }

  predicate Dirty(words: seq<Word>, page: nat)
    requires page < WORD_BITS * |words|
  {
    words[page / WORD_BITS][page % WORD_BITS]
  }

  /** The pages of the log that are dirty in `words`: those dirty before and those the ranges touch. */
  ghost predicate Marked(was: seq<Word>, words: seq<Word>, gpa: nat, len: nat) {
    && |was| == |words|
    && (forall page: nat :: page < WORD_BITS * |words| ==>
          (Dirty(words, page) <==> Dirty(was, page) || Touches(gpa, len, page)))
  }

  /** A clamp to the log's end leaves the writer defined, for every start, exactly if the log is whole words. */
  lemma ClampWritableIff(size: nat)
    ensures size % 8 == 0 <==> forall start: nat :: Writable(start, 8 * size, size / 8)
  {
    if size % 8 != 0 {
      assert !Writable(8 * size, 8 * size, size / 8);
    }
  }

  lemma MarkedBy(was: seq<Word>, words: seq<Word>, gpa: nat, len: nat, end: nat)
    requires len > 0 && SetExactly(was, words, gpa / LOG_PAGE, end)
    requires var e := (gpa + len - 1) / LOG_PAGE + 1; end == if e > WORD_BITS * |words| then WORD_BITS * |words| else e
    ensures Marked(was, words, gpa, len)
  {
    forall page: nat | page < WORD_BITS * |words|
      ensures Dirty(words, page) <==> Dirty(was, page) || Touches(gpa, len, page)
    {
      TouchesIff(gpa, len, page);
      var w, k := page / WORD_BITS, page % WORD_BITS;
      assert WORD_BITS * w + k == page;
    }
  }

  /**
   * The log's whole words hold all that is written: the log is whole words, or the range ends before
   * its last, ragged bytes.
   */
  predicate Within(size: nat, gpa: nat, len: nat)
    requires len > 0
  {
    size % 8 == 0 || (gpa + len - 1) / LOG_PAGE < WORD_BITS * (size / 8)
  }

  /** The end of a range as it is clamped to the log. */
  function Clamped(size: nat, gpa: nat, len: nat): nat
    requires len > 0
  {
    var end := (gpa + len - 1) / LOG_PAGE + 1;
    if end > size * 8 then size * 8 else end
  }

  lemma WithinIff(size: nat, gpa: nat, len: nat)
    requires len > 0
    ensures Writable(gpa / LOG_PAGE, Clamped(size, gpa, len), size / 8) <==> Within(size, gpa, len)
    ensures Within(size, gpa, len) ==>
              var e, n := (gpa + len - 1) / LOG_PAGE + 1, WORD_BITS * (size / 8);
              Clamped(size, gpa, len) == if e > n then n else e
  {}

  /** Done; stopped by an assertion; or with an access outside the log or an undefined shift. */
  datatype Outcome = AllSet | Asserts | Outside

  function Judged(size: nat, gpa: nat, len: nat): Outcome {
    if !Sound(gpa, len) then Asserts else if Within(size, gpa, len) then AllSet else Outside
  }

  /** Whether the range passes the assertion that it is not empty and does not wrap. */
  predicate Sound(gpa: nat, len: nat) {
    0 < len && gpa + len < U64
  }

  /**
   * `words` are the whole words of a log of `size` bytes.  The source writes without asking whether
   * the clamped range is writable; where it is not, the outcome says so and nothing is promised.
   */
  method MarkGpaRange(words: array<Word>, size: nat, gpa: nat, len: nat) returns (res: Outcome)
    requires words.Length == size / 8 && 8 * size < U64 && gpa < U64 && len < U64
    modifies words
    ensures res == Judged(size, gpa, len)
    ensures res.AllSet? ==> Marked(old(words[..]), words[..], gpa, len)
  {
    var start := gpa / LOG_PAGE;
    var end := (gpa + len - 1) % U64 / LOG_PAGE + 1;
    if (gpa + len) % U64 <= gpa { return Asserts; }
    assert Sound(gpa, len);
    ghost var was := words[..];
    if end > size * 8 {
      end := size * 8;
    }
    WithinIff(size, gpa, len);
    if !Writable(start, end, words.Length) { return Outside; }
    SetBits(words, start, end);
    MarkedBy(was, words[..], gpa, len, end);
    return AllSet;
  }
}
