/** kern/mm/kalloc.c over the words of the pool: block headers live in the memory they describe. */
module Kalloc {
  import opened Alignment
  import opened BuddySpec
  import opened BuddyRuns

  const WORDS: nat := 65536  // POOL / 8

  // ----- block headers in memory -----

  function Code(s: BlockState): int {
    if s == Free then 0 else 1
  }

  function NextOf(base: int, bs: seq<Block>, i: nat): int
    requires i < |bs|
  {
    if i + 1 < |bs| then base + bs[i + 1].off else 0
  }

  function PrevOf(base: int, bs: seq<Block>, i: nat): int
    requires i < |bs|
  {
    if i > 0 then base + bs[i - 1].off else 0
  }

  /** The four header words of block i: size, state, next, prev. */
  predicate HeaderStored(m: seq<int>, base: int, bs: seq<Block>, i: nat)
    requires i < |bs|
  {
    var w := bs[i].off / 8;
    && w + 3 < |m|
    && m[w] == bs[i].size
    && m[w + 1] == Code(bs[i].state)
    && m[w + 2] == NextOf(base, bs, i)
    && m[w + 3] == PrevOf(base, bs, i)
  }

  /** The memory holds exactly the list bs, with next and prev mutually inverse. */
  ghost predicate Stored(m: seq<int>, base: int, bs: seq<Block>) {
    |m| == WORDS && forall i :: 0 <= i < |bs| ==> HeaderStored(m, base, bs, i)
  }

  /** No payload word of b differs between the two memories. */
  ghost predicate PayloadKept(m: seq<int>, n: seq<int>, b: Block) {
    |m| == |n| && forall w :: (b.off + HEADER) / 8 <= w < b.End() / 8 && w < |m| ==> m[w] == n[w]
  }

  /** Word indices of two blocks of a tiling are far apart. */
  lemma WordsApart(bs: seq<Block>)
    requires Tiles(bs)
    ensures forall i :: 0 <= i < |bs| ==> bs[i].off % 64 == 0 && bs[i].off / 8 + 8 <= bs[i].End() / 8 <= WORDS
    ensures forall i, j :: 0 <= i < j < |bs| ==> bs[i].End() / 8 <= bs[j].off / 8
  {
    TilesSorted(bs);
    forall i | 0 <= i < |bs| ensures bs[i].off % 64 == 0 && bs[i].off / 8 + 8 <= bs[i].End() / 8 <= WORDS {
      assert BlockOk(bs[i]);
      TilesBelowPool(bs, i);
      assert IsPow2(64) by { assert IsPow2(16) by { assert IsPow2(4); } assert IsPow2(32); }
      Pow2Divides(64, bs[i].size);
      MultipleTransitive(bs[i].off, bs[i].size, 64);
    }
  }

  // ----- the writes of one halving -----

  function WriteHalf(m: seq<int>, base: int, bs: seq<Block>, i: nat): seq<int>
    requires |m| == WORDS && i < |bs|
    requires bs[i].off / 8 + 3 < WORDS && (bs[i].off + bs[i].size / 2) / 8 + 3 < WORDS
    requires i + 1 < |bs| ==> bs[i + 1].off / 8 + 3 < WORDS
  {
    var w, n := bs[i].off / 8, (bs[i].off + bs[i].size / 2) / 8;
    var nb := base + bs[i].off + bs[i].size / 2;
    var m1 := m[n := bs[i].size / 2][n + 1 := 0][n + 2 := NextOf(base, bs, i)][n + 3 := base + bs[i].off];
    var m2 := if i + 1 < |bs| then m1[bs[i + 1].off / 8 + 3 := nb] else m1;
    m2[w + 2 := nb][w := bs[i].size / 2]
  }

  lemma HalveInRange(bs: seq<Block>, i: nat)
    requires Tiles(bs) && i < |bs| && bs[i].size >= 128
    ensures bs[i].off / 8 + 8 <= (bs[i].off + bs[i].size / 2) / 8
    ensures (bs[i].off + bs[i].size / 2) / 8 + 8 <= bs[i].End() / 8 <= WORDS
    ensures i + 1 < |bs| ==> bs[i].End() / 8 <= bs[i + 1].off / 8 && bs[i + 1].off / 8 + 8 <= WORDS
  {
    var r := HalveAt(bs, i);
    HalveTiles(bs, i);
    WordsApart(r);
    assert r[i + 1].off == bs[i].off + bs[i].size / 2 && r[i].off == bs[i].off && r[i + 1].End() == bs[i].End() by {
      assert BlockOk(bs[i]);
    }
    if i + 1 < |bs| { assert r[i + 2] == bs[i + 1]; }
  }

  /** The words a halving writes: the new header, the size and next of the old one, and the prev of the
      following block. */
  predicate HalveTouches(bs: seq<Block>, i: nat, x: int)
    requires i < |bs|
  {
    || x == bs[i].off / 8 || x == bs[i].off / 8 + 2
    || (bs[i].off + bs[i].size / 2) / 8 <= x <= (bs[i].off + bs[i].size / 2) / 8 + 3
    || (i + 1 < |bs| && x == bs[i + 1].off / 8 + 3)
  }

  lemma HalveFrame(m: seq<int>, base: int, bs: seq<Block>, i: nat)
    requires Tiles(bs) && |m| == WORDS && i < |bs| && bs[i].size >= 128
    ensures bs[i].off / 8 + 3 < WORDS && (bs[i].off + bs[i].size / 2) / 8 + 3 < WORDS
    ensures i + 1 < |bs| ==> bs[i + 1].off / 8 + 3 < WORDS
    ensures |WriteHalf(m, base, bs, i)| == WORDS
    ensures forall x :: 0 <= x < WORDS && !HalveTouches(bs, i, x) ==> WriteHalf(m, base, bs, i)[x] == m[x]
  {
    HalveInRange(bs, i);
  }

  lemma HalveIndex(bs: seq<Block>, i: nat)
    requires i < |bs|
    ensures var r := HalveAt(bs, i);
            && |r| == |bs| + 1
            && (forall k :: 0 <= k < i ==> r[k] == bs[k])
            && (forall k :: i + 1 < k <= |bs| ==> r[k] == bs[k - 1])
            && r[i] == bs[i].(size := bs[i].size / 2)
            && r[i + 1] == Block(bs[i].off + bs[i].size / 2, bs[i].size / 2, Free)
  {
  }

  lemma HalveValues(m: seq<int>, base: int, bs: seq<Block>, i: nat)
    requires Tiles(bs) && |m| == WORDS && i < |bs| && bs[i].size >= 128
    ensures bs[i].off / 8 + 3 < WORDS && (bs[i].off + bs[i].size / 2) / 8 + 3 < WORDS
    ensures i + 1 < |bs| ==> bs[i + 1].off / 8 + 3 < WORDS
    ensures var m', w, n := WriteHalf(m, base, bs, i), bs[i].off / 8, (bs[i].off + bs[i].size / 2) / 8;
            && m'[w] == m'[n] == bs[i].size / 2
            && m'[n + 1] == 0 && m'[n + 2] == NextOf(base, bs, i) && m'[n + 3] == base + bs[i].off
            && m'[w + 2] == base + bs[i].off + bs[i].size / 2
            && (i + 1 < |bs| ==> m'[bs[i + 1].off / 8 + 3] == base + bs[i].off + bs[i].size / 2)
  {
    HalveInRange(bs, i);
  }

  /** A header in front of the halved block, from the words left alone. */
  lemma HalveHeaderBefore(m: seq<int>, n: seq<int>, base: int, bs: seq<Block>, r: seq<Block>, i: nat, k: nat)
    requires Tiles(bs) && Stored(m, base, bs) && |n| == WORDS && k < i < |bs| && bs[i].size >= 128 && |r| == |bs| + 1
    requires forall k :: 0 <= k < i ==> r[k] == bs[k]
    requires r[i].off == bs[i].off
    requires forall x :: 0 <= x < WORDS && !HalveTouches(bs, i, x) ==> n[x] == m[x]
    ensures HeaderStored(n, base, r, k)
  {
    HalveInRange(bs, i);
    WordsBefore(bs, k, i);
    assert HeaderStored(m, base, bs, k);
  }

  /** A header behind the halves; only the next block's link back was rewritten. */
  lemma HalveHeaderBehind(m: seq<int>, n: seq<int>, base: int, bs: seq<Block>, r: seq<Block>, i: nat, k: nat)
    requires Tiles(bs) && Stored(m, base, bs) && |n| == WORDS && i < |bs| && bs[i].size >= 128
    requires i + 1 < k < |r| == |bs| + 1
    requires forall k :: i + 1 < k <= |bs| ==> r[k] == bs[k - 1]
    requires forall x :: 0 <= x < WORDS && !HalveTouches(bs, i, x) ==> n[x] == m[x]
    requires bs[i + 1].off / 8 + 3 < WORDS && n[bs[i + 1].off / 8 + 3] == base + r[i + 1].off
    ensures HeaderStored(n, base, r, k)
  {
    HalveInRange(bs, i);
    WordsBefore(bs, i, k - 1);
    if k - 1 > i + 1 { WordsBefore(bs, i + 1, k - 1); }
    assert HeaderStored(m, base, bs, k - 1);
  }

  lemma HalveOtherHeader(m: seq<int>, n: seq<int>, base: int, bs: seq<Block>, r: seq<Block>, i: nat, k: nat)
    requires Tiles(bs) && Stored(m, base, bs) && |n| == WORDS && i < |bs| && bs[i].size >= 128
    requires k < |r| == |bs| + 1 && (k < i || k > i + 1)
    requires forall k :: 0 <= k < i ==> r[k] == bs[k]
    requires forall k :: i + 1 < k <= |bs| ==> r[k] == bs[k - 1]
    requires r[i].off == bs[i].off
    requires forall x :: 0 <= x < WORDS && !HalveTouches(bs, i, x) ==> n[x] == m[x]
    requires i + 1 < |bs| ==> bs[i + 1].off / 8 + 3 < WORDS && n[bs[i + 1].off / 8 + 3] == base + r[i + 1].off
    ensures HeaderStored(n, base, r, k)
  {
    if k < i {
      HalveHeaderBefore(m, n, base, bs, r, i, k);
    } else {
      HalveHeaderBehind(m, n, base, bs, r, i, k);
    }
  }

  /** The headers of the two halves, from the values written. */
  lemma HalveOwnHeader(m: seq<int>, n: seq<int>, base: int, bs: seq<Block>, r: seq<Block>, i: nat)
    requires Tiles(bs) && Stored(m, base, bs) && |n| == WORDS && i < |bs| && bs[i].size >= 128 && |r| == |bs| + 1
    requires forall k :: 0 <= k < i ==> r[k] == bs[k]
    requires forall k :: i + 1 < k <= |bs| ==> r[k] == bs[k - 1]
    requires r[i] == bs[i].(size := bs[i].size / 2)
    requires r[i + 1] == Block(bs[i].off + bs[i].size / 2, bs[i].size / 2, Free)
    requires forall x :: 0 <= x < WORDS && !HalveTouches(bs, i, x) ==> n[x] == m[x]
    requires var w, h := bs[i].off / 8, r[i + 1].off / 8;
             && h + 3 < WORDS && w + 3 < WORDS
             && n[w] == n[h] == bs[i].size / 2 && n[w + 2] == base + r[i + 1].off
             && n[h + 1] == 0 && n[h + 2] == NextOf(base, bs, i) && n[h + 3] == base + bs[i].off
    ensures HeaderStored(n, base, r, i) && HeaderStored(n, base, r, i + 1)
  {
    HalveInRange(bs, i);
    assert HeaderStored(m, base, bs, i);
  }

  lemma WordsBefore(bs: seq<Block>, j: nat, k: nat)
    requires Tiles(bs) && j < k < |bs|
    ensures bs[j].End() / 8 <= bs[k].off / 8 && bs[j].off / 8 + 8 <= bs[k].off / 8 && bs[k].off / 8 + 8 <= bs[k].End() / 8 <= WORDS
  {
    WordsApart(bs);
  }

  lemma HalvePayload(m: seq<int>, base: int, bs: seq<Block>, i: nat, j: nat)
    requires Tiles(bs) && Stored(m, base, bs) && i < |bs| && bs[i].size >= 128 && j < |bs| && j != i
    ensures bs[i].off / 8 + 3 < WORDS && (bs[i].off + bs[i].size / 2) / 8 + 3 < WORDS
    ensures i + 1 < |bs| ==> bs[i + 1].off / 8 + 3 < WORDS
    ensures PayloadKept(m, WriteHalf(m, base, bs, i), bs[j])
  {
    HalveFrame(m, base, bs, i);
    HalveInRange(bs, i);
    if j < i {
      WordsBefore(bs, j, i);
    } else {
      WordsBefore(bs, i, j);
      if i + 1 < j { WordsBefore(bs, i + 1, j); }
    }
  }

  lemma HalveStored(m: seq<int>, base: int, bs: seq<Block>, i: nat)
    requires Tiles(bs) && Stored(m, base, bs) && i < |bs| && bs[i].size >= 128
    ensures bs[i].off / 8 + 3 < WORDS && (bs[i].off + bs[i].size / 2) / 8 + 3 < WORDS
    ensures i + 1 < |bs| ==> bs[i + 1].off / 8 + 3 < WORDS
    ensures Stored(WriteHalf(m, base, bs, i), base, HalveAt(bs, i))
    ensures forall j :: 0 <= j < |bs| && j != i ==> PayloadKept(m, WriteHalf(m, base, bs, i), bs[j])
  {
    HalveFrame(m, base, bs, i);
    HalveValues(m, base, bs, i);
    HalveIndex(bs, i);
    var m', r := WriteHalf(m, base, bs, i), HalveAt(bs, i);
    forall k | 0 <= k < |r| ensures HeaderStored(m', base, r, k) {
      if k == i || k == i + 1 {
        HalveOwnHeader(m, m', base, bs, r, i);
      } else {
        HalveOtherHeader(m, m', base, bs, r, i, k);
      }
    }
    forall j | 0 <= j < |bs| && j != i ensures PayloadKept(m, m', bs[j]) {
      HalvePayload(m, base, bs, i, j);
    }
  }

  // ----- the writes of one merge -----

  function WriteMerge(m: seq<int>, base: int, bs: seq<Block>, lo: nat): seq<int>
    requires |m| == WORDS && lo + 1 < |bs| && bs[lo].off / 8 + 3 < WORDS
    requires lo + 2 < |bs| ==> bs[lo + 2].off / 8 + 3 < WORDS
  {
    var w := bs[lo].off / 8;
    var m1 := m[w := 2 * bs[lo].size][w + 2 := NextOf(base, bs, lo + 1)];
    if lo + 2 < |bs| then m1[bs[lo + 2].off / 8 + 3 := base + bs[lo].off] else m1
  }

  lemma MergeIndex(bs: seq<Block>, lo: nat)
    requires lo + 1 < |bs|
    ensures var r := MergeAt(bs, lo);
            && |r| == |bs| - 1
            && (forall k :: 0 <= k < lo ==> r[k] == bs[k])
            && (forall k :: lo < k < |r| ==> r[k] == bs[k + 1])
            && r[lo] == bs[lo].(size := 2 * bs[lo].size)
  {
  }

  predicate MergeTouches(bs: seq<Block>, lo: nat, x: int)
    requires lo + 1 < |bs|
  {
    || x == bs[lo].off / 8 || x == bs[lo].off / 8 + 2
    || (lo + 2 < |bs| && x == bs[lo + 2].off / 8 + 3)
  }

  lemma MergeWrites(m: seq<int>, base: int, bs: seq<Block>, lo: nat)
    requires Tiles(bs) && |m| == WORDS && lo + 1 < |bs|
    ensures bs[lo].off / 8 + 3 < WORDS && (lo + 2 < |bs| ==> bs[lo + 2].off / 8 + 3 < WORDS)
    ensures var n := WriteMerge(m, base, bs, lo);
            && |n| == WORDS
            && (forall x :: 0 <= x < WORDS && !MergeTouches(bs, lo, x) ==> n[x] == m[x])
            && n[bs[lo].off / 8] == 2 * bs[lo].size && n[bs[lo].off / 8 + 2] == NextOf(base, bs, lo + 1)
            && (lo + 2 < |bs| ==> n[bs[lo + 2].off / 8 + 3] == base + bs[lo].off)
  {
    WordsBefore(bs, lo, lo + 1);
    if lo + 2 < |bs| { WordsBefore(bs, lo, lo + 2); }
  }

  lemma MergeHeader(m: seq<int>, n: seq<int>, base: int, bs: seq<Block>, r: seq<Block>, lo: nat, k: nat)
    requires Tiles(bs) && Stored(m, base, bs) && |n| == WORDS && lo + 1 < |bs| && k < |r| == |bs| - 1
    requires forall k :: 0 <= k < lo ==> r[k] == bs[k]
    requires forall k :: lo < k < |r| ==> r[k] == bs[k + 1]
    requires r[lo] == bs[lo].(size := 2 * bs[lo].size)
    requires forall x :: 0 <= x < WORDS && !MergeTouches(bs, lo, x) ==> n[x] == m[x]
    requires bs[lo].off / 8 + 3 < WORDS && (lo + 2 < |bs| ==> bs[lo + 2].off / 8 + 3 < WORDS)
    requires n[bs[lo].off / 8] == 2 * bs[lo].size && n[bs[lo].off / 8 + 2] == NextOf(base, bs, lo + 1)
    requires lo + 2 < |bs| ==> n[bs[lo + 2].off / 8 + 3] == base + bs[lo].off
    ensures HeaderStored(n, base, r, k)
  {
    if lo + 2 < |bs| { WordsBefore(bs, lo, lo + 2); }
    if k < lo {
      WordsBefore(bs, k, lo);
      if lo + 2 < |bs| { WordsBefore(bs, k, lo + 2); }
      assert HeaderStored(m, base, bs, k);
    } else if k == lo {
      assert HeaderStored(m, base, bs, lo);
    } else {
      WordsBefore(bs, lo, k + 1);
      if k > lo + 1 { WordsBefore(bs, lo + 2, k + 1); }
      assert HeaderStored(m, base, bs, k + 1);
    }
  }

  lemma MergePayload(m: seq<int>, n: seq<int>, bs: seq<Block>, lo: nat, j: nat)
    requires Tiles(bs) && |m| == |n| == WORDS && lo + 1 < |bs| && j < |bs|
    requires forall x :: 0 <= x < WORDS && !MergeTouches(bs, lo, x) ==> n[x] == m[x]
    ensures PayloadKept(m, n, bs[j])
  {
    if j < lo { WordsBefore(bs, j, lo); }
    if lo < j { WordsBefore(bs, lo, j); }
    if lo + 2 < |bs| {
      if j < lo + 2 { WordsBefore(bs, j, lo + 2); }
      if lo + 2 < j { WordsBefore(bs, lo + 2, j); }
    }
    WordsApart(bs);
  }

  lemma MergeStored(m: seq<int>, base: int, bs: seq<Block>, lo: nat)
    requires Tiles(bs) && Stored(m, base, bs) && lo + 1 < |bs|
    ensures bs[lo].off / 8 + 3 < WORDS && (lo + 2 < |bs| ==> bs[lo + 2].off / 8 + 3 < WORDS)
    ensures Stored(WriteMerge(m, base, bs, lo), base, MergeAt(bs, lo))
    ensures forall j :: 0 <= j < |bs| ==> PayloadKept(m, WriteMerge(m, base, bs, lo), bs[j])
  {
    MergeWrites(m, base, bs, lo);
    MergeIndex(bs, lo);
    var n, r := WriteMerge(m, base, bs, lo), MergeAt(bs, lo);
    forall k | 0 <= k < |r| ensures HeaderStored(n, base, r, k) {
      MergeHeader(m, n, base, bs, r, lo, k);
    }
    forall j | 0 <= j < |bs| ensures PayloadKept(m, n, bs[j]) {
      MergePayload(m, n, bs, lo, j);
    }
  }

  lemma RetagStored(m: seq<int>, base: int, bs: seq<Block>, i: nat, s: BlockState)
    requires Tiles(bs) && Stored(m, base, bs) && i < |bs|
    ensures bs[i].off / 8 + 1 < WORDS
    ensures Stored(m[bs[i].off / 8 + 1 := Code(s)], base, bs[i := bs[i].(state := s)])
    ensures forall j :: 0 <= j < |bs| ==> PayloadKept(m, m[bs[i].off / 8 + 1 := Code(s)], bs[j])
  {
    WordsApart(bs);
    var r := bs[i := bs[i].(state := s)];
    var n := m[bs[i].off / 8 + 1 := Code(s)];
    forall k | 0 <= k < |r| ensures HeaderStored(n, base, r, k) {
      assert HeaderStored(m, base, bs, k);
    }
  }

  /** What reading the header of block i yields. */
  lemma HeaderRead(m: seq<int>, base: int, bs: seq<Block>, i: nat)
    requires Tiles(bs) && Stored(m, base, bs) && i < |bs|
    ensures var w := bs[i].off / 8;
            && w + 3 < WORDS
            && m[w] == bs[i].size && (m[w + 1] == 1 <==> bs[i].state == Used) && (m[w + 1] == 0 <==> bs[i].state == Free)
            && m[w + 2] == NextOf(base, bs, i)
  {
    assert HeaderStored(m, base, bs, i);
  }

  /** Payloads that survive two steps survive both. */
  lemma PayloadTransitive(m: seq<int>, n: seq<int>, p: seq<int>, b: Block)
    requires PayloadKept(m, n, b) && PayloadKept(n, p, b)
    ensures PayloadKept(m, p, b)
  {
  }

  /** get_buddy on addresses: the pool base is aligned to the maximal block, so the test on the address
      is the test on the offset. */
  lemma AddressParity(base: nat, off: nat, size: nat)
    requires base % MAX_SIZE == 0 && IsPow2(size) && size < MAX_SIZE
    ensures (base + off) % (2 * size) == 0 <==> off % (2 * size) == 0
  {
    PoolPow2();
    Pow2Half(size, MAX_SIZE);
    assert IsPow2(2 * size);
    Pow2Divides(2 * size, MAX_SIZE);
    MultipleTransitive(base, MAX_SIZE, 2 * size);
    ShiftMultiple(base, off, 2 * size);
  }

  class Pool {
    const base: nat
    const mem: array<int>
    ghost var heap: Heap

    ghost predicate Valid()
      reads this, mem
    {
      && base > 0 && base % MAX_SIZE == 0
      && mem.Length == WORDS
      && Inv(heap)
      && Stored(mem[..], base, heap.blocks)
    }

    /** kalloc_init: one free block covering the pool. */
    constructor (poolBase: nat)
      requires poolBase > 0 && poolBase % MAX_SIZE == 0
      ensures Valid() && base == poolBase && heap == Initial() && fresh(mem)
    {
      base := poolBase;
      mem := new int[WORDS];
      heap := Initial();
      new;
      mem[0], mem[1], mem[2], mem[3] := POOL, 0, 0, 0;
      InitialInv();
    }

    /** kalloc_get_used */
    method GetUsed() returns (used: nat)
      requires Valid()
      ensures used == Bytes(heap.blocks, Used)
    {
      ghost var bs, m := heap.blocks, mem[..];
      used := 0;
      var block := base;
      ghost var i := 0;
      while block != 0
        invariant 0 <= i <= |bs|
        invariant block == if i < |bs| then base + bs[i].off else 0
        invariant used == Bytes(bs[..i], Used)
        decreases |bs| - i
      {
        HeaderRead(m, base, bs, i);
        var w := (block - base) / 8;
        assert bs[..i + 1][..i] == bs[..i];
        if mem[w + 1] == 1 {
          used := used + mem[w];
        }
        block := mem[w + 2];
        i := i + 1;
      }
      assert bs[..i] == bs;
    }

    /** The first-fit walk of kalloc; 0 stands for the null pointer. */
    method FindFit(size: nat) returns (block: int, ghost i: nat)
      requires Valid()
      ensures i == FirstFit(heap.blocks, size, 0)
      ensures var k := FirstFit(heap.blocks, size, 0);
              block == if k < |heap.blocks| then base + heap.blocks[k].off else 0
      ensures block == 0 <==> forall b :: b in heap.blocks ==> b.state == Used || b.size < size
      ensures block != 0 ==> exists k :: FitsFirst(heap.blocks, size, k) && block == base + heap.blocks[k].off
    {
      ghost var bs, m := heap.blocks, mem[..];
      block := base;
      i := 0;
      while block != 0
        invariant 0 <= i <= |bs|
        invariant block == if i < |bs| then base + bs[i].off else 0
        invariant FirstFit(bs, size, 0) == FirstFit(bs, size, i)
        decreases |bs| - i
      {
        HeaderRead(m, base, bs, i);
        var w := (block - base) / 8;
        if mem[w + 1] == 0 && mem[w] >= size {
          break;
        }
        block := mem[w + 2];
        i := i + 1;
      }
      if i < |bs| { assert FitsFirst(bs, size, i); }
    }

    /** The padding of kalloc; the additions do not wrap for the requests allowed here. */
    method Pad(request: nat) returns (size: nat)
      requires request <= SIZE_T - 40
      ensures size == PaddedNeed(request)
    {
      size := if request < MIN_REQUEST then MIN_REQUEST else request;
      size := (size + 7) - (size + 7) % 8;
      size := size + HEADER;
    }

    /** kalloc up to its first unlock: pad the request, search first fit, tag the block used. */
    method Claim(ghost c: Caller, request: nat) returns (block: int, size: nat)
      requires Valid() && Enabled(heap, Step.Claim(c, request))
      modifies this`heap, mem
      ensures Valid() && heap == Next(old(heap), Step.Claim(c, request))
      ensures size == PaddedNeed(request)
      ensures block == 0 <==> Refused(old(heap), request)
      ensures block != 0 ==> c in heap.claims && block == base + heap.claims[c].off && size == heap.claims[c].need
      ensures block != 0 ==> exists k :: FitsFirst(old(heap).blocks, size, k) && block == base + old(heap).blocks[k].off
                                         && heap.blocks == old(heap).blocks[k := old(heap).blocks[k].(state := Used)]
      ensures forall b :: b in old(heap).blocks ==> PayloadKept(old(mem[..]), mem[..], b)
    {
      size := Pad(request);
      if size > MAX_SIZE {
        return 0, size;
      }
      ghost var i;
      block, i := FindFit(size);
      if block == 0 {
        return;
      }
      assert FitsFirst(heap.blocks, size, i);
      TagUsed(block, i);
      StepKeepsInv(heap, Step.Claim(c, request));
      heap := Next(heap, Step.Claim(c, request));
    }

    method TagUsed(block: int, ghost i: nat)
      requires Valid() && i < |heap.blocks| && block == base + heap.blocks[i].off
      modifies mem
      ensures Stored(mem[..], base, heap.blocks[i := heap.blocks[i].(state := Used)])
      ensures forall j :: 0 <= j < |heap.blocks| ==> PayloadKept(old(mem[..]), mem[..], heap.blocks[j])
    {
      HeaderRead(mem[..], base, heap.blocks, i);
      RetagStored(mem[..], base, heap.blocks, i, Used);
      ghost var target := mem[..][heap.blocks[i].off / 8 + 1 := Code(Used)];
      mem[(block - base) / 8 + 1] := 1;
      assert mem[..] == target;
    }

    /** One round of the split loop: carve the upper half off as a new free block. */
    method Halve(block: int, ghost bs: seq<Block>, ghost i: nat)
      requires mem.Length == WORDS && base > 0 && Tiles(bs) && Stored(mem[..], base, bs)
      requires i < |bs| && bs[i].size >= 128 && block == base + bs[i].off
      modifies mem
      ensures Stored(mem[..], base, HalveAt(bs, i))
      ensures forall j :: 0 <= j < |bs| && j != i ==> PayloadKept(old(mem[..]), mem[..], bs[j])
    {
      HalveStored(mem[..], base, bs, i);
      HalveWords(block, bs, i);
    }

    method HalveWords(block: int, ghost bs: seq<Block>, ghost i: nat)
      requires mem.Length == WORDS && base > 0 && Tiles(bs) && Stored(mem[..], base, bs)
      requires i < |bs| && bs[i].size >= 128 && block == base + bs[i].off
      requires bs[i].off / 8 + 3 < WORDS && (bs[i].off + bs[i].size / 2) / 8 + 3 < WORDS
      requires i + 1 < |bs| ==> bs[i + 1].off / 8 + 3 < WORDS
      modifies mem
      ensures mem[..] == WriteHalf(old(mem[..]), base, bs, i)
    {
      HeaderRead(mem[..], base, bs, i);
      HalveInRange(bs, i);
      var w := (block - base) / 8;
      var half, next := mem[w] / 2, mem[w + 2];
      var newBlock := block + half;
      var n := (newBlock - base) / 8;
      assert n == (bs[i].off + bs[i].size / 2) / 8;
      mem[n] := half;
      mem[n + 1] := 0;
      mem[n + 2] := next;
      mem[n + 3] := block;
      if next != 0 {
        mem[(next - base) / 8 + 3] := newBlock;
      }
      mem[w + 2] := newBlock;
      mem[w] := half;
    }

    /** The split loop of kalloc: halve the block while the half still holds the need. */
    method HalveDown(block: int, size: nat, ghost bs: seq<Block>, ghost i: nat)
      requires mem.Length == WORDS && base > 0 && Tiles(bs) && Stored(mem[..], base, bs)
      requires i < |bs| && block == base + bs[i].off && size >= 64
      modifies mem
      ensures Stored(mem[..], base, SplitAll(bs, i, size))
      ensures forall j :: 0 <= j < |bs| && j != i ==> PayloadKept(old(mem[..]), mem[..], bs[j])
    {
      ghost var cur := bs;
      var w := (block - base) / 8;
      HeaderRead(mem[..], base, cur, i);
      TilesSorted(bs);
      while mem[w] / 2 >= size
        invariant Tiles(cur) && Stored(mem[..], base, cur) && i < |cur| && cur[i].off == bs[i].off
        invariant w == cur[i].off / 8 && w + 3 < WORDS && mem[w] == cur[i].size
        invariant SplitAll(cur, i, size) == SplitAll(bs, i, size)
        invariant forall j :: 0 <= j < |bs| && j != i ==> bs[j] in cur && bs[j] != cur[i] && PayloadKept(old(mem[..]), mem[..], bs[j])
        decreases mem[w]
      {
        ghost var m0 := mem[..];
        HalveTiles(cur, i);
        Halve(block, cur, i);
        KeptThroughHalf(old(mem[..]), m0, mem[..], bs, cur, i);
        cur := HalveAt(cur, i);
        HeaderRead(mem[..], base, cur, i);
      }
    }

    /** kalloc after its second lock: split the claimed block and hand out its payload. */
    method Split(ghost c: Caller, block: int, size: nat) returns (ptr: int)
      requires Valid() && Enabled(heap, Step.Split(c))
      requires block == base + heap.claims[c].off && size == heap.claims[c].need
      modifies this`heap, mem
      ensures Valid() && heap == Next(old(heap), Step.Split(c))
      ensures ptr == block + HEADER
      ensures forall b :: b in old(heap).blocks && b.off != old(heap).claims[c].off ==> PayloadKept(old(mem[..]), mem[..], b)
    {
      HalveDown(block, size, heap.blocks, IndexOf(heap.blocks, heap.claims[c].off));
      ptr := block + HEADER;
      StepKeepsInv(heap, Step.Split(c));
      OthersElsewhere(heap.blocks, heap.claims[c].off);
      heap := Next(heap, Step.Split(c));
    }

    /** kfree: tag the block free and merge upwards; a block found free makes the assertion fail. */
    method Free(ptr: int) returns (ok: bool)
      requires Valid() && ptr >= base + HEADER && IsHeader(heap.blocks, ptr - base - HEADER)
      requires !IsClaimed(heap, ptr - base - HEADER)
      modifies this`heap, mem
      ensures Valid()
      ensures ok <==> Enabled(old(heap), Release(ptr - base - HEADER))
      ensures heap == if ok then Next(old(heap), Release(ptr - base - HEADER)) else old(heap)
      ensures forall b :: b in old(heap).blocks && b.state == Used && b.off != ptr - base - HEADER ==> PayloadKept(old(mem[..]), mem[..], b)
    {
      var block := ptr - HEADER;
      ghost var i := IndexOf(heap.blocks, block - base);
      HeaderRead(mem[..], base, heap.blocks, i);
      ok := mem[(block - base) / 8 + 1] != 0;
      if !ok {
        return;
      }
      Coalesce(block, i);
      StepKeepsInv(heap, Release(block - base));
      heap := Next(heap, Release(block - base));
    }

    method Coalesce(block: int, ghost i: nat)
      requires Valid() && i < |heap.blocks| && block == base + heap.blocks[i].off
      requires Enabled(heap, Release(heap.blocks[i].off)) && i == IndexOf(heap.blocks, heap.blocks[i].off)
      modifies mem
      ensures Stored(mem[..], base, Next(heap, Release(heap.blocks[i].off)).blocks)
      ensures forall b :: b in heap.blocks && b.state == Used && b.off != heap.blocks[i].off ==> PayloadKept(old(mem[..]), mem[..], b)
    {
      ghost var bs := heap.blocks;
      ReleaseReady(heap, bs[i].off);
      TagFree(block, i);
      ghost var m1 := mem[..];
      MergeUp(block, bs[i := bs[i].(state := BlockState.Free)], i);
      KeptThroughTag(old(mem[..]), m1, mem[..], bs, i);
    }

    method TagFree(block: int, ghost i: nat)
      requires Valid() && i < |heap.blocks| && block == base + heap.blocks[i].off
      modifies mem
      ensures Stored(mem[..], base, heap.blocks[i := heap.blocks[i].(state := BlockState.Free)])
      ensures forall j :: 0 <= j < |heap.blocks| ==> PayloadKept(old(mem[..]), mem[..], heap.blocks[j])
    {
      HeaderRead(mem[..], base, heap.blocks, i);
      RetagStored(mem[..], base, heap.blocks, i, BlockState.Free);
      ghost var target := mem[..][heap.blocks[i].off / 8 + 1 := Code(BlockState.Free)];
      mem[(block - base) / 8 + 1] := 0;
      assert mem[..] == target;
    }

    /** get_buddy; 0 for a maximal block. */
    method GetBuddy(block: int, ghost bs: seq<Block>, ghost i: nat) returns (buddy: int)
      requires mem.Length == WORDS && base > 0 && base % MAX_SIZE == 0 && Tiles(bs) && Stored(mem[..], base, bs)
      requires i < |bs| && bs[i].size <= MAX_SIZE && block == base + bs[i].off
      ensures buddy == 0 <==> bs[i].size == MAX_SIZE
      ensures buddy != 0 ==> buddy == base + bs[BuddyIndex(bs, i)].off
    {
      HeaderRead(mem[..], base, bs, i);
      var size := mem[(block - base) / 8];
      if size == MAX_SIZE {
        return 0;
      }
      assert BlockOk(bs[i]);
      AddressParity(base, bs[i].off, size);
      if block % (2 * size) == 0 {
        return block + size;
      } else {
        return block - size;
      }
    }

    /** The guard of the merge loop of kfree. */
    method Mergeable(block: int, buddy: int, ghost bs: seq<Block>, ghost i: nat) returns (r: bool)
      requires mem.Length == WORDS && base > 0 && Tiles(bs) && Stored(mem[..], base, bs)
      requires i < |bs| && bs[i].size <= MAX_SIZE && block == base + bs[i].off
      requires buddy == 0 <==> bs[i].size == MAX_SIZE
      requires buddy != 0 ==> buddy == base + bs[BuddyIndex(bs, i)].off
      ensures r == CanMerge(bs, i)
    {
      HeaderRead(mem[..], base, bs, i);
      HeaderRead(mem[..], base, bs, BuddyIndex(bs, i));
      r := buddy != 0 && mem[(buddy - base) / 8 + 1] == 0 && mem[(buddy - base) / 8] == mem[(block - base) / 8];
    }

    /** The body of the merge loop of kfree. */
    method MergeOnce(block: int, buddy: int, ghost bs: seq<Block>, ghost i: nat) returns (merged: int)
      requires mem.Length == WORDS && base > 0 && Tiles(bs) && Stored(mem[..], base, bs)
      requires i < |bs| && bs[i].size <= MAX_SIZE && CanMerge(bs, i)
      requires block == base + bs[i].off && buddy == base + bs[BuddyIndex(bs, i)].off
      modifies mem
      ensures merged == base + bs[MergeLow(bs, i)].off
      ensures Stored(mem[..], base, MergeAt(bs, MergeLow(bs, i)))
      ensures forall j :: 0 <= j < |bs| ==> PayloadKept(old(mem[..]), mem[..], bs[j])
    {
      MergePair(bs, i);
      merged := if buddy < block then buddy else block;
      var other := if buddy < block then block else buddy;
      Absorb(merged, other, bs, MergeLow(bs, i));
    }

    method Absorb(merged: int, other: int, ghost bs: seq<Block>, ghost lo: nat)
      requires mem.Length == WORDS && base > 0 && Tiles(bs) && Stored(mem[..], base, bs)
      requires lo + 1 < |bs| && merged == base + bs[lo].off && other == base + bs[lo + 1].off
      modifies mem
      ensures Stored(mem[..], base, MergeAt(bs, lo))
      ensures forall j :: 0 <= j < |bs| ==> PayloadKept(old(mem[..]), mem[..], bs[j])
    {
      MergeStored(mem[..], base, bs, lo);
      HeaderRead(mem[..], base, bs, lo);
      HeaderRead(mem[..], base, bs, lo + 1);
      WordsBefore(bs, lo, lo + 1);
      ghost var m := mem[..];
      var w, o := (merged - base) / 8, (other - base) / 8;
      var n := mem[o + 2];
      mem[w] := mem[w] * 2;
      mem[w + 2] := n;
      assert mem[..] == m[w := 2 * bs[lo].size][w + 2 := NextOf(base, bs, lo + 1)];
      if n != 0 {
        mem[(n - base) / 8 + 3] := merged;
      }
      assert mem[..] == WriteMerge(m, base, bs, lo);
    }

    /** The merge loop of kfree. */
    method MergeUp(start: int, ghost bs: seq<Block>, ghost at: nat)
      requires mem.Length == WORDS && base > 0 && base % MAX_SIZE == 0 && Tiles(bs) && Stored(mem[..], base, bs)
      requires CoalescedBut(bs, at) && at < |bs| && bs[at].size <= MAX_SIZE && bs[at].state == BlockState.Free
      requires start == base + bs[at].off
      modifies mem
      ensures Stored(mem[..], base, MergeAll(bs, at))
      ensures forall b :: b in bs && b.state == Used ==> PayloadKept(old(mem[..]), mem[..], b)
    {
      var block := start;
      ghost var cur := bs;
      ghost var i: nat := at;
      var buddy := GetBuddy(block, cur, i);
      var more := Mergeable(block, buddy, cur, i);
      while more
        invariant Tiles(cur) && Stored(mem[..], base, cur)
        invariant CoalescedBut(cur, i) && i < |cur| && cur[i].size <= MAX_SIZE && cur[i].state == BlockState.Free
        invariant block == base + cur[i].off
        invariant buddy == 0 <==> cur[i].size == MAX_SIZE
        invariant buddy != 0 ==> buddy == base + cur[BuddyIndex(cur, i)].off
        invariant more == CanMerge(cur, i)
        invariant MergeAll(cur, i) == MergeAll(bs, at)
        invariant forall b :: b in bs && b.state == Used ==> b in cur && PayloadKept(old(mem[..]), mem[..], b)
        decreases |cur|
      {
        ghost var m0 := mem[..];
        ghost var lo := MergeLow(cur, i);
        MergeKeeps(cur, i);
        block := MergeOnce(block, buddy, cur, i);
        KeptThroughMerge(old(mem[..]), m0, mem[..], bs, cur, lo);
        cur, i := MergeAt(cur, lo), lo;
        buddy := GetBuddy(block, cur, i);
        more := Mergeable(block, buddy, cur, i);
      }
    }
  }

  lemma MergePair(bs: seq<Block>, i: nat)
    requires Tiles(bs) && i < |bs| && bs[i].size <= MAX_SIZE && CanMerge(bs, i)
    ensures var k, lo := BuddyIndex(bs, i), MergeLow(bs, i);
            if bs[k].off < bs[i].off then lo == k && lo + 1 == i else lo == i && lo + 1 == k
  {
    TilesSorted(bs);
  }

  lemma KeptThroughTag(m: seq<int>, n: seq<int>, p: seq<int>, bs: seq<Block>, i: nat)
    requires i < |bs|
    requires forall j :: 0 <= j < |bs| ==> PayloadKept(m, n, bs[j])
    requires forall b :: b in bs[i := bs[i].(state := BlockState.Free)] && b.state == Used ==> PayloadKept(n, p, b)
    ensures forall b :: b in bs && b.state == Used && b.off != bs[i].off ==> PayloadKept(m, p, b)
  {
    forall b | b in bs && b.state == Used && b.off != bs[i].off ensures PayloadKept(m, p, b) {
      var k :| 0 <= k < |bs| && bs[k] == b;
      assert bs[i := bs[i].(state := BlockState.Free)][k] == b;
      PayloadTransitive(m, n, p, b);
    }
  }

  lemma KeptThroughMerge(m: seq<int>, n: seq<int>, p: seq<int>, bs: seq<Block>, cur: seq<Block>, lo: nat)
    requires lo + 1 < |cur| && cur[lo].state == BlockState.Free && cur[lo + 1].state == BlockState.Free
    requires forall j :: 0 <= j < |cur| ==> PayloadKept(n, p, cur[j])
    requires forall b :: b in bs && b.state == Used ==> b in cur && PayloadKept(m, n, b)
    ensures forall b :: b in bs && b.state == Used ==> b in MergeAt(cur, lo) && PayloadKept(m, p, b)
  {
    MergeUsed(cur, lo);
    forall b | b in bs && b.state == Used ensures b in MergeAt(cur, lo) && PayloadKept(m, p, b) {
      var k :| 0 <= k < |cur| && cur[k] == b;
      PayloadTransitive(m, n, p, b);
    }
  }

  /** A claimed block is not live, so every live block sits at another position. */
  lemma OthersElsewhere(bs: seq<Block>, off: nat)
    requires IsHeader(bs, off)
    ensures forall b :: b in bs && b.off != off ==> exists j :: 0 <= j < |bs| && j != IndexOf(bs, off) && bs[j] == b
  {
    forall b | b in bs && b.off != off
      ensures exists j :: 0 <= j < |bs| && j != IndexOf(bs, off) && bs[j] == b
    {
      var j :| 0 <= j < |bs| && bs[j] == b;
    }
  }

  lemma KeptThroughHalf(m: seq<int>, n: seq<int>, p: seq<int>, bs: seq<Block>, cur: seq<Block>, i: nat)
    requires i < |bs| && i < |cur| && Tiles(cur)
    requires forall j :: 0 <= j < |cur| && j != i ==> PayloadKept(n, p, cur[j])
    requires forall j :: 0 <= j < |bs| && j != i ==> bs[j] in cur && bs[j] != cur[i] && PayloadKept(m, n, bs[j])
    ensures forall j :: 0 <= j < |bs| && j != i ==>
              bs[j] in HalveAt(cur, i) && bs[j] != HalveAt(cur, i)[i] && PayloadKept(m, p, bs[j])
  {
    TilesSorted(cur);
    forall j | 0 <= j < |bs| && j != i
      ensures bs[j] in HalveAt(cur, i) && bs[j] != HalveAt(cur, i)[i] && PayloadKept(m, p, bs[j])
    {
      var k :| 0 <= k < |cur| && cur[k] == bs[j];
      PayloadTransitive(m, n, p, bs[j]);
      assert k < i ==> HalveAt(cur, i)[k] == cur[k];
      assert k > i ==> HalveAt(cur, i)[k + 1] == cur[k];
    }
  }
}
