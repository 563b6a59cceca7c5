/** The buddy allocator of kern/mm/kalloc.c as a transition system: the address-ordered block list,
    and the blocks that some caller has claimed but not yet split. Offsets count from the pool base. */
module BuddySpec {
  import opened Alignment

  const POOL: nat := 524288
  const MAX_SIZE: nat := 32768
  const MIN_REQUEST: nat := 32
  const HEADER: nat := 32
  const SIZE_T: nat := 0x1_0000_0000_0000_0000

  datatype BlockState = Free | Used

  datatype Block = Block(off: nat, size: nat, state: BlockState) {
    function End(): nat { off + size }
  }

  /** A caller between the two critical sections of kalloc. */
  datatype Claimed = Claimed(off: nat, need: nat)

  type Caller = nat

  datatype Heap = Heap(blocks: seq<Block>, claims: map<Caller, Claimed>)

  // ----- the tiling invariant -----

  predicate BlockOk(b: Block) {
    IsPow2(b.size) && 64 <= b.size && b.off % b.size == 0
  }

  predicate Adjacent(bs: seq<Block>, i: nat)
    requires i < |bs|
  {
    if i + 1 < |bs| then bs[i].End() == bs[i + 1].off else bs[i].End() == POOL
  }

  /** The blocks tile the pool exactly, in address order, each aligned to its size. */
  ghost predicate Tiles(bs: seq<Block>) {
    && |bs| > 0
    && bs[0].off == 0
    && (forall i :: 0 <= i < |bs| ==> BlockOk(bs[i]))
    && (forall i :: 0 <= i < |bs| ==> Adjacent(bs, i))
  }

  lemma {:induction false} TilesOrdered(bs: seq<Block>, i: nat, j: nat)
    requires Tiles(bs) && i < j < |bs|
    ensures bs[i].End() <= bs[j].off && bs[i].off + 64 <= bs[j].off
    decreases j - i
  {
    assert Adjacent(bs, i) && BlockOk(bs[i]);
    if i + 1 < j {
      TilesOrdered(bs, i + 1, j);
    }
  }

  lemma TilesSorted(bs: seq<Block>)
    requires Tiles(bs)
    ensures forall i, j :: 0 <= i < j < |bs| ==> bs[i].End() <= bs[j].off && bs[i].off + 64 <= bs[j].off
  {
    forall i, j | 0 <= i < j < |bs|
      ensures bs[i].End() <= bs[j].off && bs[i].off + 64 <= bs[j].off
    {
      TilesOrdered(bs, i, j);
    }
  }

  lemma {:induction false} TilesBelowPool(bs: seq<Block>, i: nat)
    requires Tiles(bs) && i < |bs|
    ensures bs[i].End() <= POOL
    decreases |bs| - i
  {
    assert Adjacent(bs, i);
    if i + 1 < |bs| {
      TilesBelowPool(bs, i + 1);
      assert BlockOk(bs[i + 1]);
    }
  }

  /** Every address of the pool lies in exactly one block. */
  lemma {:induction false} BlockAt(bs: seq<Block>, x: nat, from: nat) returns (k: nat)
    requires Tiles(bs) && from < |bs| && bs[from].off <= x < POOL
    ensures from <= k < |bs| && bs[k].off <= x < bs[k].End()
    decreases |bs| - from
  {
    assert Adjacent(bs, from);
    if x < bs[from].End() {
      k := from;
    } else {
      k := BlockAt(bs, x, from + 1);
    }
  }

  ghost predicate IsHeader(bs: seq<Block>, off: nat) {
    exists k :: 0 <= k < |bs| && bs[k].off == off
  }

  /** The list position of the block whose header stands at off. */
  ghost function IndexOf(bs: seq<Block>, off: nat): (k: nat)
    requires IsHeader(bs, off)
    ensures k < |bs| && bs[k].off == off
  {
    var k :| 0 <= k < |bs| && bs[k].off == off;
    k
  }

  lemma IndexUnique(bs: seq<Block>, k: nat)
    requires Tiles(bs) && k < |bs|
    ensures IsHeader(bs, bs[k].off) && IndexOf(bs, bs[k].off) == k
  {
    TilesSorted(bs);
    var j := IndexOf(bs, bs[k].off);
  }

  // ----- buddies -----

  /** get_buddy, on offsets: the other half of the aligned region of twice the size. */
  function BuddyOff(b: Block): int
    requires b.size > 0
  {
    if b.off % (2 * b.size) == 0 then b.off + b.size else b.off - b.size
  }

  predicate FreeBuddies(a: Block, b: Block)
    requires a.size > 0
  {
    a.state == Free && b.state == Free && a.size == b.size && a.size < MAX_SIZE && BuddyOff(a) == b.off
  }

  lemma BuddyBasics(b: Block)
    requires BlockOk(b) && b.size < POOL && b.End() <= POOL
    ensures 0 <= BuddyOff(b) && BuddyOff(b) + b.size <= POOL
    ensures BuddyOff(b) % b.size == 0
    ensures BuddyOff(Block(BuddyOff(b), b.size, Free)) == b.off
  {
    DoubleStep(b.off, b.size);
    MultipleOf(1, b.size);
    SumMultiple(b.off, b.size, b.size);
    assert IsPow2(2 * b.size);
    PoolPow2();
    Pow2Half(b.size, POOL);
    Pow2Divides(2 * b.size, POOL);
    if b.off % (2 * b.size) == 0 {
      MultipleGap(b.off, POOL, 2 * b.size);
    }
  }

  lemma PoolPow2()
    ensures IsPow2(POOL) && IsPow2(MAX_SIZE)
  {
    assert IsPow2(64) by { assert IsPow2(16) by { assert IsPow2(4); } assert IsPow2(32); }
    assert IsPow2(256) by { assert IsPow2(128); }
    assert IsPow2(1024) by { assert IsPow2(512); }
    assert IsPow2(4096) by { assert IsPow2(2048); }
    assert IsPow2(16384) by { assert IsPow2(8192); }
    assert IsPow2(65536) by { assert IsPow2(32768); }
    assert IsPow2(262144) by { assert IsPow2(131072); }
  }

  /** The block that covers the buddy's address is no larger than the one asking: a larger one is aligned to twice
      its size, so it would cover both halves. */
  lemma BuddyNotLarger(bs: seq<Block>, i: nat, k: nat)
    requires Tiles(bs) && i < |bs| && k < |bs| && k != i && bs[i].size <= MAX_SIZE && bs[i].size < POOL && bs[i].End() <= POOL
    requires bs[k].off <= BuddyOff(bs[i]) < bs[k].End()
    ensures bs[k].size <= bs[i].size
  {
    var b, c := bs[i], bs[k];
    TilesSorted(bs);
    assert BlockOk(b) && BlockOk(c);
    if c.size > b.size {
      Pow2Half(b.size, c.size);
      assert IsPow2(2 * b.size);
      Pow2Divides(2 * b.size, c.size);
      MultipleTransitive(c.off, c.size, 2 * b.size);
      SumMultiple(c.off, c.size, 2 * b.size);
      DoubleStep(b.off, b.size);
      MultipleGap(if b.off % (2 * b.size) == 0 then b.off else b.off - b.size, c.End(), 2 * b.size);
    }
  }

  /** The address computed by get_buddy is always the header of a block of the list, and that block
      is no larger than the one asking; when the sizes agree it is the list neighbour. */
  lemma BuddyIsHeader(bs: seq<Block>, i: nat)
    requires Tiles(bs) && i < |bs| && bs[i].size <= MAX_SIZE
    ensures BuddyOff(bs[i]) >= 0 && IsHeader(bs, BuddyOff(bs[i]))
    ensures var k := IndexOf(bs, BuddyOff(bs[i]));
            && k != i && bs[k].size <= bs[i].size
            && (bs[k].size == bs[i].size ==> k == if bs[i].off % (2 * bs[i].size) == 0 then i + 1 else i - 1)
  {
    var b := bs[i];
    TilesBelowPool(bs, i);
    BuddyBasics(b);
    var o := BuddyOff(b);
    var k := BlockAt(bs, o, 0);
    var c := bs[k];
    TilesSorted(bs);
    assert BlockOk(c) && k != i;
    BuddyNotLarger(bs, i, k);
    Pow2Divides(c.size, b.size);
    MultipleTransitive(o, b.size, c.size);
    if c.off < o { MultipleGap(c.off, o, c.size); }
    assert c.off == o;
    IndexUnique(bs, k);
    if c.size == b.size {
      assert Adjacent(bs, i) && Adjacent(bs, k);
    }
  }

  ghost function BuddyIndex(bs: seq<Block>, i: nat): (k: nat)
    requires Tiles(bs) && i < |bs| && bs[i].size <= MAX_SIZE
    ensures k < |bs| && k != i && bs[k].off == BuddyOff(bs[i]) && bs[k].size <= bs[i].size
    ensures bs[k].size == bs[i].size ==> k == if bs[i].off % (2 * bs[i].size) == 0 then i + 1 else i - 1
  {
    BuddyIsHeader(bs, i);
    IndexOf(bs, BuddyOff(bs[i]))
  }

  /** No two free blocks below the maximal size are buddies: coalescing is complete. */
  ghost predicate Coalesced(bs: seq<Block>) {
    forall i, j :: 0 <= i < |bs| && 0 <= j < |bs| && bs[i].size > 0 ==> !FreeBuddies(bs[i], bs[j])
  }

  /** The same, except for pairs that involve position x. */
  ghost predicate CoalescedBut(bs: seq<Block>, x: nat) {
    forall i, j :: 0 <= i < |bs| && 0 <= j < |bs| && i != x && j != x && bs[i].size > 0 ==> !FreeBuddies(bs[i], bs[j])
  }

  lemma FreeBuddiesSymmetric(a: Block, b: Block)
    requires BlockOk(a) && BlockOk(b) && a.End() <= POOL && FreeBuddies(a, b)
    ensures FreeBuddies(b, a)
  {
    BuddyBasics(a);
  }

  // ----- the size a request is padded to -----

  /** The need computed by kalloc, in size_t arithmetic. */
  function PaddedNeed(request: nat): nat
    requires request < SIZE_T
  {
    var s := if request < MIN_REQUEST then MIN_REQUEST else request;
    var t := (s + 7) % SIZE_T;
    (t - t % 8 + HEADER) % SIZE_T
  }

  /** The padded need covers the request and the header exactly when the request is at most
      SIZE_T - 40; above that the additions wrap and the result is below the smallest block. */
  lemma PaddedNeedExact(request: nat)
    requires request < SIZE_T
    ensures PaddedNeed(request) >= 64 <==> request <= SIZE_T - 40
    ensures request <= SIZE_T - 40 ==>
              var n := PaddedNeed(request);
              && n % 8 == 0 && request + HEADER <= n
              && n < (if request < MIN_REQUEST then MIN_REQUEST else request) + HEADER + 8
    ensures request > SIZE_T - 40 ==> PaddedNeed(request) < 64
  {
  }

  // ----- claiming -----

  predicate Fits(b: Block, need: nat) {
    b.state == Free && b.size >= need
  }

  /** The first fit at or after position i, or the length of the list. */
  function FirstFit(bs: seq<Block>, need: nat, i: nat): (k: nat)
    requires i <= |bs|
    ensures i <= k <= |bs|
    ensures k < |bs| ==> Fits(bs[k], need)
    ensures forall j :: i <= j < k ==> !Fits(bs[j], need)
    decreases |bs| - i
  {
    if i == |bs| || Fits(bs[i], need) then i else FirstFit(bs, need, i + 1)
  }

  /** Position k holds the first free block of at least this size. */
  ghost predicate FitsFirst(bs: seq<Block>, need: nat, k: int) {
    && 0 <= k < |bs| && bs[k].state == Free && bs[k].size >= need
    && forall j :: 0 <= j < k ==> bs[j].state == Used || bs[j].size < need
  }

  // ----- splitting -----

  function HalveAt(bs: seq<Block>, i: nat): seq<Block>
    requires i < |bs|
  {
    var b := bs[i];
    bs[..i] + [b.(size := b.size / 2), Block(b.off + b.size / 2, b.size / 2, Free)] + bs[i + 1..]
  }

  function SplitAll(bs: seq<Block>, i: nat, need: nat): seq<Block>
    requires i < |bs| && need > 0
    decreases bs[i].size
  {
    if bs[i].size / 2 >= need then SplitAll(HalveAt(bs, i), i, need) else bs
  }

  lemma HalveTiles(bs: seq<Block>, i: nat)
    requires Tiles(bs) && i < |bs| && bs[i].size >= 128
    ensures Tiles(HalveAt(bs, i))
  {
    var r := HalveAt(bs, i);
    var h := bs[i].size / 2;
    assert BlockOk(bs[i]) && Adjacent(bs, i);
    SplitEven(bs[i].off, h);
    assert BlockOk(r[i]) && BlockOk(r[i + 1]) && Adjacent(r, i);
    forall k | 0 <= k < |r| ensures BlockOk(r[k]) && Adjacent(r, k) {
      if k < i {
        assert Adjacent(bs, k) && BlockOk(bs[k]);
      } else if k > i + 1 {
        assert Adjacent(bs, k - 1) && BlockOk(bs[k - 1]);
      }
    }
  }

  lemma HalveCoalesced(bs: seq<Block>, i: nat)
    requires Tiles(bs) && Coalesced(bs) && i < |bs| && bs[i].state == Used && bs[i].size >= 128
    ensures Coalesced(HalveAt(bs, i))
  {
    var r := HalveAt(bs, i);
    HalveTiles(bs, i);
    TilesSorted(r);
    assert BlockOk(bs[i]) && BlockOk(r[i]) && BlockOk(r[i + 1]);
    assert BuddyOff(r[i + 1]) == r[i].off by { DoubleStep(r[i].off, r[i].size); }
    forall j, k | 0 <= j < |r| && 0 <= k < |r| && r[j].size > 0 ensures !FreeBuddies(r[j], r[k]) {
      if j == i + 1 {
        assert r[i].state == Used;
      } else if k == i + 1 {
        assert BlockOk(r[j]);
        TilesBelowPool(r, j);
        if FreeBuddies(r[j], r[k]) { FreeBuddiesSymmetric(r[j], r[k]); }
      } else {
        var j', k' := if j < i then j else if j == i then i else j - 1, if k < i then k else if k == i then i else k - 1;
        if j != i && k != i {
          assert r[j] == bs[j'] && r[k] == bs[k'];
        }
      }
    }
  }

  lemma SplitEven(x: nat, h: nat)
    requires h > 0 && x % (2 * h) == 0
    ensures x % h == 0 && (x + h) % h == 0
  {
    MultipleOf(2, h);
    MultipleTransitive(x, 2 * h, h);
    MultipleOf(1, h);
    SumMultiple(x, h, h);
  }

  /** Splitting keeps the tiling and the coalescing, leaves every other block as it was, and ends with
      a used block of at least the need and less than twice the need. */
  lemma {:induction false} SplitKeeps(bs: seq<Block>, i: nat, need: nat)
    requires Tiles(bs) && Coalesced(bs) && i < |bs| && bs[i].state == Used && 64 <= need <= bs[i].size
    ensures var r := SplitAll(bs, i, need);
            && Tiles(r) && Coalesced(r) && i < |r|
            && r[i].off == bs[i].off && r[i].state == Used
            && need <= r[i].size < 2 * need
            && r[i].size <= bs[i].size
            && (forall b: Block :: b in r && b.state == Used <==> b == r[i] || (b in bs && b != bs[i] && b.state == Used))
            && (forall b :: b in bs && b != bs[i] ==> b in r)
    decreases bs[i].size
  {
    assert BlockOk(bs[i]);
    if bs[i].size / 2 >= need {
      var m := HalveAt(bs, i);
      HalveTiles(bs, i);
      HalveCoalesced(bs, i);
      SplitKeeps(m, i, need);
      assert forall b :: b in m <==> b == m[i] || b == m[i + 1] || b in bs[..i] || b in bs[i + 1..];
      OthersSplit(bs, i);
    } else {
      OthersSplit(bs, i);
    }
  }

  lemma OthersSplit(bs: seq<Block>, i: nat)
    requires Tiles(bs) && i < |bs|
    ensures forall b :: b in bs && b != bs[i] <==> b in bs[..i] || b in bs[i + 1..]
    ensures forall b :: b in bs && b != bs[i] ==> b.off != bs[i].off
  {
    TilesSorted(bs);
  }

  // ----- freeing -----

  function MergeAt(bs: seq<Block>, lo: nat): seq<Block>
    requires lo + 1 < |bs|
  {
    bs[..lo] + [bs[lo].(size := 2 * bs[lo].size)] + bs[lo + 2..]
  }

  ghost predicate CanMerge(bs: seq<Block>, i: nat)
    requires Tiles(bs) && i < |bs| && bs[i].size <= MAX_SIZE
  {
    && bs[i].size != MAX_SIZE
    && var k := BuddyIndex(bs, i);
       bs[k].state == Free && bs[k].size == bs[i].size
  }

  lemma MergeTiles(bs: seq<Block>, lo: nat)
    requires Tiles(bs) && lo + 1 < |bs| && bs[lo].size == bs[lo + 1].size && bs[lo].off % (2 * bs[lo].size) == 0
    ensures Tiles(MergeAt(bs, lo))
  {
    var r := MergeAt(bs, lo);
    assert BlockOk(bs[lo]) && Adjacent(bs, lo) && Adjacent(bs, lo + 1);
    assert BlockOk(r[lo]) && Adjacent(r, lo) by { assert IsPow2(2 * bs[lo].size); }
    forall j | 0 <= j < |r| ensures BlockOk(r[j]) && Adjacent(r, j) {
      if j < lo {
        assert Adjacent(bs, j) && BlockOk(bs[j]);
      } else if j > lo {
        assert Adjacent(bs, j + 1) && BlockOk(bs[j + 1]);
      }
    }
  }

  lemma MergeCoalesced(bs: seq<Block>, i: nat, lo: nat)
    requires lo + 1 < |bs| && CoalescedBut(bs, i) && (i == lo || i == lo + 1)
    ensures CoalescedBut(MergeAt(bs, lo), lo)
  {
    var r := MergeAt(bs, lo);
    forall a, b | 0 <= a < |r| && 0 <= b < |r| && a != lo && b != lo && r[a].size > 0
      ensures !FreeBuddies(r[a], r[b])
    {
      var a', b' := if a < lo then a else a + 1, if b < lo then b else b + 1;
      assert r[a] == bs[a'] && r[b] == bs[b'];
    }
  }

  /** The position of the block that survives the merge of i with its buddy. */
  ghost function MergeLow(bs: seq<Block>, i: nat): (lo: nat)
    requires Tiles(bs) && i < |bs| && bs[i].size <= MAX_SIZE && CanMerge(bs, i)
    ensures lo + 1 < |bs| && (lo == i || lo + 1 == i) && bs[lo].size == bs[lo + 1].size == bs[i].size
  {
    var k := BuddyIndex(bs, i);
    if k < i then k else i
  }

  lemma MergeKeeps(bs: seq<Block>, i: nat)
    requires Tiles(bs) && CoalescedBut(bs, i) && i < |bs| && bs[i].size <= MAX_SIZE && bs[i].state == Free
    requires CanMerge(bs, i)
    ensures var lo := MergeLow(bs, i);
            && Tiles(MergeAt(bs, lo)) && CoalescedBut(MergeAt(bs, lo), lo)
            && bs[lo].state == Free && bs[lo + 1].state == Free
            && MergeAt(bs, lo)[lo].size <= MAX_SIZE && MergeAt(bs, lo)[lo].state == Free
  {
    var lo := MergeLow(bs, i);
    assert BlockOk(bs[i]) && BlockOk(bs[lo]);
    DoubleStep(bs[i].off, bs[i].size);
    MergeTiles(bs, lo);
    MergeCoalesced(bs, i, lo);
    PoolPow2();
    Pow2Half(bs[i].size, MAX_SIZE);
  }

  ghost function MergeAll(bs: seq<Block>, i: nat): seq<Block>
    requires Tiles(bs) && CoalescedBut(bs, i) && i < |bs| && bs[i].size <= MAX_SIZE && bs[i].state == Free
    decreases |bs|
  {
    if CanMerge(bs, i) then
      MergeKeeps(bs, i);
      var lo := MergeLow(bs, i);
      MergeAll(MergeAt(bs, lo), lo)
    else bs
  }

  /** Where no merge is possible, the block has no free buddy. */
  lemma StuckHasNoBuddy(bs: seq<Block>, i: nat, k: nat)
    requires Tiles(bs) && i < |bs| && k < |bs| && bs[i].size <= MAX_SIZE && bs[i].state == Free && bs[i].size > 0
    requires !CanMerge(bs, i)
    ensures !FreeBuddies(bs[i], bs[k])
  {
    var m := BuddyIndex(bs, i);
    IndexUnique(bs, m);
    IndexUnique(bs, k);
  }

  lemma CoalescedWhenStuck(bs: seq<Block>, i: nat)
    requires Tiles(bs) && CoalescedBut(bs, i) && i < |bs| && bs[i].size <= MAX_SIZE && bs[i].state == Free
    requires !CanMerge(bs, i)
    ensures Coalesced(bs)
  {
    assert BlockOk(bs[i]);
    forall j, k | 0 <= j < |bs| && 0 <= k < |bs| && bs[j].size > 0 ensures !FreeBuddies(bs[j], bs[k]) {
      if j == i {
        StuckHasNoBuddy(bs, i, k);
      } else if k == i {
        StuckHasNoBuddy(bs, i, j);
        assert BlockOk(bs[j]);
        TilesBelowPool(bs, j);
        if FreeBuddies(bs[j], bs[i]) { FreeBuddiesSymmetric(bs[j], bs[i]); }
      }
    }
  }

  lemma MergeUsed(bs: seq<Block>, lo: nat)
    requires lo + 1 < |bs| && bs[lo].state == Free && bs[lo + 1].state == Free
    ensures forall b: Block :: b.state == Used ==> (b in MergeAt(bs, lo) <==> b in bs)
  {
    var r := MergeAt(bs, lo);
    assert bs == bs[..lo] + [bs[lo], bs[lo + 1]] + bs[lo + 2..];
    forall b: Block | b.state == Used ensures b in r <==> b in bs {
      assert b in r <==> b in bs[..lo] || b in bs[lo + 2..];
    }
  }

  /** Coalescing keeps the tiling, restores completeness, and touches no used block. */
  lemma {:induction false} MergeAllKeeps(bs: seq<Block>, i: nat)
    requires Tiles(bs) && CoalescedBut(bs, i) && i < |bs| && bs[i].size <= MAX_SIZE && bs[i].state == Free
    ensures var r := MergeAll(bs, i);
            && Tiles(r) && Coalesced(r)
            && (forall b: Block :: b.state == Used ==> (b in r <==> b in bs))
    decreases |bs|
  {
    if CanMerge(bs, i) {
      MergeKeeps(bs, i);
      var lo := MergeLow(bs, i);
      MergeAllKeeps(MergeAt(bs, lo), lo);
      MergeUsed(bs, lo);
    } else {
      CoalescedWhenStuck(bs, i);
    }
  }
}
