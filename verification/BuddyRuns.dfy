/** Safety of the buddy allocator over every interleaving of claim, split and free steps. */
module BuddyRuns {
  import opened Alignment
  import opened BuddySpec

  datatype Step =
    | Claim(c: Caller, request: nat)   // first critical section of kalloc
    | Split(c: Caller)                 // second critical section of kalloc
    | Release(off: nat)                // kfree of the block whose header is at off

  ghost predicate IsClaimed(h: Heap, off: nat) {
    exists c :: c in h.claims && h.claims[c].off == off
  }

  /** A block some caller owns: granted by kalloc and not yet given back. */
  ghost predicate Live(h: Heap, b: Block) {
    b in h.blocks && b.state == Used && !IsClaimed(h, b.off)
  }

  ghost predicate ClaimsOk(h: Heap) {
    && (forall c :: c in h.claims ==>
          && 64 <= h.claims[c].need <= MAX_SIZE
          && IsHeader(h.blocks, h.claims[c].off)
          && var b := h.blocks[IndexOf(h.blocks, h.claims[c].off)];
             b.state == Used && h.claims[c].need <= b.size)
    && (forall c, d :: c in h.claims && d in h.claims && h.claims[c].off == h.claims[d].off ==> c == d)
  }

  ghost predicate Inv(h: Heap) {
    && Tiles(h.blocks)
    && Coalesced(h.blocks)
    && ClaimsOk(h)
    && (forall b :: Live(h, b) ==> b.size <= MAX_SIZE)
  }

  function Initial(): Heap {
    Heap([Block(0, POOL, Free)], map[])
  }

  lemma InitialInv()
    ensures Inv(Initial())
  {
    PoolPow2();
    assert BlockOk(Initial().blocks[0]) && Adjacent(Initial().blocks, 0);
  }

  ghost predicate Enabled(h: Heap, s: Step) {
    match s
    case Claim(c, request) => c !in h.claims && request <= SIZE_T - 40
    case Split(c) => c in h.claims
    case Release(off) =>
      IsHeader(h.blocks, off) && !IsClaimed(h, off) && h.blocks[IndexOf(h.blocks, off)].state == Used
  }

  /** kalloc gives up before or in its first critical section. */
  predicate Refused(h: Heap, request: nat)
    requires request < SIZE_T
  {
    var need := PaddedNeed(request);
    need > MAX_SIZE || FirstFit(h.blocks, need, 0) == |h.blocks|
  }

  ghost function Next(h: Heap, s: Step): Heap
    requires Inv(h) && Enabled(h, s)
  {
    match s
    case Claim(c, request) =>
      if Refused(h, request) then h
      else
        var need := PaddedNeed(request);
        var i := FirstFit(h.blocks, need, 0);
        Heap(h.blocks[i := h.blocks[i].(state := Used)], h.claims[c := Claimed(h.blocks[i].off, need)])
    case Split(c) =>
      var i := IndexOf(h.blocks, h.claims[c].off);
      Heap(SplitAll(h.blocks, i, h.claims[c].need), h.claims - {c})
    case Release(off) =>
      var i := IndexOf(h.blocks, off);
      ReleaseReady(h, off);
      h.(blocks := MergeAll(h.blocks[i := h.blocks[i].(state := Free)], i))
  }

  lemma RetagTiles(bs: seq<Block>, i: nat, state: BlockState)
    requires Tiles(bs) && i < |bs|
    ensures Tiles(bs[i := bs[i].(state := state)])
  {
    var r := bs[i := bs[i].(state := state)];
    forall k | 0 <= k < |r| ensures BlockOk(r[k]) && Adjacent(r, k) {
      assert BlockOk(bs[k]) && Adjacent(bs, k);
    }
  }

  lemma ReleaseReady(h: Heap, off: nat)
    requires Inv(h) && Enabled(h, Release(off))
    ensures var i := IndexOf(h.blocks, off);
            var r := h.blocks[i := h.blocks[i].(state := Free)];
            Tiles(r) && CoalescedBut(r, i) && r[i].size <= MAX_SIZE
  {
    var i := IndexOf(h.blocks, off);
    RetagTiles(h.blocks, i, Free);
    var r := h.blocks[i := h.blocks[i].(state := Free)];
    assert Live(h, h.blocks[i]);
    forall a, b | 0 <= a < |r| && 0 <= b < |r| && a != i && b != i && r[a].size > 0
      ensures !FreeBuddies(r[a], r[b])
    {
      assert r[a] == h.blocks[a] && r[b] == h.blocks[b];
    }
  }

  /** The blocks of a retagged list, away from the retagged one. */
  lemma RetagOthers(bs: seq<Block>, i: nat, state: BlockState)
    requires Tiles(bs) && i < |bs|
    ensures var r := bs[i := bs[i].(state := state)];
            && (forall b :: b in r && b.off != bs[i].off <==> b in bs && b.off != bs[i].off)
            && (forall b :: b in r && b.off == bs[i].off ==> b == r[i])
            && (forall b :: b in bs && b.off == bs[i].off ==> b == bs[i])
  {
    TilesSorted(bs);
    var r := bs[i := bs[i].(state := state)];
    forall b | b in bs && b.off != bs[i].off ensures b in r {
      var k :| 0 <= k < |bs| && bs[k] == b;
      assert r[k] == b;
    }
  }

  /** The pool is only ever handed out as whole blocks, so a header found by address is a member. */
  lemma HeaderMember(bs: seq<Block>, b: Block)
    requires Tiles(bs) && b in bs
    ensures IsHeader(bs, b.off) && bs[IndexOf(bs, b.off)] == b
  {
    var k :| 0 <= k < |bs| && bs[k] == b;
    IndexUnique(bs, k);
  }

  /** Claims survive any rewrite of the list that keeps the claimed blocks. */
  lemma ClaimsTransfer(h: Heap, r: Heap)
    requires Inv(h) && Tiles(r.blocks)
    requires forall c :: c in r.claims ==> c in h.claims && r.claims[c] == h.claims[c]
    requires forall c :: c in r.claims ==> h.blocks[IndexOf(h.blocks, h.claims[c].off)] in r.blocks
    ensures ClaimsOk(r)
  {
    forall c | c in r.claims
      ensures 64 <= r.claims[c].need <= MAX_SIZE && IsHeader(r.blocks, r.claims[c].off)
      ensures var b := r.blocks[IndexOf(r.blocks, r.claims[c].off)]; b.state == Used && r.claims[c].need <= b.size
    {
      HeaderMember(r.blocks, h.blocks[IndexOf(h.blocks, h.claims[c].off)]);
    }
  }

  lemma RetagUsedCoalesced(bs: seq<Block>, i: nat)
    requires Coalesced(bs) && i < |bs|
    ensures Coalesced(bs[i := bs[i].(state := Used)])
  {
    var r := bs[i := bs[i].(state := Used)];
    forall a, b | 0 <= a < |r| && 0 <= b < |r| && r[a].size > 0
      ensures !FreeBuddies(r[a], r[b])
    {
      assert a != i && b != i ==> !FreeBuddies(bs[a], bs[b]);
    }
  }

  /** Claims at other offsets are unaffected by opening or closing the claim of c. */
  lemma OtherClaims(h: Heap, r: Heap, c: Caller, off: nat)
    requires r.claims - {c} == h.claims - {c}
    requires c in h.claims ==> h.claims[c].off != off
    requires c in r.claims ==> r.claims[c].off != off
    ensures IsClaimed(h, off) <==> IsClaimed(r, off)
  {
    if IsClaimed(h, off) {
      var d :| d in h.claims && h.claims[d].off == off;
      assert d in (h.claims - {c}) && d in r.claims && r.claims[d].off == off;
    }
    if IsClaimed(r, off) {
      var d :| d in r.claims && r.claims[d].off == off;
      assert d in (r.claims - {c}) && d in h.claims && h.claims[d].off == off;
    }
  }

  /** A free block is nobody's claim, and tagging it used keeps the claimed blocks in the list. */
  lemma FreeIsUnclaimed(h: Heap, i: nat, d: Caller)
    requires Inv(h) && i < |h.blocks| && h.blocks[i].state == Free && d in h.claims
    ensures h.claims[d].off != h.blocks[i].off
    ensures h.blocks[IndexOf(h.blocks, h.claims[d].off)] in h.blocks[i := h.blocks[i].(state := Used)]
  {
    IndexUnique(h.blocks, i);
    var j := IndexOf(h.blocks, h.claims[d].off);
    assert h.blocks[i := h.blocks[i].(state := Used)][j] == h.blocks[j];
  }

  lemma AddClaim(h: Heap, c: Caller, i: nat, need: nat)
    requires Tiles(h.blocks) && ClaimsOk(h) && i < |h.blocks| && c !in h.claims && !IsClaimed(h, h.blocks[i].off)
    requires 64 <= need <= MAX_SIZE && h.blocks[i].state == Used && need <= h.blocks[i].size
    ensures ClaimsOk(h.(claims := h.claims[c := Claimed(h.blocks[i].off, need)]))
  {
    IndexUnique(h.blocks, i);
  }

  lemma ClaimClaimsOk(h: Heap, c: Caller, request: nat)
    requires Inv(h) && Enabled(h, Claim(c, request)) && !Refused(h, request)
    ensures Tiles(Next(h, Claim(c, request)).blocks) && ClaimsOk(Next(h, Claim(c, request)))
    ensures !IsClaimed(h, h.blocks[FirstFit(h.blocks, PaddedNeed(request), 0)].off)
  {
    var need := PaddedNeed(request);
    var i := FirstFit(h.blocks, need, 0);
    PaddedNeedExact(request);
    RetagTiles(h.blocks, i, Used);
    forall d | d in h.claims
      ensures h.claims[d].off != h.blocks[i].off
      ensures h.blocks[IndexOf(h.blocks, h.claims[d].off)] in h.blocks[i := h.blocks[i].(state := Used)]
    {
      FreeIsUnclaimed(h, i, d);
    }
    var m := Heap(h.blocks[i := h.blocks[i].(state := Used)], h.claims);
    ClaimsTransfer(h, m);
    AddClaim(m, c, i, need);
  }

  /** A claim takes one free block out of circulation and makes nothing live. */
  lemma ClaimKeeps(h: Heap, c: Caller, request: nat)
    requires Inv(h) && Enabled(h, Claim(c, request)) && !Refused(h, request)
    ensures Inv(Next(h, Claim(c, request)))
    ensures forall b :: Live(Next(h, Claim(c, request)), b) <==> Live(h, b)
  {
    var r := Next(h, Claim(c, request));
    ClaimClaimsOk(h, c, request);
    RetagUsedCoalesced(h.blocks, FirstFit(h.blocks, PaddedNeed(request), 0));
    forall b ensures Live(r, b) <==> Live(h, b) {
      ClaimLive(h, c, request, b);
    }
  }

  lemma ClaimLive(h: Heap, c: Caller, request: nat, b: Block)
    requires Inv(h) && Enabled(h, Claim(c, request)) && !Refused(h, request)
    ensures Live(Next(h, Claim(c, request)), b) <==> Live(h, b)
  {
    var r := Next(h, Claim(c, request));
    var i := FirstFit(h.blocks, PaddedNeed(request), 0);
    RetagOthers(h.blocks, i, Used);
    if b.off == h.blocks[i].off {
      assert r.claims[c].off == b.off;
      assert b in h.blocks ==> b == h.blocks[i];
    } else {
      OtherClaims(h, r, c, b.off);
    }
  }

  /** The list after the split of claim c, and the block it grants. */
  lemma SplitList(h: Heap, c: Caller) returns (granted: Block)
    requires Inv(h) && Enabled(h, Split(c))
    ensures var r := Next(h, Split(c));
            && Tiles(r.blocks) && Coalesced(r.blocks) && BlockOk(granted) && granted.state == Used
            && granted.off == h.claims[c].off && h.claims[c].need <= granted.size < 2 * h.claims[c].need
            && (forall b: Block :: b in r.blocks && b.state == Used <==>
                  b == granted || (b in h.blocks && b.state == Used && b.off != granted.off))
            && (forall b: Block :: b in h.blocks && b.off != granted.off ==> b in r.blocks)
  {
    var i := IndexOf(h.blocks, h.claims[c].off);
    SplitKeeps(h.blocks, i, h.claims[c].need);
    var r := Next(h, Split(c)).blocks;
    granted := r[i];
    assert BlockOk(r[i]);
    OthersSplit(h.blocks, i);
  }

  /** The split of a claim makes exactly one block live: it starts where the claim did, is large enough,
      and is less than twice the padded need. */
  lemma SplitStepKeeps(h: Heap, c: Caller) returns (granted: Block)
    requires Inv(h) && Enabled(h, Split(c))
    ensures Inv(Next(h, Split(c)))
    ensures granted.off == h.claims[c].off && h.claims[c].need <= granted.size < 2 * h.claims[c].need
    ensures !Live(h, granted)
    ensures forall b :: Live(Next(h, Split(c)), b) <==> Live(h, b) || b == granted
  {
    var r := Next(h, Split(c));
    granted := SplitList(h, c);
    var off := granted.off;
    SplitClaims(h, c, granted);
    assert IsClaimed(h, off);
    forall b ensures Live(r, b) <==> Live(h, b) || b == granted {
      if b.off != off { OtherClaims(h, r, c, b.off); }
    }
    GrantedSmall(h, c, granted);
  }

  lemma SplitClaims(h: Heap, c: Caller, granted: Block)
    requires Inv(h) && Enabled(h, Split(c)) && Tiles(Next(h, Split(c)).blocks) && granted.off == h.claims[c].off
    requires forall b: Block :: b in h.blocks && b.off != granted.off ==> b in Next(h, Split(c)).blocks
    ensures ClaimsOk(Next(h, Split(c))) && !IsClaimed(Next(h, Split(c)), granted.off)
  {
    var r := Next(h, Split(c));
    forall d | d in r.claims
      ensures r.claims[d] == h.claims[d] && h.claims[d].off != granted.off
      ensures h.blocks[IndexOf(h.blocks, h.claims[d].off)] in r.blocks
    {
      assert h.blocks[IndexOf(h.blocks, h.claims[d].off)] in h.blocks;
    }
    ClaimsTransfer(h, r);
  }

  lemma GrantedSmall(h: Heap, c: Caller, granted: Block)
    requires Inv(h) && c in h.claims && h.claims[c].need <= granted.size < 2 * h.claims[c].need && BlockOk(granted)
    ensures granted.size <= MAX_SIZE
  {
    PoolPow2();
    if MAX_SIZE < granted.size { Pow2Half(MAX_SIZE, granted.size); }
  }

  /** A release ends the life of exactly the block given back. */
  lemma ReleaseKeeps(h: Heap, off: nat)
    requires Inv(h) && Enabled(h, Release(off))
    ensures Inv(Next(h, Release(off)))
    ensures forall b :: Live(Next(h, Release(off)), b) <==> Live(h, b) && b.off != off
  {
    var r := Next(h, Release(off));
    var i := IndexOf(h.blocks, off);
    ReleaseReady(h, off);
    var m := h.blocks[i := h.blocks[i].(state := Free)];
    MergeAllKeeps(m, i);
    RetagOthers(h.blocks, i, Free);
    forall b: Block | b.state == Used
      ensures b in r.blocks <==> b in h.blocks && b.off != off
    {
    }
    forall d | d in r.claims
      ensures h.blocks[IndexOf(h.blocks, h.claims[d].off)] in r.blocks
    {
      assert h.blocks[IndexOf(h.blocks, h.claims[d].off)] in h.blocks;
      assert h.claims[d].off != off by { assert !IsClaimed(h, off); }
    }
    ClaimsTransfer(h, r);
    forall b ensures Live(r, b) <==> Live(h, b) && b.off != off {
      assert IsClaimed(r, b.off) <==> IsClaimed(h, b.off);
    }
  }

  /** Every step keeps the invariant. */
  lemma StepKeepsInv(h: Heap, s: Step)
    requires Inv(h) && Enabled(h, s)
    ensures Inv(Next(h, s))
  {
    match s
    case Claim(c, request) => if !Refused(h, request) { ClaimKeeps(h, c, request); }
    case Split(c) => var _ := SplitStepKeeps(h, c);
    case Release(off) => ReleaseKeeps(h, off);
  }

  // ----- runs -----

  ghost predicate IsRun(h: Heap, steps: seq<Step>, last: Heap)
    decreases |steps|
  {
    if steps == [] then h == last
    else Inv(h) && Enabled(h, steps[0]) && IsRun(Next(h, steps[0]), steps[1..], last)
  }

  ghost predicate Reachable(h: Heap) {
    exists steps :: IsRun(Initial(), steps, h)
  }

  lemma {:induction false} RunKeepsInv(h: Heap, steps: seq<Step>, last: Heap)
    requires Inv(h) && IsRun(h, steps, last)
    ensures Inv(last)
    decreases |steps|
  {
    if steps != [] {
      StepKeepsInv(h, steps[0]);
      RunKeepsInv(Next(h, steps[0]), steps[1..], last);
    }
  }

  /** In every reachable heap the list tiles the pool and no two equal free buddies below the maximal
      size stand unmerged; the window between a claim and its split is included. */
  lemma ReachableInv(h: Heap)
    requires Reachable(h)
    ensures Inv(h)
  {
    InitialInv();
    var steps :| IsRun(Initial(), steps, h);
    RunKeepsInv(Initial(), steps, h);
  }

  /** Two live blocks never overlap. */
  lemma LiveDisjoint(h: Heap, a: Block, b: Block)
    requires Reachable(h) && Live(h, a) && Live(h, b) && a != b
    ensures a.End() <= b.off || b.End() <= a.off
  {
    ReachableInv(h);
    TilesSorted(h.blocks);
  }

  /** kalloc is refused exactly when the padded request is above the maximal block or no free block holds it. */
  lemma RefusedExactly(h: Heap, request: nat)
    requires Reachable(h) && request <= SIZE_T - 40
    ensures Refused(h, request) <==>
              PaddedNeed(request) > MAX_SIZE || forall b :: b in h.blocks && b.state == Free ==> b.size < PaddedNeed(request)
  {
    var need := PaddedNeed(request);
    var k := FirstFit(h.blocks, need, 0);
    if k == |h.blocks| {
      forall b | b in h.blocks && b.state == Free ensures b.size < need {
        var j :| 0 <= j < |h.blocks| && h.blocks[j] == b;
        assert !Fits(h.blocks[j], need);
      }
    } else {
      assert h.blocks[k] in h.blocks;
    }
  }

  /** Once every grant is given back and no claim is open, every block is free and at least maximal. */
  lemma AllReleased(h: Heap)
    requires Reachable(h) && h.claims == map[] && forall b :: b in h.blocks ==> !Live(h, b)
    ensures forall b :: b in h.blocks ==> b.state == Free && b.size >= MAX_SIZE
  {
    ReachableInv(h);
    forall b | b in h.blocks ensures b.state == Free {
      assert !Live(h, b) && !IsClaimed(h, b.off);
    }
    forall b | b in h.blocks ensures b.size >= MAX_SIZE {
      var k :| 0 <= k < |h.blocks| && h.blocks[k] == b;
      NoSmallFree(h.blocks, k);
    }
  }

  /** In a coalesced list without used blocks no block is below the maximal size: the buddy of a smallest
      one would be free and of the same size. */
  lemma {:induction false} NoSmallFree(bs: seq<Block>, k: nat)
    requires Tiles(bs) && Coalesced(bs) && k < |bs| && forall b :: b in bs ==> b.state == Free
    ensures bs[k].size >= MAX_SIZE
    decreases bs[k].size
  {
    if bs[k].size < MAX_SIZE {
      assert BlockOk(bs[k]);
      var j := BuddyIndex(bs, k);
      assert bs[j] in bs && bs[k] in bs;
      assert !FreeBuddies(bs[k], bs[j]);
      NoSmallFree(bs, j);
    }
  }

  // ----- conservation -----

  /** Bytes of the blocks in the given state; for Used this is what kalloc_get_used reports. */
  function Bytes(bs: seq<Block>, state: BlockState): nat
    decreases |bs|
  {
    if bs == [] then 0
    else (if bs[|bs| - 1].state == state then bs[|bs| - 1].size else 0) + Bytes(bs[..|bs| - 1], state)
  }

  lemma {:induction false} BytesUpTo(bs: seq<Block>, n: nat)
    requires Tiles(bs) && n <= |bs|
    ensures Bytes(bs[..n], Free) + Bytes(bs[..n], Used) == if n == 0 then 0 else bs[n - 1].End()
    decreases n
  {
    if n > 0 {
      BytesUpTo(bs, n - 1);
      assert bs[..n][..n - 1] == bs[..n - 1];
      if n > 1 { assert Adjacent(bs, n - 2); }
    }
  }

  /** Used plus free bytes is the pool, in every reachable heap. */
  lemma UsedPlusFree(h: Heap)
    requires Reachable(h)
    ensures Bytes(h.blocks, Free) + Bytes(h.blocks, Used) == POOL
  {
    ReachableInv(h);
    var bs := h.blocks;
    BytesUpTo(bs, |bs|);
    assert bs[..|bs|] == bs;
    assert Adjacent(bs, |bs| - 1);
  }
}
