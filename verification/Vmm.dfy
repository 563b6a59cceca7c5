/** Mapping, looking up and unmapping pages, on the kernel's directory and the partitions': boot, the copies of the
    kernel's directory, and the page-table operations over the frame lists. */
module Vmm {
  import opened Common
  import opened PageTree
  import opened FrameLists
  import opened Directories
  import opened Mappings

  // ----- what an operation changes -----

  /** All directories: those that share the root entry of va see its page at e, all other pages are as before. */
  ghost predicate Updated(m: Mem, n: Mem, d: Dirs, root: Ppn, va: nat, e: Option<Pte>)
    requires root in d.roots && forall r :: r in d.roots ==> IsPage(m, r)
  {
    forall o, vb :: o in d.roots ==>
      Flat(n, o, vb) == if Reaches(m, root, o, va) && SameIndex(va, vb, 2, 0) then e else Flat(m, o, vb)
  }

  lemma FollowsUpdated(m: Mem, n: Mem, d: Dirs, root: Ppn, va: nat, e: Pte)
    requires root in d.roots && (forall r :: r in d.roots ==> IsPage(m, r)) && Follows(m, n, d, root, va, e)
    ensures Updated(m, n, d, root, va, if e.perm.v then Some(e) else None)
  {
  }

  /** Directories that share the root entry have the same entry for the page. */
  lemma ReachEntry(m: Mem, root: Ppn, o: Ppn, va: nat, vb: nat)
    requires IsPage(m, root) && IsPage(m, o) && Reaches(m, root, o, va) && SameIndex(va, vb, 2, 0)
    ensures Entry(m, 2, o, vb) == Entry(m, 2, root, va)
  {
    SameEntry(m, 2, root, va, vb);
  }

  lemma AlreadyUnmapped(m: Mem, d: Dirs, root: Ppn, va: nat)
    requires root in d.roots && (forall r :: r in d.roots ==> IsPage(m, r)) && Flat(m, root, va).None?
    ensures Updated(m, m, d, root, va, None)
  {
    forall o, vb | o in d.roots ensures Flat(m, o, vb) == if Reaches(m, root, o, va) && SameIndex(va, vb, 2, 0) then None else Flat(m, o, vb) {
      if Reaches(m, root, o, va) && SameIndex(va, vb, 2, 0) { ReachEntry(m, root, o, va, vb); }
    }
  }

  lemma UpdatedTwice(m: Mem, n: Mem, r: Mem, d: Dirs, root: Ppn, va: nat, e: Option<Pte>)
    requires root in d.roots && forall x :: x in d.roots ==> IsPage(m, x) && IsPage(n, x)
    requires Updated(m, n, d, root, va, None) && Updated(n, r, d, root, va, e) && ReachSame(m, n, d, root, va)
    ensures Updated(m, r, d, root, va, e)
  {
  }

  lemma FlatHere(m: Mem, n: Mem, d: Dirs, root: Ppn, va: nat, e: Option<Pte>)
    requires root in d.roots && (forall r :: r in d.roots ==> IsPage(m, r)) && Updated(m, n, d, root, va, e)
    ensures Flat(n, root, va) == e
  {
    SamePageOf(va, va);
  }

  /** The walk with creation maps nothing, and touches no frame that is in use. */
  ghost predicate Grows(m: Mem, refs: map<Ppn, nat>, n: Mem, after: map<Ppn, nat>, d: Dirs, root: Ppn, va: nat) {
    && root in d.roots && (forall r :: r in d.roots ==> IsPage(m, r) && IsPage(n, r))
    && SameBalance(m, refs, n, after, d) && ReachSame(m, n, d, root, va)
    && (forall o, vb :: o in d.roots ==> Entry(n, 2, o, vb) == Entry(m, 2, o, vb))
    && (forall f :: f in refs && refs[f] > 0 ==> after[f] == refs[f])
  }

  lemma GrowsTwice(m: Mem, refs: map<Ppn, nat>, n: Mem, mid: map<Ppn, nat>, r: Mem, after: map<Ppn, nat>, d: Dirs, root: Ppn, va: nat)
    requires Grows(m, refs, n, mid, d, root, va) && Grows(n, mid, r, after, d, root, va)
    ensures Grows(m, refs, r, after, d, root, va)
  {
  }

  lemma BalanceTwice(m: Mem, refs: map<Ppn, nat>, n: Mem, mid: map<Ppn, nat>, r: Mem, after: map<Ppn, nat>, d: Dirs)
    requires SameBalance(m, refs, n, mid, d) && SameBalance(n, mid, r, after, d)
    ensures SameBalance(m, refs, r, after, d)
  {
    forall f | f in refs ensures Balance(r, after, d, f) == Balance(m, refs, d, f) {
      assert Balance(n, mid, d, f) == Balance(m, refs, d, f);
    }
  }

  lemma GrowsThenUpdated(m: Mem, refs: map<Ppn, nat>, n: Mem, mid: map<Ppn, nat>, r: Mem, after: map<Ppn, nat>,
                         d: Dirs, root: Ppn, va: nat, e: Option<Pte>)
    requires Grows(m, refs, n, mid, d, root, va) && Updated(n, r, d, root, va, e) && SameBalance(n, mid, r, after, d)
    ensures Updated(m, r, d, root, va, e) && SameBalance(m, refs, r, after, d)
  {
    BalanceTwice(m, refs, n, mid, r, after, d);
  }

  lemma OwnedStays(m: Mem, n: Mem, d: Dirs, root: Ppn, va: nat)
    requires root in d.roots && (forall r :: r in d.roots ==> IsPage(m, r) && IsPage(n, r))
    requires ReachSame(m, n, d, root, va) && Owned(m, d, root, va)
    ensures Owned(n, d, root, va)
  {
  }

  /** A table without a reference is not counted. */
  lemma Dangling(m: Mem, refs: map<Ppn, nat>, d: Dirs, t: Ppn)
    requires t in refs && refs[t] == 0 && IsTable(m, d, t)
    ensures !Counted(m, refs, d)
  {
    assert Balance(m, refs, d, t) < 0;
  }

  /** The page of va is mapped to p, and that is the only reference to p. */
  predicate SoleRemap(m: Mem, refs: map<Ppn, nat>, root: Ppn, va: nat, p: Ppn) {
    p in refs && refs[p] == 1 && Flat(m, root, va).Some? && Flat(m, root, va).value.ppn == p
  }

  /** The frame mapped anew is still owned unless the release of the old one freed it. */
  lemma SoleExactly(refs: map<Ppn, nat>, held: set<Ppn>, f: Ppn, p: Ppn, mid: map<Ppn, nat>)
    requires mid == Released(refs, f) && (f in refs ==> refs[f] > 0) && (forall g :: g in held ==> g in refs && refs[g] == 0)
    requires p in refs ==> p in held || refs[p] > 0
    ensures (p in mid ==> mid[p] > 0 || p in held) <==> !(p in refs && refs[p] == 1 && f == p)
  {
  }

  // ----- what other pages see -----

  /** Nothing outside the tables below root changed. */
  ghost predicate Inside(m: Mem, n: Mem, root: Ppn) {
    && (forall q :: q in m && q !in Tables(m, 2, root) ==> q in n && n[q] == m[q])
    && Tables(n, 2, root) <= Tables(m, 2, root)
  }

  /** Nothing changed but the tables below root and frames that were free. */
  ghost predicate Confined(m: Mem, free: seq<seq<Ppn>>, n: Mem, root: Ppn) {
    && (forall q :: q in m && q !in Tables(m, 2, root) && !Free(free, q) ==> q in n && n[q] == m[q])
    && (forall q :: q in Tables(n, 2, root) ==> q in Tables(m, 2, root) || Free(free, q))
  }

  lemma AttachConfined(m: Mem, free: seq<seq<Ppn>>, root: Ppn, va: nat, stop: nat, t: Ppn)
    requires Tree(m, 2, root) && Missing(m, root, va, stop) && t !in Tables(m, 2, root) && Free(free, t)
    ensures Confined(m, free, Attached(m, root, va, stop, t), root)
  {
    var n := Attached(m, root, va, stop, t);
    AttachIs(m, root, va, stop, t);
    WriteAt(m, n, 2, root, va, stop, Pointer(t), {t}, 0, 0);
    TableAtIn(m, 2, root, va, stop);
  }

  lemma ConfinedTwice(m: Mem, free: seq<seq<Ppn>>, n: Mem, less: seq<seq<Ppn>>, r: Mem, root: Ppn)
    requires Confined(m, free, n, root) && Confined(n, less, r, root) && forall g :: Free(less, g) ==> Free(free, g)
    ensures Confined(m, free, r, root)
  {
  }

  lemma WalkedOn(m: Mem, refs: map<Ppn, nat>, free: seq<seq<Ppn>>, n: Mem, mid: map<Ppn, nat>, less: seq<seq<Ppn>>,
                 r: Mem, after: map<Ppn, nat>, d: Dirs, root: Ppn, va: nat)
    requires Grows(m, refs, n, mid, d, root, va) && Grows(n, mid, r, after, d, root, va)
    requires Confined(m, free, n, root) && Confined(n, less, r, root) && forall g :: Free(less, g) ==> Free(free, g)
    ensures Grows(m, refs, r, after, d, root, va) && Confined(m, free, r, root)
  {
    GrowsTwice(m, refs, n, mid, r, after, d, root, va);
    ConfinedTwice(m, free, n, less, r, root);
  }

  lemma ConfinedInside(m: Mem, free: seq<seq<Ppn>>, n: Mem, r: Mem, root: Ppn)
    requires Confined(m, free, n, root) && Inside(n, r, root)
    ensures Confined(m, free, r, root)
  {
  }

  lemma LeafInside(m: Mem, root: Ppn, va: nat, e: Pte)
    requires Tree(m, 2, root) && TableAt(m, 2, root, va, 0).Some?
    ensures Inside(m, LeafSet(m, root, va, e), root)
  {
    LeafWrites(m, root, va, e);
    TableAtIn(m, 2, root, va, 0);
  }

  lemma FreeShrinks(rs: seq<Range>, refs: map<Ppn, nat>, free: seq<seq<Ppn>>, held: set<Ppn>, after: map<Ppn, nat>, less: seq<seq<Ppn>>)
    requires Exact(rs, refs, free, held) && Exact(rs, after, less, held)
    requires forall f :: f in after && after[f] == 0 ==> f in refs && refs[f] == 0
    ensures forall g :: Free(less, g) ==> Free(free, g)
  {
    forall g | Free(less, g) ensures Free(free, g) {
      FreeExactly(rs, after, less, held, g);
      FreeExactly(rs, refs, free, held, g);
    }
  }

  /** Writing a leaf does not change where the walk ends. */
  lemma LeafReaches(m: Mem, root: Ppn, va: nat, e: Pte)
    requires Tree(m, 2, root) && TableAt(m, 2, root, va, 0).Some?
    ensures TableAt(LeafSet(m, root, va, e), 2, root, va, 0) == TableAt(m, 2, root, va, 0)
  {
    var n := LeafSet(m, root, va, e);
    TableAtIn(m, 2, root, va, 0);
    ChildTree(m, 2, m[root], Vpn(va, 2));
    var mid := m[root][Vpn(va, 2)].ppn;
    TableAtIn(m, 1, mid, va, 0);
    assert n[root] == m[root] && n[mid] == m[mid];
    TableAtLast(m, root, va, mid);
    assert TableAt(n, 1, mid, va, 0) == TableAt(m, 1, mid, va, 0);
  }

  lemma LeafSetIs(m: Mem, root: Ppn, va: nat, q: Ppn, e: Pte)
    requires Tree(m, 2, root) && TableAt(m, 2, root, va, 0) == Some(q)
    ensures q in m && |m[q]| == ENTRIES && LeafSet(m, root, va, e) == m[q := m[q][Vpn(va, 0) := e]]
  {
    TableAtIn(m, 2, root, va, 0);
  }

  lemma TableAtLast(m: Mem, root: Ppn, va: nat, mid: Ppn)
    requires Tree(m, 2, root) && TableAt(m, 2, root, va, 1) == Some(mid) && mid in m && |m[mid]| == ENTRIES
    ensures TableAt(m, 2, root, va, 0) == if m[mid][Vpn(va, 1)].perm.v then Some(m[mid][Vpn(va, 1)].ppn) else None
  {
    assert TableAt(m, 1, m[root][Vpn(va, 2)].ppn, va, 0) == if m[mid][Vpn(va, 1)].perm.v then Some(m[mid][Vpn(va, 1)].ppn) else None;
  }

  // ----- the state pmm_init leaves -----

  /** The kernel's directory as it is built at boot: its tables are pages handed out by palloc, from low up to top. */
  ghost predicate BootTree(m: Mem, kern: Ppn, low: Ppn, top: Ppn) {
    && Tree(m, 2, kern) && low <= kern < top
    && forall t :: t in TablesOf(m, 2, m[kern]) ==> low <= t < top
  }

  /** The pages mapped at boot, none of which is counted. */
  ghost function Mapped(m: Mem, kern: Ppn): set<(Ppn, nat)> {
    set pg | 0 <= pg < PAGES && At(m, kern, pg).perm.v :: (kern, pg)
  }

  /** When pmm_init has given one reference to each page in use, the tables have theirs and no page is counted. */
  lemma BootCounted(m: Mem, refs: map<Ppn, nat>, kern: Ppn, low: Ppn, top: Ppn)
    requires BootTree(m, kern, low, top) && InUse(refs, low, top)
    ensures var d := Dirs({kern}, Mapped(m, kern)); Forest(m, d) && CountedOnce(m, d) && Counted(m, refs, d)
  {
    var d := Dirs({kern}, Mapped(m, kern));
    forall f ensures Count(m, d, f) == 0 {
      assert PagesAt(m, d, f) == {};
    }
    forall f | f in refs ensures Balance(m, refs, d, f) >= 0 {
      if IsTable(m, d, f) { assert IsBelow(m, kern, f); }
    }
  }

  /** At the end of boot the pages counted from then on are those that boot has not mapped. */
  lemma BootOwned(m: Mem, kern: Ppn, va: nat)
    requires Tree(m, 2, kern)
    ensures Owned(m, Dirs({kern}, Mapped(m, kern)), kern, va) <==> Flat(m, kern, va).None?
  {
    AtAddr(m, kern, va);
  }

  /** In the copy of the kernel's directory the pages counted are those counted behind the root entry copied, and all
      pages behind root entries the kernel does not use. */
  lemma CopyOwned(m: Mem, d: Dirs, kern: Ppn, p: Ppn, va: nat)
    requires Forest(m, d) && kern in d.roots && p !in d.roots && Known(d) && forall r :: r in d.roots ==> IsPage(m[p := m[kern]], r)
    ensures Owned(m[p := m[kern]], Joined(m, d, kern, p), p, va) <==> !m[kern][Vpn(va, 2)].perm.v || Owned(m, d, kern, va)
  {
    var n, e := m[p := m[kern]], Joined(m, d, kern, p);
    SlotIs(va);
    if !m[kern][Vpn(va, 2)].perm.v {
      assert p in e.roots && Reaches(n, p, p, va) && (p, PageOf(va)) !in e.uncounted;
    } else {
      assert (p, PageOf(va)) in e.uncounted;
      forall w | w in d.roots ensures Reaches(n, p, w, va) == Reaches(m, kern, w, va) && ((w, PageOf(va)) in e.uncounted <==> (w, PageOf(va)) in d.uncounted) {
      }
    }
  }

  /** The page tables before pmm_init: palloc hands out zeroed pages, references are not counted. */
  class Boot {
    const kern: Ppn
    const low: Ppn
    var mem: Mem
    var top: Ppn

    ghost predicate Valid()
      reads this
    {
      BootTree(mem, kern, low, top)
    }

    /** kern_pgdir is a zeroed page of the kernel image, which ends at top. */
    constructor (kern: Ppn, low: Ppn, top: Ppn)
      requires low <= kern < top
      ensures Valid() && this.kern == kern && this.low == low && this.top == top && forall va :: Flat(mem, kern, va) == None
    {
      this.kern, this.low, this.top := kern, low, top;
      this.mem := map[kern := ZeroPage()];
      new;
      ZeroTable(mem, 2, kern, 0);
      ZeroEntries(mem, 2, mem[kern], 0);
    }

    /** The table that the walk misses at level stop, from palloc. */
    method AddTable(va: nat, stop: nat, q: Ppn) returns (t: Ppn)
      requires Valid() && Missing(mem, kern, va, stop) && TableAt(mem, 2, kern, va, stop) == Some(q)
      modifies this
      ensures Valid() && top == old(top) + 1 && TableAt(mem, 2, kern, va, stop - 1) == Some(t)
      ensures forall vb :: Entry(mem, 2, kern, vb) == Entry(old(mem), 2, kern, vb)
    {
      ghost var m := mem;
      t := top;
      TableAtIn(m, 2, kern, va, stop);
      BootAttach(m, kern, low, top, va, stop);
      mem := mem[t := ZeroPage()];
      mem := mem[q := mem[q][Vpn(va, stop) := Pointer(t)]];
      assert mem == Attached(m, kern, va, stop, t);
      top := top + 1;
    }

    /** The walk with creation. */
    method PtWalk(va: nat) returns (table: Ppn)
      requires Valid()
      modifies this
      ensures Valid() && top >= old(top) && TableAt(mem, 2, kern, va, 0) == Some(table)
      ensures forall vb :: Entry(mem, 2, kern, vb) == Entry(old(mem), 2, kern, vb)
    {
      var mid;
      if mem[kern][Vpn(va, 2)].perm.v {
        mid := mem[kern][Vpn(va, 2)].ppn;
      } else {
        mid := AddTable(va, 2, kern);
      }
      TableAtIn(mem, 2, kern, va, 1);
      TableAtLast(mem, kern, va, mid);
      if mem[mid][Vpn(va, 1)].perm.v {
        table := mem[mid][Vpn(va, 1)].ppn;
      } else {
        table := AddTable(va, 1, mid);
      }
    }

    /** pt_map at boot: an old mapping of the page is overwritten. */
    method PtMap(va: nat, p: Ppn, perm: Perm)
      requires Valid()
      modifies this
      ensures Valid() && top >= old(top)
      ensures forall vb :: Flat(mem, kern, vb) == if SameIndex(va, vb, 2, 0) then Some(Leaf(p, perm)) else Flat(old(mem), kern, vb)
    {
      var table := PtWalk(va);
      LeafWrites(mem, kern, va, Leaf(p, perm));
      BootLeaf(mem, kern, low, top, va, Leaf(p, perm));
      LeafSetIs(mem, kern, va, table, Leaf(p, perm));
      mem := mem[table := mem[table][Vpn(va, 0) := Leaf(p, perm)]];
    }
  }

  lemma BootAttach(m: Mem, kern: Ppn, low: Ppn, top: Ppn, va: nat, stop: nat)
    requires BootTree(m, kern, low, top) && Missing(m, kern, va, stop)
    ensures var n := Attached(m, kern, va, stop, top);
            && BootTree(n, kern, low, top + 1) && TableAt(n, 2, kern, va, stop - 1) == Some(top)
            && forall vb :: Entry(n, 2, kern, vb) == Entry(m, 2, kern, vb)
  {
    var n := Attached(m, kern, va, stop, top);
    AttachIs(m, kern, va, stop, top);
    AttachReaches(m, kern, va, stop, top);
    WriteAt(m, n, 2, kern, va, stop, Pointer(top), {top}, 0, 0);
    forall vb ensures Entry(n, 2, kern, vb) == Entry(m, 2, kern, vb) {
      AttachEntry(m, n, kern, va, stop, top, vb);
    }
  }

  lemma BootLeaf(m: Mem, kern: Ppn, low: Ppn, top: Ppn, va: nat, e: Pte)
    requires BootTree(m, kern, low, top) && TableAt(m, 2, kern, va, 0).Some?
    ensures BootTree(LeafSet(m, kern, va, e), kern, low, top)
  {
    LeafWrites(m, kern, va, e);
  }

  // ----- the operations -----

  class Vmm {
    const pmm: Pmm
    const kern: Ppn
    var mem: Mem
    ghost var dirs: Dirs

    /** The end of vmm_setup_kern: pmm_init has reserved what boot used, and counting begins. */
    constructor (boot: Boot, pmm: Pmm, ghost high: Ppn)
      requires boot.Valid() && boot.top <= high && pmm.Valid() && pmm.held == {} && InUse(pmm.refs, boot.low, high)
      ensures this.pmm == pmm && kern == boot.kern && mem == boot.mem && Fit()
      ensures dirs == Dirs({kern}, Mapped(mem, kern))
    {
      this.pmm, this.kern, this.mem := pmm, boot.kern, boot.mem;
      this.dirs := Dirs({boot.kern}, Mapped(boot.mem, boot.kern));
      new;
      BootCounted(mem, pmm.refs, kern, boot.low, high);
      FreeExactly(pmm.ranges, pmm.refs, pmm.free, pmm.held, kern);
    }

    /** The directories are trees that share tables, every table and counted page has its reference, the free lists
        are exact, and no directory is free. */
    ghost predicate Fit()
      reads this, pmm
    {
      pmm.Valid() && Sound(mem, pmm.refs, pmm.free, dirs, kern)
    }

    /** pt_phy_frame_alloc: a zeroed frame with one reference. */
    method AllocTable() returns (t: Option<Ppn>)
      requires pmm.Valid()
      modifies this`mem, pmm`refs, pmm`free, pmm`held
      ensures pmm.Valid() && pmm.held == old(pmm.held)
      ensures t.None? <==> NothingFree(old(pmm.free))
      ensures t.None? ==> mem == old(mem) && pmm.refs == old(pmm.refs) && pmm.free == old(pmm.free)
      ensures t.Some? ==> Free(old(pmm.free), t.value) && t.value in old(pmm.refs) && old(pmm.refs)[t.value] == 0
                          && mem == old(mem)[t.value := ZeroPage()] && pmm.refs == old(pmm.refs)[t.value := 1]
    {
      t := pmm.AllocRef();
      if t.Some? {
        mem := mem[t.value := ZeroPage()];
      }
    }

    /** The walk without creation: the last-level table for va, if the walk gets there. */
    method Walk(root: Ppn, va: nat) returns (table: Option<Ppn>)
      requires Tree(mem, 2, root)
      ensures table == TableAt(mem, 2, root, va, 0)
    {
      var e := mem[root][Vpn(va, 2)];
      if !e.perm.v { return None; }
      ChildTree(mem, 2, mem[root], Vpn(va, 2));
      e := mem[e.ppn][Vpn(va, 1)];
      if !e.perm.v { return None; }
      assert TableAt(mem, 1, mem[root][Vpn(va, 2)].ppn, va, 0) == Some(e.ppn);
      return Some(e.ppn);
    }

    method PtLookup(root: Ppn, va: nat) returns (e: Option<Pte>)
      requires Tree(mem, 2, root)
      ensures e == Flat(mem, root, va)
    {
      var q := Walk(root, va);
      LeafEntry(mem, 2, root, va);
      if q.None? || !mem[q.value][Vpn(va, 0)].perm.v { return None; }
      return Some(mem[q.value][Vpn(va, 0)]);
    }

    /** Allocating a table, and linking it at entry i of page q. */
    method LinkTable(q: Ppn, i: nat) returns (t: Option<Ppn>)
      requires pmm.Valid() && IsPage(mem, q) && i < ENTRIES
      modifies this`mem, pmm`refs, pmm`free, pmm`held
      ensures pmm.Valid() && pmm.held == old(pmm.held)
      ensures t.None? <==> NothingFree(old(pmm.free))
      ensures t.None? ==> mem == old(mem) && pmm.refs == old(pmm.refs) && pmm.free == old(pmm.free)
      ensures t.Some? ==> Free(old(pmm.free), t.value) && t.value in old(pmm.refs) && old(pmm.refs)[t.value] == 0
                          && mem == Linked(old(mem), q, i, t.value) && pmm.refs == old(pmm.refs)[t.value := 1]
      ensures forall g :: Free(pmm.free, g) ==> Free(old(pmm.free), g)
    {
      ghost var refs, free := pmm.refs, pmm.free;
      t := AllocTable();
      FreeShrinks(pmm.ranges, refs, free, pmm.held, pmm.refs, pmm.free);
      if t.Some? {
        mem := mem[q := mem[q][i := Pointer(t.value)]];
      }
    }

    /** Adding the table that the walk for va misses at level stop, and what it means for all directories. */
    method AddTable(root: Ppn, va: nat, stop: nat, q: Ppn) returns (t: Option<Ppn>)
      requires Fit() && root in dirs.roots && Missing(mem, root, va, stop) && TableAt(mem, 2, root, va, stop) == Some(q)
      modifies this`mem, pmm`refs, pmm`free, pmm`held
      ensures Fit() && pmm.held == old(pmm.held)
      ensures t.None? <==> NothingFree(old(pmm.free))
      ensures t.None? ==> mem == old(mem) && pmm.refs == old(pmm.refs) && pmm.free == old(pmm.free)
      ensures t.Some? ==> Added(old(mem), old(pmm.refs), old(pmm.free), mem, pmm.refs, dirs, root, va, stop, t.value)
      ensures forall g :: Free(pmm.free, g) ==> Free(old(pmm.free), g)
    {
      ghost var m, refs, free := mem, pmm.refs, pmm.free;
      t := LinkTable(q, Vpn(va, stop));
      if t.Some? { AddedKeeps(m, refs, free, dirs, kern, root, va, stop, q, t.value, mem, pmm.refs, pmm.free); }
    }

    /** The walk with creation. When the second table cannot be had, the first is released again but stays linked:
        the directories are then unfit, unless there was nothing to allocate at all. */
    method PtWalk(root: Ppn, va: nat) returns (table: Option<Ppn>)
      requires Fit() && root in dirs.roots
      modifies this`mem, pmm`refs, pmm`free, pmm`held
      ensures pmm.held == old(pmm.held)
      ensures table.Some? ==> Fit() && table == TableAt(mem, 2, root, va, 0)
                              && Grows(old(mem), old(pmm.refs), mem, pmm.refs, dirs, root, va)
      ensures table.Some? ==> Confined(old(mem), old(pmm.free), mem, root)
      ensures table.None? ==> old(TableAt(mem, 2, root, va, 0)).None?
      ensures old(TableAt(mem, 2, root, va, 0)).Some? ==> mem == old(mem) && pmm.refs == old(pmm.refs)
      ensures table.None? ==> (Fit() <==> old(TableAt(mem, 2, root, va, 1)).Some? || old(NothingFree(pmm.free)))
    {
      ghost var m, refs, free := mem, pmm.refs, pmm.free;
      var mid, t1 := FirstTable(root, va);
      if mid.None? { return None; }
      table := WalkOn(m, refs, free, root, va, mid.value, t1);
    }

    /** The second step of the walk, from the state the first one began in. */
    method WalkOn(ghost m: Mem, ghost refs: map<Ppn, nat>, ghost free: seq<seq<Ppn>>, root: Ppn, va: nat, mid: Ppn, t1: Option<Ppn>)
      returns (table: Option<Ppn>)
      requires Fit() && root in dirs.roots && TableAt(mem, 2, root, va, 1) == Some(mid)
      requires Grows(m, refs, mem, pmm.refs, dirs, root, va) && Confined(m, free, mem, root)
      requires forall g :: Free(pmm.free, g) ==> Free(free, g)
      requires t1.Some? ==> t1.value in pmm.refs && pmm.refs[t1.value] == 1 && IsTable(mem, dirs, t1.value)
      modifies this`mem, pmm`refs, pmm`free, pmm`held
      ensures pmm.held == old(pmm.held)
      ensures table.Some? ==> Fit() && table == TableAt(mem, 2, root, va, 0)
      ensures table.Some? ==> Grows(m, refs, mem, pmm.refs, dirs, root, va) && Confined(m, free, mem, root)
      ensures table.None? ==> old(NothingFree(pmm.free)) && old(TableAt(mem, 2, root, va, 0)).None? && (Fit() <==> t1.None?)
      ensures old(TableAt(mem, 2, root, va, 0)).Some? ==> mem == old(mem) && pmm.refs == old(pmm.refs)
    {
      ghost var n, refs1, free1 := mem, pmm.refs, pmm.free;
      table := SecondTable(root, va, mid);
      if table.Some? {
        WalkedOn(m, refs, free, n, refs1, free1, mem, pmm.refs, dirs, root, va);
      } else if t1.Some? {
        DropTable(t1.value);
      }
    }

    /** The only reference of a table is dropped, and the table stays linked. */
    method DropTable(t: Ppn)
      requires Fit() && t in pmm.refs && pmm.refs[t] == 1 && IsTable(mem, dirs, t)
      modifies pmm`refs, pmm`free
      ensures !Fit()
    {
      var _ := pmm.RefDec(t);
      Dangling(mem, pmm.refs, dirs, t);
    }

    /** The first table of the walk, and whether it had to be allocated. */
    method FirstTable(root: Ppn, va: nat) returns (mid: Option<Ppn>, t1: Option<Ppn>)
      requires Fit() && root in dirs.roots
      modifies this`mem, pmm`refs, pmm`free, pmm`held
      ensures Fit() && pmm.held == old(pmm.held) && mid == TableAt(mem, 2, root, va, 1)
      ensures mid.None? ==> old(TableAt(mem, 2, root, va, 1)).None? && old(NothingFree(pmm.free))
      ensures mid.Some? ==> Grows(old(mem), old(pmm.refs), mem, pmm.refs, dirs, root, va) && Confined(old(mem), old(pmm.free), mem, root)
                            && forall g :: Free(pmm.free, g) ==> Free(old(pmm.free), g)
      ensures t1.None? ==> mem == old(mem) && pmm.refs == old(pmm.refs) && pmm.free == old(pmm.free)
      ensures t1.Some? ==> old(TableAt(mem, 2, root, va, 1)).None? && !old(NothingFree(pmm.free))
                           && t1.value in pmm.refs && pmm.refs[t1.value] == 1 && IsTable(mem, dirs, t1.value)
    {
      if mem[root][Vpn(va, 2)].perm.v {
        SameGrows(mem, pmm.refs, dirs, root, va);
        return Some(mem[root][Vpn(va, 2)].ppn), None;
      }
      t1 := AddTable(root, va, 2, root);
      mid := t1;
    }

    method SecondTable(root: Ppn, va: nat, mid: Ppn) returns (table: Option<Ppn>)
      requires Fit() && root in dirs.roots && TableAt(mem, 2, root, va, 1) == Some(mid)
      modifies this`mem, pmm`refs, pmm`free, pmm`held
      ensures pmm.held == old(pmm.held) && Fit()
      ensures table.Some? ==> table == TableAt(mem, 2, root, va, 0) && Grows(old(mem), old(pmm.refs), mem, pmm.refs, dirs, root, va)
                              && Confined(old(mem), old(pmm.free), mem, root)
      ensures table.None? || old(TableAt(mem, 2, root, va, 0)).Some? ==> mem == old(mem) && pmm.refs == old(pmm.refs)
      ensures table.None? ==> pmm.free == old(pmm.free) && old(NothingFree(pmm.free)) && old(TableAt(mem, 2, root, va, 0)).None?
    {
      TableAtIn(mem, 2, root, va, 1);
      TableAtLast(mem, root, va, mid);
      if mem[mid][Vpn(va, 1)].perm.v {
        SameGrows(mem, pmm.refs, dirs, root, va);
        return Some(mem[mid][Vpn(va, 1)].ppn);
      }
      table := AddTable(root, va, 1, mid);
    }

    /** pt_phy_frame_ref_dec on a mapped frame; a page outside the memory banks is device memory and not counted. */
    method Release(f: Ppn)
      requires pmm.Valid() && (f in pmm.refs ==> pmm.refs[f] > 0)
      modifies pmm`refs, pmm`free
      ensures pmm.Valid()
      ensures pmm.refs == Released(old(pmm.refs), f)
      ensures forall g :: Free(pmm.free, g) ==> Free(old(pmm.free), g) || (g == f && g in old(pmm.refs) && old(pmm.refs)[g] == 1)
    {
      if f in pmm.refs {
        var ok := pmm.RefDec(f);
        assert ok;
      }
    }

    /** The page is one that some directory counts: not one mapped at boot. */
    method PtUnmap(root: Ppn, va: nat)
      requires Fit() && root in dirs.roots && Owned(mem, dirs, root, va)
      modifies this`mem, pmm`refs, pmm`free
      ensures Fit() && SameBalance(old(mem), old(pmm.refs), mem, pmm.refs, dirs) && ReachSame(old(mem), mem, dirs, root, va)
      ensures Updated(old(mem), mem, dirs, root, va, None)
      ensures Inside(old(mem), mem, root) && TableAt(mem, 2, root, va, 0) == old(TableAt(mem, 2, root, va, 0))
      ensures var e := Flat(old(mem), root, va);
              pmm.refs == if e.Some? then Released(old(pmm.refs), e.value.ppn) else old(pmm.refs)
    {
      ghost var m, refs := mem, pmm.refs;
      var q := Walk(root, va);
      LeafEntry(mem, 2, root, va);
      if q.None? || !mem[q.value][Vpn(va, 0)].perm.v {
        AlreadyUnmapped(mem, dirs, root, va);
        return;
      }
      var f := mem[q.value][Vpn(va, 0)].ppn;
      LeafSetIs(mem, root, va, q.value, ZERO);
      ClearedKeeps(m, refs, dirs, root, va, LeafSet(m, root, va, ZERO), Released(refs, f));
      ghost var free := pmm.free;
      Release(f);
      ReleasedNoneFree(free, pmm.free, dirs, f);
      mem := mem[q.value := mem[q.value][Vpn(va, 0) := ZERO]];
    }

    /** The write that completes a mapping, and the reference for it. */
    method WriteLeaf(root: Ppn, va: nat, q: Ppn, e: Pte)
      requires pmm.Valid() && Tree(mem, 2, root) && TableAt(mem, 2, root, va, 0) == Some(q)
      modifies this`mem, pmm`refs, pmm`held
      ensures mem == LeafSet(old(mem), root, va, e) && pmm.refs == Acquired(old(pmm.refs), e.ppn)
      ensures pmm.Valid() <==> (e.ppn in old(pmm.refs) ==> old(pmm.refs)[e.ppn] > 0 || e.ppn in old(pmm.held))
    {
      LeafSetIs(mem, root, va, q, e);
      if e.ppn in pmm.refs {
        pmm.RefInc(e.ppn);
      }
      mem := mem[q := mem[q][Vpn(va, 0) := e]];
    }

    /** The same with what it means for all directories. */
    method SetLeaf(root: Ppn, va: nat, q: Ppn, e: Pte)
      requires Fit() && root in dirs.roots && Owned(mem, dirs, root, va)
      requires TableAt(mem, 2, root, va, 0) == Some(q) && Flat(mem, root, va).None? && e.perm.v && e.ppn !in dirs.roots
      modifies this`mem, pmm`refs, pmm`held
      ensures Forest(mem, dirs) && CountedOnce(mem, dirs) && Counted(mem, pmm.refs, dirs) && NoneFree(pmm.free, dirs)
      ensures SameBalance(old(mem), old(pmm.refs), mem, pmm.refs, dirs) && Updated(old(mem), mem, dirs, root, va, Some(e))
      ensures Inside(old(mem), mem, root)
      ensures pmm.Valid() <==> (e.ppn in old(pmm.refs) ==> old(pmm.refs)[e.ppn] > 0 || e.ppn in old(pmm.held))
    {
      ghost var m, refs := mem, pmm.refs;
      WriteLeaf(root, va, q, e);
      SetKeeps(m, refs, dirs, root, va, e, mem, pmm.refs);
    }

    /** The caller owns the frame it maps: it holds it or the frame is referenced. A success leaves the directories
        fit unless the page was mapped to that very frame, and by the frame's only reference. */
    method PtMap(root: Ppn, va: nat, p: Ppn, perm: Perm) returns (ok: bool)
      requires Fit() && root in dirs.roots && Owned(mem, dirs, root, va) && p !in dirs.roots
      requires p in pmm.refs ==> p in pmm.held || pmm.refs[p] > 0
      modifies this`mem, pmm`refs, pmm`free, pmm`held
      ensures ok ==> Updated(old(mem), mem, dirs, root, va, Some(Leaf(p, perm)))
      ensures ok ==> Forest(mem, dirs) && SameBalance(old(mem), old(pmm.refs), mem, pmm.refs, dirs)
      ensures ok ==> Confined(old(mem), old(pmm.free), mem, root)
      ensures ok ==> (Fit() <==> !SoleRemap(old(mem), old(pmm.refs), root, va, p))
      ensures !ok ==> old(TableAt(mem, 2, root, va, 0)).None?
      ensures !ok ==> (Fit() <==> old(TableAt(mem, 2, root, va, 1)).Some? || old(NothingFree(pmm.free)))
    {
      var table := Walk(root, va);
      LeafEntry(mem, 2, root, va);
      if table.Some? && mem[table.value][Vpn(va, 0)].perm.v {
        Remap(root, va, p, perm);
        return true;
      }
      ok := MapFresh(root, va, p, perm);
    }

    /** The walk with creation where nothing is missing. */
    method WalkAgain(root: Ppn, va: nat) returns (table: Ppn)
      requires Fit() && root in dirs.roots && TableAt(mem, 2, root, va, 0).Some?
      modifies this`mem, pmm`refs, pmm`free, pmm`held
      ensures Fit() && mem == old(mem) && pmm.refs == old(pmm.refs) && pmm.held == old(pmm.held)
      ensures TableAt(mem, 2, root, va, 0) == Some(table)
    {
      var t := PtWalk(root, va);
      return t.value;
    }

    /** Mapping a page that is mapped already: its old frame is released first. */
    method Remap(root: Ppn, va: nat, p: Ppn, perm: Perm)
      requires Fit() && root in dirs.roots && Owned(mem, dirs, root, va) && p !in dirs.roots && Flat(mem, root, va).Some?
      requires p in pmm.refs ==> p in pmm.held || pmm.refs[p] > 0
      modifies this`mem, pmm`refs, pmm`free, pmm`held
      ensures Updated(old(mem), mem, dirs, root, va, Some(Leaf(p, perm)))
      ensures Forest(mem, dirs) && SameBalance(old(mem), old(pmm.refs), mem, pmm.refs, dirs)
      ensures Fit() <==> !SoleRemap(old(mem), old(pmm.refs), root, va, p)
      ensures Inside(old(mem), mem, root)
    {
      ghost var m, refs := mem, pmm.refs;
      MappedReferenced(m, refs, dirs, root, va);
      LeafEntry(mem, 2, root, va);
      PtUnmap(root, va);
      ghost var n, mid := mem, pmm.refs;
      var table := WalkAgain(root, va);
      FlatHere(m, n, dirs, root, va, None);
      OwnedStays(m, n, dirs, root, va);
      SetLeaf(root, va, table, Leaf(p, perm));
      UpdatedTwice(m, n, mem, dirs, root, va, Some(Leaf(p, perm)));
      BalanceTwice(m, refs, n, mid, mem, pmm.refs, dirs);
      SoleExactly(refs, old(pmm.held), old(Flat(mem, root, va)).value.ppn, p, mid);
      assert Fit() <==> pmm.Valid();
    }

    method MapFresh(root: Ppn, va: nat, p: Ppn, perm: Perm) returns (ok: bool)
      requires Fit() && root in dirs.roots && Owned(mem, dirs, root, va) && p !in dirs.roots && Flat(mem, root, va).None?
      requires p in pmm.refs ==> p in pmm.held || pmm.refs[p] > 0
      modifies this`mem, pmm`refs, pmm`free, pmm`held
      ensures ok ==> Updated(old(mem), mem, dirs, root, va, Some(Leaf(p, perm))) && Fit()
      ensures ok ==> SameBalance(old(mem), old(pmm.refs), mem, pmm.refs, dirs)
      ensures ok ==> Confined(old(mem), old(pmm.free), mem, root)
      ensures !ok ==> old(TableAt(mem, 2, root, va, 0)).None?
      ensures !ok ==> (Fit() <==> old(TableAt(mem, 2, root, va, 1)).Some? || old(NothingFree(pmm.free)))
    {
      ghost var m, refs := mem, pmm.refs;
      var table := PtWalk(root, va);
      ok := table.Some?;
      ghost var n := mem;
      if ok {
        OwnedStays(m, n, dirs, root, va);
        ghost var refs1 := pmm.refs;
        SetLeaf(root, va, table.value, Leaf(p, perm));
        ConfinedInside(m, old(pmm.free), n, mem, root);
        GrowsThenUpdated(m, refs, n, refs1, mem, pmm.refs, dirs, root, va, Some(Leaf(p, perm)));
      }
    }

    // ----- the directories of partitions -----

    /** A frame for a directory: held, without references, and no longer free. */
    method HeldFrame() returns (p: Option<Ppn>)
      requires Fit()
      modifies pmm`free, pmm`held
      ensures Fit() && pmm.refs == old(pmm.refs) && (p.None? <==> NothingFree(old(pmm.free)))
      ensures p.Some? ==> p.value in pmm.held && p.value in pmm.refs && pmm.refs[p.value] == 0 && p.value !in dirs.roots
      ensures p.Some? ==> !Free(pmm.free, p.value) && NoneFree(pmm.free, dirs)
    {
      ghost var refs, free, held := pmm.refs, pmm.free, pmm.held;
      p := pmm.Alloc();
      if p.Some? {
        HeldNotFree(pmm.ranges, refs, free, held, pmm.free, dirs, p.value);
      }
    }

    /** The directory of a new partition: a frame, held without a reference, with a copy of the kernel's directory. */
    method NewDirectory() returns (p: Option<Ppn>)
      requires Fit()
      modifies this`mem, this`dirs, pmm`free, pmm`held
      ensures Fit() && pmm.refs == old(pmm.refs) && (p.None? <==> NothingFree(old(pmm.free)))
      ensures p.None? ==> mem == old(mem) && dirs == old(dirs)
      ensures p.Some? ==> p.value !in old(dirs).roots && dirs == Joined(old(mem), old(dirs), kern, p.value) && p.value in pmm.held
      ensures p.Some? ==> forall vb :: Flat(mem, p.value, vb) == Flat(old(mem), kern, vb)
      ensures forall o, vb :: o in old(dirs).roots ==> Flat(mem, o, vb) == Flat(old(mem), o, vb)
      ensures SameBalances(old(mem), old(dirs), mem, dirs, pmm.refs)
    {
      ghost var m, d := mem, dirs;
      p := HeldFrame();
      if p.None? { return; }
      NewKeeps(m, pmm.refs, d, kern, p.value, pmm.free);
      mem := mem[p.value := mem[kern]];
      dirs := Joined(m, d, kern, p.value);
    }

    /** part_pt_sync_kern_pgdir for one partition: root entries that it lacks are copied from the kernel's. */
    method SyncDirectory(p: Ppn)
      requires Fit() && p in dirs.roots && p != kern
      modifies this`mem, this`dirs
      ensures Fit() && dirs.roots == old(dirs).roots
      ensures Synced(old(mem), mem, old(dirs), kern, p)
      ensures SameBalances(old(mem), old(dirs), mem, dirs, pmm.refs)
    {
      ghost var m, d := mem, dirs;
      SyncedNone(m, d, kern, p);
      for i := 0 to ENTRIES
        invariant Fit() && dirs.roots == d.roots && SyncedTo(m, mem, d, kern, p, i)
        invariant SameBalances(m, d, mem, dirs, pmm.refs)
      {
        SyncEntry(m, d, p, i);
      }
      SyncedAll(m, mem, d, kern, p);
    }

    /** part_pt_sync_kern_pgdir over the partitions. */
    method SyncAll(ps: seq<Ppn>)
      requires Fit() && Distinct(ps) && forall i :: 0 <= i < |ps| ==> ps[i] in dirs.roots && ps[i] != kern
      modifies this`mem, this`dirs
      ensures Fit() && dirs.roots == old(dirs).roots && SyncedSome(old(mem), mem, dirs.roots, kern, ps)
      ensures SameBalances(old(mem), old(dirs), mem, dirs, pmm.refs)
    {
      ghost var m, d := mem, dirs;
      for i := 0 to |ps|
        invariant Fit() && dirs.roots == d.roots && SyncedSome(m, mem, d.roots, kern, ps[..i])
        invariant SameBalances(m, d, mem, dirs, pmm.refs)
      {
        NotYet(ps, i);
        SyncOneMore(m, d, ps[..i], ps[i]);
      }
      assert ps[..|ps|] == ps;
    }

    /** One turn of that loop. */
    method SyncOneMore(ghost m: Mem, ghost d: Dirs, ghost ps: seq<Ppn>, p: Ppn)
      requires Fit() && dirs.roots == d.roots && p in d.roots && p != kern && p !in ps && kern !in ps
      requires SyncedSome(m, mem, d.roots, kern, ps) && SameBalances(m, d, mem, dirs, pmm.refs)
      modifies this`mem, this`dirs
      ensures Fit() && dirs.roots == d.roots
      ensures SyncedSome(m, mem, d.roots, kern, ps + [p]) && SameBalances(m, d, mem, dirs, pmm.refs)
    {
      ghost var n, e := mem, dirs;
      SyncDirectory(p);
      OneSynced(m, n, mem, d, e, kern, ps, p);
      BalancesMeet(m, d, n, e, mem, dirs, pmm.refs);
    }

    method SyncEntry(ghost m: Mem, ghost d: Dirs, p: Ppn, i: nat)
      requires Fit() && p in dirs.roots && p != kern && i < ENTRIES
      requires dirs.roots == d.roots && SyncedTo(m, mem, d, kern, p, i)
      requires SameBalances(m, d, mem, dirs, pmm.refs)
      modifies this`mem, this`dirs
      ensures Fit() && dirs.roots == d.roots && SyncedTo(m, mem, d, kern, p, i + 1)
      ensures SameBalances(m, d, mem, dirs, pmm.refs)
    {
      if mem[kern][i].perm.v && !mem[p][i].perm.v {
        SyncKeeps(mem, pmm.refs, dirs, kern, p, i);
        SyncedMore(m, mem, d, kern, p, i);
        ghost var n, e := mem, dirs;
        dirs := Dirs(dirs.roots, dirs.uncounted + Behind(p, i));
        mem := mem[p := mem[p][i := mem[kern][i]]];
        BalancesMeet(m, d, n, e, mem, dirs, pmm.refs);
      } else {
        SyncedSkip(m, mem, d, kern, p, i);
      }
    }
  }

  /** The directories, with the kernel's among them, over memory, references and free lists. */
  ghost predicate Sound(m: Mem, refs: map<Ppn, nat>, free: seq<seq<Ppn>>, d: Dirs, kern: Ppn) {
    && Forest(m, d) && CountedOnce(m, d) && Counted(m, refs, d)
    && kern in d.roots && NoneFree(free, d) && Known(d)
  }

  /** Pages that are not counted belong to a directory. */
  ghost predicate Known(d: Dirs) {
    forall x :: x in d.uncounted ==> x.0 in d.roots
  }

  ghost predicate NoneFree(free: seq<seq<Ppn>>, d: Dirs) {
    forall r :: r in d.roots ==> !Free(free, r)
  }

  lemma StillNoneFree(free: seq<seq<Ppn>>, less: seq<seq<Ppn>>, d: Dirs)
    requires NoneFree(free, d) && forall g :: Free(less, g) ==> Free(free, g)
    ensures NoneFree(less, d)
  {
  }

  /** What linking a new table means. */
  ghost predicate Added(m: Mem, refs: map<Ppn, nat>, free: seq<seq<Ppn>>, n: Mem, after: map<Ppn, nat>, d: Dirs,
                        root: Ppn, va: nat, stop: nat, t: Ppn)
    requires stop > 0
  {
    && Free(free, t) && t in after && after[t] == 1 && IsTable(n, d, t)
    && TableAt(n, 2, root, va, stop - 1) == Some(t)
    && Grows(m, refs, n, after, d, root, va) && Confined(m, free, n, root)
  }

  /** m with a new table t, and a pointer to it at entry i of page q. */
  function Linked(m: Mem, q: Ppn, i: nat, t: Ppn): Mem
    requires IsPage(m, q) && i < ENTRIES
  {
    var z := m[t := ZeroPage()];
    z[q := z[q][i := Pointer(t)]]
  }

  lemma AttachedIs(m: Mem, root: Ppn, va: nat, stop: nat, q: Ppn, t: Ppn)
    requires Tree(m, 2, root) && Missing(m, root, va, stop) && TableAt(m, 2, root, va, stop) == Some(q) && t !in Tables(m, 2, root)
    ensures IsPage(m, q) && Attached(m, root, va, stop, t) == Linked(m, q, Vpn(va, stop), t)
  {
    TableAtIn(m, 2, root, va, stop);
  }

  lemma AddedKeeps(m: Mem, refs: map<Ppn, nat>, free: seq<seq<Ppn>>, d: Dirs, kern: Ppn, root: Ppn, va: nat, stop: nat,
                   q: Ppn, t: Ppn, n: Mem, after: map<Ppn, nat>, less: seq<seq<Ppn>>)
    requires Sound(m, refs, free, d, kern) && root in d.roots && Missing(m, root, va, stop)
    requires TableAt(m, 2, root, va, stop) == Some(q) && t in refs && refs[t] == 0 && Free(free, t)
    requires n == Linked(m, q, Vpn(va, stop), t) && after == refs[t := 1]
    requires forall g :: Free(less, g) ==> Free(free, g)
    ensures Sound(n, after, less, d, kern) && Added(m, refs, free, n, after, d, root, va, stop, t)
  {
    UnusedFrame(m, refs, d, t);
    AttachedIs(m, root, va, stop, q, t);
    AttachKeeps(m, refs, d, root, va, stop, t);
    AttachConfined(m, free, root, va, stop, t);
    StillNoneFree(free, less, d);
  }

  lemma SameGrows(m: Mem, refs: map<Ppn, nat>, d: Dirs, root: Ppn, va: nat)
    requires Forest(m, d) && root in d.roots
    ensures Grows(m, refs, m, refs, d, root, va) && forall free :: Confined(m, free, m, root)
  {
  }

  lemma SetKeeps(m: Mem, refs: map<Ppn, nat>, d: Dirs, root: Ppn, va: nat, e: Pte, n: Mem, after: map<Ppn, nat>)
    requires Forest(m, d) && CountedOnce(m, d) && Counted(m, refs, d) && root in d.roots && Owned(m, d, root, va)
    requires TableAt(m, 2, root, va, 0).Some? && Flat(m, root, va).None? && e.perm.v && e.ppn !in d.roots
    requires n == LeafSet(m, root, va, e) && after == Acquired(refs, e.ppn)
    ensures Forest(n, d) && CountedOnce(n, d) && SameBalance(m, refs, n, after, d) && Counted(n, after, d)
    ensures Updated(m, n, d, root, va, Some(e)) && Inside(m, n, root)
  {
    MapKeeps(m, refs, d, root, va, e, after);
    FollowsUpdated(m, n, d, root, va, e);
    LeafInside(m, root, va, e);
  }

  lemma ReleasedNoneFree(free: seq<seq<Ppn>>, more: seq<seq<Ppn>>, d: Dirs, f: Ppn)
    requires NoneFree(free, d) && f !in d.roots && forall g :: Free(more, g) ==> Free(free, g) || g == f
    ensures NoneFree(more, d)
  {
  }

  lemma ClearedKeeps(m: Mem, refs: map<Ppn, nat>, d: Dirs, root: Ppn, va: nat, n: Mem, after: map<Ppn, nat>)
    requires Forest(m, d) && CountedOnce(m, d) && Counted(m, refs, d) && root in d.roots && Owned(m, d, root, va)
    requires Flat(m, root, va).Some? && after == Released(refs, Entry(m, 2, root, va).ppn) && n == LeafSet(m, root, va, ZERO)
    ensures var f := Entry(m, 2, root, va).ppn; (f in refs ==> refs[f] > 0) && f !in d.roots
    ensures Forest(n, d) && CountedOnce(n, d) && SameBalance(m, refs, n, after, d) && Counted(n, after, d)
    ensures Updated(m, n, d, root, va, None) && ReachSame(m, n, d, root, va)
    ensures Inside(m, n, root) && TableAt(n, 2, root, va, 0) == TableAt(m, 2, root, va, 0)
  {
    LeafEntry(m, 2, root, va);
    UnmapKeeps(m, refs, d, root, va, after);
    FollowsUpdated(m, n, d, root, va, ZERO);
    LeafReaches(m, root, va, ZERO);
    LeafInside(m, root, va, ZERO);
  }

  /** A frame just allocated is not free, and no other frame became free. */
  lemma HeldNotFree(rs: seq<Range>, refs: map<Ppn, nat>, free: seq<seq<Ppn>>, held: set<Ppn>, less: seq<seq<Ppn>>, d: Dirs, p: Ppn)
    requires Exact(rs, refs, free, held) && Exact(rs, refs, less, held + {p}) && NoneFree(free, d) && Free(free, p)
    ensures !Free(less, p) && NoneFree(less, d) && p !in d.roots && p in refs && refs[p] == 0
  {
    FreeExactly(rs, refs, free, held, p);
    FreeExactly(rs, refs, less, held + {p}, p);
    forall r | r in d.roots ensures !Free(less, r) {
      FreeExactly(rs, refs, free, held, r);
      FreeExactly(rs, refs, less, held + {p}, r);
    }
  }

  lemma NewKeeps(m: Mem, refs: map<Ppn, nat>, d: Dirs, kern: Ppn, p: Ppn, free: seq<seq<Ppn>>)
    requires Forest(m, d) && CountedOnce(m, d) && Counted(m, refs, d) && kern in d.roots
    requires p in refs && refs[p] == 0 && p !in d.roots && NoneFree(free, d) && !Free(free, p)
    ensures var n, e := m[p := m[kern]], Joined(m, d, kern, p);
            && Forest(n, e) && CountedOnce(n, e) && Counted(n, refs, e) && NoneFree(free, e) && kern in e.roots
            && (forall f :: f in refs ==> Balance(n, refs, e, f) == Balance(m, refs, d, f))
            && (forall vb :: Flat(n, p, vb) == Flat(m, kern, vb))
            && (forall o, vb :: o in d.roots ==> Flat(n, o, vb) == Flat(m, o, vb))
  {
    CopyKeeps(m, refs, d, kern, p);
  }

  // ----- copying root entries -----

  /** Directory p maps behind each root entry it lacked what the kernel's maps; the others are as before. */
  ghost predicate Synced(m: Mem, n: Mem, d: Dirs, kern: Ppn, p: Ppn)
    requires IsPage(m, p)
  {
    && (forall vb :: Flat(n, p, vb) == if m[p][Vpn(vb, 2)].perm.v then Flat(m, p, vb) else Flat(m, kern, vb))
    && (forall o, vb :: o in d.roots && o != p ==> Flat(n, o, vb) == Flat(m, o, vb))
    && Only(m, n, p, {})
  }

  /** The first i root entries have been looked at. */
  ghost predicate SyncedTo(m: Mem, n: Mem, d: Dirs, kern: Ppn, p: Ppn, i: nat) {
    && IsPage(m, p) && IsPage(n, p) && IsPage(m, kern) && kern != p && i <= ENTRIES && Only(m, n, p, {})
    && (forall j :: i <= j < ENTRIES ==> n[p][j] == m[p][j])
    && (forall vb :: Entry(n, 2, p, vb)
                     == if Vpn(vb, 2) < i && m[kern][Vpn(vb, 2)].perm.v && !m[p][Vpn(vb, 2)].perm.v then Entry(m, 2, kern, vb)
                        else Entry(m, 2, p, vb))
    && (forall o, vb :: o in d.roots && o != p ==> Entry(n, 2, o, vb) == Entry(m, 2, o, vb))
  }

  lemma SyncedNone(m: Mem, d: Dirs, kern: Ppn, p: Ppn)
    requires IsPage(m, p) && IsPage(m, kern) && kern != p
    ensures SyncedTo(m, m, d, kern, p, 0)
  {
  }

  lemma SyncedSkip(m: Mem, n: Mem, d: Dirs, kern: Ppn, p: Ppn, i: nat)
    requires SyncedTo(m, n, d, kern, p, i) && i < ENTRIES && !(n[kern][i].perm.v && !n[p][i].perm.v)
    ensures SyncedTo(m, n, d, kern, p, i + 1)
  {
  }

  lemma SyncedMore(m: Mem, n: Mem, d: Dirs, kern: Ppn, p: Ppn, i: nat)
    requires SyncedTo(m, n, d, kern, p, i) && i < ENTRIES && kern != p && kern in d.roots && n[kern][i].perm.v && !n[p][i].perm.v
    requires var r := n[p := n[p][i := n[kern][i]]];
             && (forall vb :: Entry(r, 2, p, vb) == if Vpn(vb, 2) == i then Entry(n, 2, kern, vb) else Entry(n, 2, p, vb))
             && (forall o, vb :: o in d.roots && o != p ==> Entry(r, 2, o, vb) == Entry(n, 2, o, vb))
    ensures SyncedTo(m, n[p := n[p][i := n[kern][i]]], d, kern, p, i + 1)
  {
  }

  lemma SyncedAll(m: Mem, n: Mem, d: Dirs, kern: Ppn, p: Ppn)
    requires SyncedTo(m, n, d, kern, p, ENTRIES) && kern != p && kern in d.roots
    ensures Synced(m, n, d, kern, p)
  {
    forall vb ensures Flat(n, p, vb) == if m[p][Vpn(vb, 2)].perm.v then Flat(m, p, vb) else Flat(m, kern, vb) {
      assert !m[kern][Vpn(vb, 2)].perm.v ==> Entry(m, 2, kern, vb) == ZERO;
      assert !m[p][Vpn(vb, 2)].perm.v ==> Entry(m, 2, p, vb) == ZERO;
    }
  }

  /** Each directory listed maps behind every root entry it lacked what the kernel's maps, and is otherwise as
      before, like all directories not listed. */
  ghost predicate SyncedSome(m: Mem, n: Mem, roots: set<Ppn>, kern: Ppn, ps: seq<Ppn>) {
    && (forall r :: r in roots ==> IsPage(m, r))
    && (forall o, vb :: o in roots ==>
          Flat(n, o, vb) == if o in ps && !m[o][Vpn(vb, 2)].perm.v then Flat(m, kern, vb) else Flat(m, o, vb))
    && (forall o :: o in roots && o !in ps ==> o in n && n[o] == m[o])
  }

  lemma {:induction false} NotYet(ps: seq<Ppn>, i: nat)
    requires Distinct(ps) && i < |ps|
    ensures ps[i] !in ps[..i] && ps[..i + 1] == ps[..i] + [ps[i]]
  {
    if i > 0 {
      NotYet(ps[1..], i - 1);
      assert ps[..i] == [ps[0]] + ps[1..][..i - 1];
      assert ps[i] == ps[1..][i - 1];
    }
  }

  lemma OneSynced(m: Mem, n: Mem, r: Mem, d: Dirs, e: Dirs, kern: Ppn, ps: seq<Ppn>, p: Ppn)
    requires SyncedSome(m, n, d.roots, kern, ps) && kern in d.roots && p in d.roots && kern !in ps && p != kern && p !in ps
    requires e.roots == d.roots && IsPage(n, p) && Synced(n, r, e, kern, p)
    ensures SyncedSome(m, r, d.roots, kern, ps + [p])
  {
    forall o, vb | o in d.roots
      ensures Flat(r, o, vb) == if o in ps + [p] && !m[o][Vpn(vb, 2)].perm.v then Flat(m, kern, vb) else Flat(m, o, vb)
    {
      if o == p { assert n[p] == m[p]; }
    }
  }

  /** No balance changed, from directories d in memory m to directories e in memory n. */
  ghost predicate SameBalances(m: Mem, d: Dirs, n: Mem, e: Dirs, refs: map<Ppn, nat>) {
    forall f :: f in refs ==> Balance(n, refs, e, f) == Balance(m, refs, d, f)
  }

  lemma BalancesMeet(m: Mem, d: Dirs, n: Mem, e: Dirs, r: Mem, g: Dirs, refs: map<Ppn, nat>)
    requires SameBalances(m, d, n, e, refs) && SameBalances(n, e, r, g, refs)
    ensures SameBalances(m, d, r, g, refs)
  {
    forall f | f in refs ensures Balance(r, refs, g, f) == Balance(m, refs, d, f) {
      assert Balance(n, refs, e, f) == Balance(m, refs, d, f);
    }
  }

  // ----- what the operations mean for the hardware -----

  lemma SameIndexPage(va: nat, vb: nat)
    ensures SameIndex(va, vb, 2, 0) <==> SamePage(va, vb)
  {
    assert SameIndex(va, vb, 1, 0) <==> Vpn(va, 1) == Vpn(vb, 1) && Vpn(va, 0) == Vpn(vb, 0);
  }

  /** After a mapping the hardware translates the addresses of that page to the new frame, if it may be read or
      executed and is not write-only, below the directory and every one that shares its root entry; it translates
      every other address, and every address below any other directory, as before. */
  lemma HardwareSeesMap(m: Mem, n: Mem, d: Dirs, root: Ppn, va: nat, p: Ppn, perm: Perm, o: Ppn, vb: nat)
    requires Forest(m, d) && Forest(n, d) && root in d.roots && o in d.roots
    requires Updated(m, n, d, root, va, Some(Leaf(p, perm))) && va < 0x80_0000_0000 && vb < 0x80_0000_0000
    ensures Translate(n, 2, o, vb) ==
            if !Reaches(m, root, o, va) || va / 0x1000 != vb / 0x1000 then Translate(m, 2, o, vb)
            else if perm.r || (perm.x && !perm.w) then Page(p, perm.(v := true))
            else Fault
  {
    SameIndexPage(va, vb);
    SamePageNumber(va, vb);
    HardwareAgrees(m, 2, o, vb);
    HardwareAgrees(n, 2, o, vb);
    assert Flat(n, o, vb) == if Reaches(m, root, o, va) && SameIndex(va, vb, 2, 0) then Some(Leaf(p, perm)) else Flat(m, o, vb);
  }
}
