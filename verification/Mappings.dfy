/** What the directories map and how often: the reference count of every frame moves with the pages that name it. */
module Mappings {
  import opened Common
  import opened PageTree
  import opened Directories

  // ----- the flat map -----

  /** The valid leaf entry of an address, if there is one. */
  function Flat(m: Mem, root: Ppn, va: nat): Option<Pte> {
    var e := Entry(m, 2, root, va);
    if e.perm.v then Some(e) else None
  }

  // ----- counted pages -----

  /** The page of directory r is mapped to frame f. */
  predicate Names(m: Mem, r: Ppn, pg: nat, f: Ppn) {
    At(m, r, pg).perm.v && At(m, r, pg).ppn == f
  }

  /** The counted pages that are mapped to f. */
  ghost function PagesAt(m: Mem, d: Dirs, f: Ppn): set<(Ppn, nat)> {
    set r, pg | r in d.roots && 0 <= pg < PAGES && (r, pg) !in d.uncounted && Names(m, r, pg, f) :: (r, pg)
  }

  ghost function Count(m: Mem, d: Dirs, f: Ppn): nat {
    |PagesAt(m, d, f)|
  }

  /** References that neither a counted page nor being a table accounts for. */
  ghost function Balance(m: Mem, refs: map<Ppn, nat>, d: Dirs, f: Ppn): int
    requires f in refs
  {
    refs[f] - Count(m, d, f) - if IsTable(m, d, f) then 1 else 0
  }

  ghost predicate SameBalance(m: Mem, refs: map<Ppn, nat>, n: Mem, after: map<Ppn, nat>, d: Dirs) {
    after.Keys == refs.Keys && forall f :: f in refs ==> Balance(n, after, d, f) == Balance(m, refs, d, f)
  }

  /** Every table has its reference, every counted page one of its own, and no directory is mapped as a page. */
  ghost predicate Counted(m: Mem, refs: map<Ppn, nat>, d: Dirs) {
    && (forall f :: f in refs ==> Balance(m, refs, d, f) >= 0)
    && (forall r :: r in d.roots ==> Count(m, d, r) == 0)
  }

  /** The page of va below root is counted, for root itself or for a directory that shares the root entry. */
  ghost predicate Owned(m: Mem, d: Dirs, root: Ppn, va: nat)
    requires IsPage(m, root) && forall r :: r in d.roots ==> IsPage(m, r)
  {
    exists w :: w in d.roots && Reaches(m, root, w, va) && (w, PageOf(va)) !in d.uncounted
  }

  lemma SameCounts(m: Mem, n: Mem, d: Dirs, e: Dirs)
    requires forall f :: PagesAt(n, e, f) == PagesAt(m, d, f)
    ensures forall f :: Count(n, e, f) == Count(m, d, f)
  {
  }

  lemma SameUses(m: Mem, n: Mem, d: Dirs)
    requires forall r, pg :: r in d.roots && 0 <= pg < PAGES ==> At(n, r, pg) == At(m, r, pg)
    ensures forall f :: Count(n, d, f) == Count(m, d, f)
  {
    forall f ensures PagesAt(n, d, f) == PagesAt(m, d, f) {
      forall x: (Ppn, nat) ensures x in PagesAt(n, d, f) <==> x in PagesAt(m, d, f) {
      }
    }
  }

  function Named(e: Pte, f: Ppn): nat {
    if e.perm.v && e.ppn == f then 1 else 0
  }

  lemma OneApart<T>(a: set<T>, b: set<T>, x: T)
    requires a - {x} == b - {x}
    ensures |a| - (if x in a then 1 else 0) == |b| - if x in b then 1 else 0
  {
    if x in a { assert a == (a - {x}) + {x}; } else { assert a == a - {x}; }
    if x in b { assert b == (b - {x}) + {x}; } else { assert b == b - {x}; }
  }

  /** If the entry of one counted page changes, and otherwise only those of pages not counted, the counts of the two
      frames concerned change by one. */
  lemma OnePageCounts(m: Mem, n: Mem, d: Dirs, w: Ppn, p: nat, f: Ppn)
    requires w in d.roots && p < PAGES && (w, p) !in d.uncounted
    requires forall r, pg :: r in d.roots && 0 <= pg < PAGES && (r, pg) !in d.uncounted && (r, pg) != (w, p) ==> At(n, r, pg) == At(m, r, pg)
    ensures Count(n, d, f) == Count(m, d, f) + Named(At(n, w, p), f) - Named(At(m, w, p), f)
  {
    var a, b := PagesAt(m, d, f), PagesAt(n, d, f);
    forall x: (Ppn, nat) | x != (w, p) ensures x in a <==> x in b {
    }
    assert a - {(w, p)} == b - {(w, p)};
    OneApart(a, b, (w, p));
  }

  /** A mapped page that is counted has a reference of its own. */
  lemma OwnedUsed(m: Mem, d: Dirs, root: Ppn, va: nat)
    requires Forest(m, d) && root in d.roots && Owned(m, d, root, va) && Flat(m, root, va).Some?
    ensures Count(m, d, Entry(m, 2, root, va).ppn) > 0
  {
    var f := Entry(m, 2, root, va).ppn;
    var w :| w in d.roots && Reaches(m, root, w, va) && (w, PageOf(va)) !in d.uncounted;
    AtAddr(m, w, va);
    assert (w, PageOf(va)) in PagesAt(m, d, f);
    assert PagesAt(m, d, f) != {};
  }

  // ----- a new table -----

  lemma {:induction false} ZeroEntries(m: Mem, level: nat, es: seq<Pte>, f: Ppn)
    requires forall i :: 0 <= i < |es| ==> es[i] == ZERO
    ensures UsesOf(m, level, es, f) == 0
    ensures level > 0 ==> TablesOf(m, level, es) == {} && TreeOf(m, level, es)
    decreases |es|
  {
    if es != [] { ZeroEntries(m, level, es[1..], f); }
  }

  lemma ZeroTable(m: Mem, level: nat, t: Ppn, f: Ppn)
    requires t in m && m[t] == ZeroPage()
    ensures Tree(m, level, t) && Tables(m, level, t) == {t} && Uses(m, level, t, f) == 0
    ensures forall va :: Entry(m, level, t, va) == ZERO
  {
    ZeroEntries(m, level, m[t], f);
  }

  /** m with the new table t behind the missing entry for va at level stop. */
  function Attached(m: Mem, root: Ppn, va: nat, stop: nat, t: Ppn): Mem {
    var q := TableAt(m, 2, root, va, stop);
    if q.Some? && q.value in m && |m[q.value]| == ENTRIES
    then m[t := ZeroPage()][q.value := m[q.value][Vpn(va, stop) := Pointer(t)]] else m
  }

  /** The walk for va ends at level stop, for want of a table. */
  predicate Missing(m: Mem, root: Ppn, va: nat, stop: nat) {
    var q := TableAt(m, 2, root, va, stop);
    0 < stop <= 2 && q.Some? && q.value in m && |m[q.value]| == ENTRIES && !m[q.value][Vpn(va, stop)].perm.v
  }

  lemma AttachIs(m: Mem, root: Ppn, va: nat, stop: nat, t: Ppn)
    requires Tree(m, 2, root) && Missing(m, root, va, stop) && t !in Tables(m, 2, root)
    ensures var n := Attached(m, root, va, stop, t);
            && Writes(m, n, 2, root, va, stop, Pointer(t), {t}) && n[t] == ZeroPage()
            && Child(n, stop, Pointer(t)) == {t} && Only(m, n, TableAt(m, 2, root, va, stop).value, {t})
  {
    TableAtIn(m, 2, root, va, stop);
    NewSubTree(Attached(m, root, va, stop, t), stop, t);
  }

  lemma NewSubTree(n: Mem, stop: nat, t: Ppn)
    requires stop > 0 && t in n && n[t] == ZeroPage()
    ensures SubTree(n, stop, Pointer(t)) && Child(n, stop, Pointer(t)) == {t}
  {
    ZeroTable(n, stop - 1, t, 0);
  }

  lemma {:induction false} MissingEntry(m: Mem, level: nat, p: Ppn, va: nat, stop: nat, vb: nat)
    requires 0 < stop <= level && TableAt(m, level, p, va, stop).Some? && SameIndex(va, vb, level, stop)
    requires var q := TableAt(m, level, p, va, stop).value; q in m && |m[q]| == ENTRIES && !m[q][Vpn(va, stop)].perm.v
    ensures Entry(m, level, p, vb) == ZERO
  {
    if level > stop { MissingEntry(m, level - 1, m[p][Vpn(va, level)].ppn, va, stop, vb); }
  }

  /** A new table maps nothing below a directory that reaches it. */
  lemma AttachEntry(m: Mem, n: Mem, o: Ppn, va: nat, stop: nat, t: Ppn, vb: nat)
    requires 0 < stop <= 2 && Writes(m, n, 2, o, va, stop, Pointer(t), {t}) && t in n && n[t] == ZeroPage()
    requires !m[TableAt(m, 2, o, va, stop).value][Vpn(va, stop)].perm.v
    ensures Entry(n, 2, o, vb) == Entry(m, 2, o, vb)
  {
    ZeroTable(n, stop - 1, t, 0);
    WriteAt(m, n, 2, o, va, stop, Pointer(t), {t}, 0, vb);
    if SameIndex(va, vb, 2, stop) { MissingEntry(m, 2, o, va, stop, vb); }
  }

  /** The new table is where the walk for va continues. */
  lemma AttachReaches(m: Mem, root: Ppn, va: nat, stop: nat, t: Ppn)
    requires Tree(m, 2, root) && Missing(m, root, va, stop) && t !in Tables(m, 2, root)
    ensures TableAt(Attached(m, root, va, stop, t), 2, root, va, stop - 1) == Some(t)
  {
    var n := Attached(m, root, va, stop, t);
    AttachIs(m, root, va, stop, t);
    TableAtIn(m, 2, root, va, stop);
    if stop == 1 {
      assert n[root] == m[root];
      assert TableAt(n, 1, m[root][Vpn(va, 2)].ppn, va, 0) == Some(t);
    }
  }

  /** What linking a new table means for all directories: one more table, and no page of any maps anything else. */
  ghost predicate Grown(m: Mem, n: Mem, d: Dirs, ts: set<Ppn>) {
    && Forest(m, d) && Forest(n, d) && (CountedOnce(m, d) ==> CountedOnce(n, d))
    && (forall o, vb :: o in d.roots ==> Entry(n, 2, o, vb) == Entry(m, 2, o, vb))
    && (forall f :: IsTable(n, d, f) <==> IsTable(m, d, f) || f in ts)
  }

  /** The directories reach the same behind the root entry of va. */
  ghost predicate ReachSame(m: Mem, n: Mem, d: Dirs, root: Ppn, va: nat)
    requires forall r :: r in d.roots ==> IsPage(m, r) && IsPage(n, r)
    requires root in d.roots
  {
    forall o :: o in d.roots ==> Reaches(n, root, o, va) == Reaches(m, root, o, va)
  }

  /** Below the root entries. */
  lemma AttachLow(m: Mem, d: Dirs, root: Ppn, va: nat, t: Ppn, n: Mem)
    requires Forest(m, d) && root in d.roots && Missing(m, root, va, 1) && forall r :: r in d.roots ==> t !in Tables(m, 2, r)
    requires n == Attached(m, root, va, 1, t)
    ensures Grown(m, n, d, {t}) && ReachSame(m, n, d, root, va)
  {
    AttachIs(m, root, va, 1, t);
    ForestKept(m, n, d, root, va, 1, Pointer(t), {t});
    forall o, vb | o in d.roots ensures Entry(n, 2, o, vb) == Entry(m, 2, o, vb) {
      WriteSeen(m, n, root, o, va, 1, Pointer(t), {t});
      if Reaches(m, root, o, va) { AttachEntry(m, n, o, va, 1, t, vb); } else { TreeSame(m, n, 2, o, 0, vb); }
    }
    WriteCovers(m, n, 2, root, va, 1, Pointer(t), {t});
    forall f ensures IsTable(n, d, f) <==> IsTable(m, d, f) || f == t {
      LowTables(m, n, d, root, va, {t}, f);
    }
  }

  lemma LowTables(m: Mem, n: Mem, d: Dirs, root: Ppn, va: nat, ts: set<Ppn>, f: Ppn)
    requires Forest(m, d) && root in d.roots && (forall r :: r in d.roots ==> Effect(m, n, root, r, va, ts) && ts !! Tables(m, 2, r))
    requires ts <= Tables(n, 2, root)
    ensures IsTable(n, d, f) <==> IsTable(m, d, f) || f in ts
  {
    forall r | r in d.roots ensures IsBelow(m, r, f) ==> IsBelow(n, r, f) {
      assert Effect(m, n, root, r, va, ts);
    }
    if IsTable(n, d, f) {
      var r :| r in d.roots && IsBelow(n, r, f);
      assert Effect(m, n, root, r, va, ts);
      if f !in ts { assert IsBelow(m, r, f); }
    }
    if IsTable(m, d, f) {
      var r :| r in d.roots && IsBelow(m, r, f);
      assert IsBelow(n, r, f);
    }
    if f in ts { assert IsBelow(n, root, f); }
  }

  /** Behind a root entry: no other directory has the new table. */
  lemma AttachHigh(m: Mem, d: Dirs, root: Ppn, va: nat, t: Ppn, n: Mem)
    requires Forest(m, d) && root in d.roots && Missing(m, root, va, 2) && forall r :: r in d.roots ==> t !in Tables(m, 2, r)
    requires n == Attached(m, root, va, 2, t)
    ensures Grown(m, n, d, {t}) && ReachSame(m, n, d, root, va)
  {
    AttachIs(m, root, va, 2, t);
    RootAttached(m, n, d, root, va, t);
    forall o, vb | o in d.roots ensures Entry(n, 2, o, vb) == Entry(m, 2, o, vb) {
      if o == root { AttachEntry(m, n, o, va, 2, t, vb); } else { TreeSame(m, n, 2, o, 0, vb); }
    }
    NotAlike(m, n, d, root, va, t);
    forall f ensures IsTable(n, d, f) <==> IsTable(m, d, f) || f == t {
      HighTables(m, n, d, root, va, t, f);
    }
  }

  lemma SelfTable(m: Mem, level: nat, t: Ppn)
    ensures t in Tables(m, level, t)
  {
  }

  lemma NotAlike(m: Mem, n: Mem, d: Dirs, root: Ppn, va: nat, t: Ppn)
    requires Forest(m, d) && Forest(n, d) && root in d.roots && !m[root][Vpn(va, 2)].perm.v
    requires n[root] == m[root][Vpn(va, 2) := Pointer(t)] && forall r :: r in d.roots ==> t !in Tables(m, 2, r)
    requires forall o :: o in d.roots && o != root ==> Agree(m, n, Tables(m, 2, o))
    ensures (CountedOnce(m, d) ==> CountedOnce(n, d)) && ReachSame(m, n, d, root, va)
  {
    forall o | o in d.roots && o != root ensures m[o][Vpn(va, 2)] != Pointer(t) && n[o] == m[o] {
      Untouched(m, n, o);
      ChildIn(m, 2, m[o], Vpn(va, 2));
      SelfTable(m, 1, t);
    }
    if CountedOnce(m, d) {
      forall r, o, pg | r in d.roots && o in d.roots && r != o && 0 <= pg < PAGES && Alike(n, r, o, SlotOf(pg))
        ensures (r, pg) in d.uncounted || (o, pg) in d.uncounted
      {
        assert Alike(m, r, o, SlotOf(pg));
      }
    }
  }

  lemma HighTables(m: Mem, n: Mem, d: Dirs, root: Ppn, va: nat, t: Ppn, f: Ppn)
    requires Forest(m, d) && Forest(n, d) && root in d.roots && Writes(m, n, 2, root, va, 2, Pointer(t), {t})
    requires Child(n, 2, Pointer(t)) == {t} && forall o :: o in d.roots && o != root ==> Agree(m, n, Tables(m, 2, o))
    ensures IsTable(n, d, f) <==> IsTable(m, d, f) || f == t
  {
    WriteAt(m, n, 2, root, va, 2, Pointer(t), {t}, 0, 0);
    WriteCovers(m, n, 2, root, va, 2, Pointer(t), {t});
    forall o | o in d.roots && o != root ensures IsBelow(n, o, f) == IsBelow(m, o, f) {
      EntriesSame(m, n, 2, m[o], 0, 0);
    }
    if IsTable(n, d, f) {
      var r :| r in d.roots && IsBelow(n, r, f);
      if f != t { assert IsBelow(m, r, f); }
    }
    if IsTable(m, d, f) {
      var r :| r in d.roots && IsBelow(m, r, f);
      assert IsBelow(n, r, f);
    }
    if f == t { assert IsBelow(n, root, t); }
  }

  lemma AttachGrown(m: Mem, d: Dirs, root: Ppn, va: nat, stop: nat, t: Ppn)
    requires Forest(m, d) && root in d.roots && Missing(m, root, va, stop) && forall r :: r in d.roots ==> t !in Tables(m, 2, r)
    ensures var n := Attached(m, root, va, stop, t);
            Grown(m, n, d, {t}) && ReachSame(m, n, d, root, va) && TableAt(n, 2, root, va, stop - 1) == Some(t)
  {
    var n := Attached(m, root, va, stop, t);
    AttachReaches(m, root, va, stop, t);
    if stop == 1 { AttachLow(m, d, root, va, t, n); } else { AttachHigh(m, d, root, va, t, n); }
  }

  /** A frame without references is neither a table nor mapped by a counted page. */
  lemma UnusedFrame(m: Mem, refs: map<Ppn, nat>, d: Dirs, t: Ppn)
    requires Forest(m, d) && Counted(m, refs, d) && t in refs && refs[t] == 0 && t !in d.roots
    ensures Count(m, d, t) == 0 && !IsTable(m, d, t) && forall r :: r in d.roots ==> t !in Tables(m, 2, r)
  {
    assert Balance(m, refs, d, t) >= 0;
    forall r | r in d.roots ensures t !in Tables(m, 2, r) {
      if t in Tables(m, 2, r) { assert IsBelow(m, r, t); }
    }
  }

  /** A new table keeps the counts: it has one reference, and is one table more. */
  lemma AttachKeeps(m: Mem, refs: map<Ppn, nat>, d: Dirs, root: Ppn, va: nat, stop: nat, t: Ppn)
    requires Forest(m, d) && Counted(m, refs, d) && root in d.roots && Missing(m, root, va, stop)
    requires t in refs && refs[t] == 0 && t !in d.roots
    ensures var n, after := Attached(m, root, va, stop, t), refs[t := 1];
            && Grown(m, n, d, {t}) && ReachSame(m, n, d, root, va) && TableAt(n, 2, root, va, stop - 1) == Some(t)
            && SameBalance(m, refs, n, after, d) && Counted(n, after, d) && IsTable(n, d, t)
  {
    UnusedFrame(m, refs, d, t);
    AttachGrown(m, d, root, va, stop, t);
    GrownCounts(m, refs, Attached(m, root, va, stop, t), d, t);
  }

  lemma GrownCounts(m: Mem, refs: map<Ppn, nat>, n: Mem, d: Dirs, t: Ppn)
    requires Grown(m, n, d, {t}) && Counted(m, refs, d) && t in refs && refs[t] == 0 && !IsTable(m, d, t)
    ensures SameBalance(m, refs, n, refs[t := 1], d) && Counted(n, refs[t := 1], d) && IsTable(n, d, t)
  {
    var after := refs[t := 1];
    SameUses(m, n, d);
    forall f | f in refs ensures Balance(n, after, d, f) == Balance(m, refs, d, f) {
      TableBalance(m, refs, n, after, d, t, f);
    }
    BalanceKeeps(m, refs, n, after, d);
    assert t in {t};
  }

  lemma TableBalance(m: Mem, refs: map<Ppn, nat>, n: Mem, after: map<Ppn, nat>, d: Dirs, t: Ppn, f: Ppn)
    requires f in refs && t in refs && refs[t] == 0 && after == refs[t := 1] && Count(n, d, f) == Count(m, d, f)
    requires !IsTable(m, d, t) && (IsTable(n, d, f) <==> IsTable(m, d, f) || f in {t})
    ensures Balance(n, after, d, f) == Balance(m, refs, d, f)
  {
  }

  lemma BalanceKeeps(m: Mem, refs: map<Ppn, nat>, n: Mem, after: map<Ppn, nat>, d: Dirs)
    requires Counted(m, refs, d) && after.Keys == refs.Keys
    requires forall f :: f in refs ==> Balance(n, after, d, f) == Balance(m, refs, d, f)
    requires forall r :: r in d.roots ==> Count(n, d, r) == Count(m, d, r)
    ensures SameBalance(m, refs, n, after, d) && Counted(n, after, d)
  {
    forall f | f in after ensures Balance(n, after, d, f) >= 0 {
      assert Balance(m, refs, d, f) >= 0;
    }
  }

  // ----- a leaf -----

  /** m with the leaf entry for va replaced. */
  function LeafSet(m: Mem, root: Ppn, va: nat, e: Pte): Mem {
    var q := TableAt(m, 2, root, va, 0);
    if q.Some? && q.value in m && |m[q.value]| == ENTRIES
    then m[q.value := m[q.value][Vpn(va, 0) := e]] else m
  }

  lemma LeafEntry(m: Mem, level: nat, p: Ppn, va: nat)
    requires Tree(m, level, p)
    ensures var q := TableAt(m, level, p, va, 0);
            && (q.Some? ==> q.value in m && |m[q.value]| == ENTRIES && m[q.value][Vpn(va, 0)] == Entry(m, level, p, va))
            && (q.None? ==> Entry(m, level, p, va) == ZERO)
  {
    if level > 0 && m[p][Vpn(va, level)].perm.v {
      ChildTree(m, level, m[p], Vpn(va, level));
      LeafEntry(m, level - 1, m[p][Vpn(va, level)].ppn, va);
    }
  }

  lemma LeafIs(m: Mem, root: Ppn, va: nat, e: Pte)
    requires Tree(m, 2, root) && TableAt(m, 2, root, va, 0).Some?
    ensures var n := LeafSet(m, root, va, e);
            Writes(m, n, 2, root, va, 0, e, {}) && Only(m, n, TableAt(m, 2, root, va, 0).value, {})
  {
    TableAtIn(m, 2, root, va, 0);
  }

  /** Writing a leaf changes the flat map of its directory at this page alone, and the uses of the two frames
      concerned. */
  lemma LeafWrites(m: Mem, root: Ppn, va: nat, e: Pte)
    requires Tree(m, 2, root) && TableAt(m, 2, root, va, 0).Some?
    ensures var n := LeafSet(m, root, va, e);
            && Tree(n, 2, root) && Tables(n, 2, root) == Tables(m, 2, root)
            && (forall f :: Uses(n, 2, root, f) == Uses(m, 2, root, f) + Named(e, f) - Named(Entry(m, 2, root, va), f))
            && (forall vb :: Entry(n, 2, root, vb) == if SameIndex(va, vb, 2, 0) then e else Entry(m, 2, root, vb))
  {
    var n := LeafSet(m, root, va, e);
    LeafIs(m, root, va, e);
    LeafEntry(m, 2, root, va);
    forall f ensures Uses(n, 2, root, f) == Uses(m, 2, root, f) + Named(e, f) - Named(Entry(m, 2, root, va), f) {
      WriteAt(m, n, 2, root, va, 0, e, {}, f, va);
    }
    forall vb ensures Entry(n, 2, root, vb) == if SameIndex(va, vb, 2, 0) then e else Entry(m, 2, root, vb) {
      WriteAt(m, n, 2, root, va, 0, e, {}, 0, vb);
    }
    WriteAt(m, n, 2, root, va, 0, e, {}, 0, va);
    WriteCovers(m, n, 2, root, va, 0, e, {});
  }

  /** All directories: those that share the root entry of va see the page of va at e; nothing else changes. */
  ghost predicate Follows(m: Mem, n: Mem, d: Dirs, root: Ppn, va: nat, e: Pte)
    requires root in d.roots && forall r :: r in d.roots ==> IsPage(m, r)
  {
    forall o, vb :: o in d.roots ==>
      Entry(n, 2, o, vb) == if Reaches(m, root, o, va) && SameIndex(va, vb, 2, 0) then e else Entry(m, 2, o, vb)
  }

  lemma LeafForest(m: Mem, d: Dirs, root: Ppn, va: nat, e: Pte)
    requires Forest(m, d) && root in d.roots && TableAt(m, 2, root, va, 0).Some?
    ensures var n := LeafSet(m, root, va, e);
            && Forest(n, d) && (CountedOnce(m, d) ==> CountedOnce(n, d)) && Follows(m, n, d, root, va, e)
            && ReachSame(m, n, d, root, va) && (forall f :: IsTable(n, d, f) <==> IsTable(m, d, f))
            && (forall o :: o in d.roots ==> Tables(n, 2, o) == Tables(m, 2, o) && n[o] == m[o])
  {
    var n := LeafSet(m, root, va, e);
    LeafIs(m, root, va, e);
    ForestKept(m, n, d, root, va, 0, e, {});
    forall o, vb | o in d.roots
      ensures Entry(n, 2, o, vb) == if Reaches(m, root, o, va) && SameIndex(va, vb, 2, 0) then e else Entry(m, 2, o, vb)
    {
      WriteSeen(m, n, root, o, va, 0, e, {});
      if Reaches(m, root, o, va) { WriteAt(m, n, 2, o, va, 0, e, {}, 0, vb); } else { TreeSame(m, n, 2, o, 0, vb); }
    }
    forall o | o in d.roots ensures Tables(n, 2, o) == Tables(m, 2, o) && n[o] == m[o] {
      assert Effect(m, n, root, o, va, {});
    }
    forall f ensures IsTable(n, d, f) <==> IsTable(m, d, f) {
      LowTables(m, n, d, root, va, {}, f);
    }
  }

  lemma OnlyOwner(m: Mem, d: Dirs, root: Ppn, va: nat, w: Ppn, r: Ppn)
    requires Forest(m, d) && CountedOnce(m, d) && root in d.roots && w in d.roots && r in d.roots
    requires Reaches(m, root, w, va) && (w, PageOf(va)) !in d.uncounted
    requires Reaches(m, root, r, va) && (r, PageOf(va)) !in d.uncounted
    ensures r == w
  {
    SlotIs(va);
  }

  /** The count of a frame follows the page of va, which one directory counts. */
  lemma LeafCounts(m: Mem, n: Mem, d: Dirs, root: Ppn, va: nat, e: Pte, f: Ppn)
    requires Forest(m, d) && CountedOnce(m, d) && root in d.roots && Owned(m, d, root, va) && Follows(m, n, d, root, va, e)
    ensures Count(n, d, f) == Count(m, d, f) + Named(e, f) - Named(Entry(m, 2, root, va), f)
  {
    var w :| w in d.roots && Reaches(m, root, w, va) && (w, PageOf(va)) !in d.uncounted;
    SlotIs(va);
    forall r, pg | r in d.roots && 0 <= pg < PAGES && (r, pg) !in d.uncounted && (r, pg) != (w, PageOf(va))
      ensures At(n, r, pg) == At(m, r, pg)
    {
      PageAddr(pg);
      SamePageOf(va, AddrOf(pg));
      if Reaches(m, root, r, va) && pg == PageOf(va) { OnlyOwner(m, d, root, va, w, r); }
    }
    OnePageCounts(m, n, d, w, PageOf(va), f);
    AtAddr(m, w, va);
    AtAddr(n, w, va);
    SamePageOf(va, va);
    assert Entry(m, 2, w, va) == Entry(m, 2, root, va);
  }

  /** One reference less, or more, on a frame of the memory banks. */
  function Released(refs: map<Ppn, nat>, f: Ppn): map<Ppn, nat> {
    if f in refs && refs[f] > 0 then refs[f := refs[f] - 1] else refs
  }

  function Acquired(refs: map<Ppn, nat>, f: Ppn): map<Ppn, nat> {
    if f in refs then refs[f := refs[f] + 1] else refs
  }

  /** A frame whose count and references change alike. */
  lemma MovedBalance(m: Mem, refs: map<Ppn, nat>, n: Mem, after: map<Ppn, nat>, d: Dirs, f: Ppn)
    requires f in refs && f in after && after[f] + Count(m, d, f) == refs[f] + Count(n, d, f)
    requires IsTable(n, d, f) <==> IsTable(m, d, f)
    ensures Balance(n, after, d, f) == Balance(m, refs, d, f)
  {
  }

  /** The frame of a counted page has a reference, and is no directory. */
  lemma MappedReferenced(m: Mem, refs: map<Ppn, nat>, d: Dirs, root: Ppn, va: nat)
    requires Forest(m, d) && Counted(m, refs, d) && root in d.roots && Owned(m, d, root, va) && Flat(m, root, va).Some?
    ensures var f := Entry(m, 2, root, va).ppn; f !in d.roots && (f in refs ==> refs[f] > 0)
  {
    var f := Entry(m, 2, root, va).ppn;
    OwnedUsed(m, d, root, va);
    if f in refs { assert Balance(m, refs, d, f) >= 0; }
  }

  lemma UnmapCounts(m: Mem, refs: map<Ppn, nat>, n: Mem, after: map<Ppn, nat>, d: Dirs, was: Pte)
    requires Counted(m, refs, d) && was.perm.v && was.ppn !in d.roots && (was.ppn in refs ==> refs[was.ppn] > 0)
    requires after == Released(refs, was.ppn) && (forall f :: IsTable(n, d, f) <==> IsTable(m, d, f))
    requires forall g :: Count(n, d, g) == Count(m, d, g) - Named(was, g)
    ensures SameBalance(m, refs, n, after, d) && Counted(n, after, d)
  {
    forall g | g in refs ensures Balance(n, after, d, g) == Balance(m, refs, d, g) {
      MovedBalance(m, refs, n, after, d, g);
    }
    BalanceKeeps(m, refs, n, after, d);
  }

  /** Clearing a leaf of a counted page drops one reference, which its frame has. */
  lemma UnmapKeeps(m: Mem, refs: map<Ppn, nat>, d: Dirs, root: Ppn, va: nat, after: map<Ppn, nat>)
    requires Forest(m, d) && CountedOnce(m, d) && Counted(m, refs, d) && root in d.roots && Owned(m, d, root, va)
    requires Flat(m, root, va).Some? && after == Released(refs, Entry(m, 2, root, va).ppn)
    ensures var n := LeafSet(m, root, va, ZERO);
            var f := Entry(m, 2, root, va).ppn;
            && (f in refs ==> refs[f] > 0) && f !in d.roots
            && Forest(n, d) && CountedOnce(n, d) && SameBalance(m, refs, n, after, d) && Counted(n, after, d)
            && Follows(m, n, d, root, va, ZERO) && ReachSame(m, n, d, root, va)
  {
    var n := LeafSet(m, root, va, ZERO);
    LeafEntry(m, 2, root, va);
    LeafForest(m, d, root, va, ZERO);
    MappedReferenced(m, refs, d, root, va);
    forall g ensures Count(n, d, g) == Count(m, d, g) - Named(Entry(m, 2, root, va), g) {
      LeafCounts(m, n, d, root, va, ZERO, g);
    }
    UnmapCounts(m, refs, n, after, d, Entry(m, 2, root, va));
  }

  lemma MapCounts(m: Mem, refs: map<Ppn, nat>, n: Mem, after: map<Ppn, nat>, d: Dirs, e: Pte)
    requires Counted(m, refs, d) && e.perm.v && e.ppn !in d.roots && after == Acquired(refs, e.ppn)
    requires forall f :: IsTable(n, d, f) <==> IsTable(m, d, f)
    requires forall g :: Count(n, d, g) == Count(m, d, g) + Named(e, g)
    ensures SameBalance(m, refs, n, after, d) && Counted(n, after, d)
  {
    forall g | g in refs ensures Balance(n, after, d, g) == Balance(m, refs, d, g) {
      MovedBalance(m, refs, n, after, d, g);
    }
    BalanceKeeps(m, refs, n, after, d);
  }

  /** Setting a leaf of a counted page adds one. */
  lemma MapKeeps(m: Mem, refs: map<Ppn, nat>, d: Dirs, root: Ppn, va: nat, e: Pte, after: map<Ppn, nat>)
    requires Forest(m, d) && CountedOnce(m, d) && Counted(m, refs, d) && root in d.roots && Owned(m, d, root, va)
    requires TableAt(m, 2, root, va, 0).Some? && Flat(m, root, va).None? && e.perm.v && e.ppn !in d.roots
    requires after == Acquired(refs, e.ppn)
    ensures var n := LeafSet(m, root, va, e);
            && Forest(n, d) && CountedOnce(n, d) && SameBalance(m, refs, n, after, d) && Counted(n, after, d)
            && Follows(m, n, d, root, va, e) && ReachSame(m, n, d, root, va)
  {
    var n := LeafSet(m, root, va, e);
    LeafForest(m, d, root, va, e);
    forall g ensures Count(n, d, g) == Count(m, d, g) + Named(e, g) {
      LeafCounts(m, n, d, root, va, e, g);
    }
    MapCounts(m, refs, n, after, d, e);
  }

  // ----- the directories of partitions -----

  /** The pages behind valid root entries of the kernel, in another directory. */
  ghost function Copies(m: Mem, kern: Ppn, p: Ppn): set<(Ppn, nat)>
    requires IsPage(m, kern)
  {
    set pg | 0 <= pg < PAGES && m[kern][SlotOf(pg)].perm.v :: (p, pg)
  }

  /** The directories with the new one p, whose copied pages the kernel's directory goes on counting. */
  ghost function Joined(m: Mem, d: Dirs, kern: Ppn, p: Ppn): Dirs
    requires IsPage(m, kern)
  {
    Dirs(d.roots + {p}, d.uncounted + Copies(m, kern, p))
  }

  /** part_alloc: the copy of the kernel's directory maps what that maps, and no count changes. */
  lemma CopyKeeps(m: Mem, refs: map<Ppn, nat>, d: Dirs, kern: Ppn, p: Ppn)
    requires Forest(m, d) && CountedOnce(m, d) && Counted(m, refs, d) && kern in d.roots
    requires p in refs && refs[p] == 0 && p !in d.roots
    ensures var n, e := m[p := m[kern]], Joined(m, d, kern, p);
            && Forest(n, e) && CountedOnce(n, e) && Counted(n, refs, e)
            && (forall f :: f in refs ==> Balance(n, refs, e, f) == Balance(m, refs, d, f))
            && (forall vb :: Entry(n, 2, p, vb) == Entry(m, 2, kern, vb))
            && (forall o, vb :: o in d.roots ==> Entry(n, 2, o, vb) == Entry(m, 2, o, vb))
  {
    var n, e := m[p := m[kern]], Joined(m, d, kern, p);
    UnusedFrame(m, refs, d, p);
    CopyForest(m, n, d, kern, p, e);
    CopyEntries(m, n, d, kern, p);
    CopyOnce(m, n, d, kern, p, e);
    CopyUses(m, n, d, kern, p, e);
    StillCounted(m, refs, n, d, e);
  }

  lemma CopyEntries(m: Mem, n: Mem, d: Dirs, kern: Ppn, p: Ppn)
    requires Forest(m, d) && kern in d.roots && p !in d.roots && n == m[p := m[kern]]
    requires forall o :: o in d.roots ==> Agree(m, n, Tables(m, 2, o))
    ensures forall vb :: Entry(n, 2, p, vb) == Entry(m, 2, kern, vb)
    ensures forall o, vb :: o in d.roots ==> Entry(n, 2, o, vb) == Entry(m, 2, o, vb)
  {
    forall o, vb | o in d.roots ensures Entry(n, 2, o, vb) == Entry(m, 2, o, vb) {
      TreeSame(m, n, 2, o, 0, vb);
    }
    forall vb ensures Entry(n, 2, p, vb) == Entry(m, 2, kern, vb) {
      TreeSame(m, n, 2, kern, 0, vb);
      assert n[p] == n[kern];
    }
  }

  lemma CopyOnce(m: Mem, n: Mem, d: Dirs, kern: Ppn, p: Ppn, e: Dirs)
    requires Forest(m, d) && CountedOnce(m, d) && kern in d.roots && p !in d.roots && n == m[p := m[kern]]
    requires e == Joined(m, d, kern, p) && Forest(n, e)
    ensures CountedOnce(n, e)
  {
    forall r, o, pg | r in e.roots && o in e.roots && r != o && 0 <= pg < PAGES && Alike(n, r, o, SlotOf(pg))
      ensures (r, pg) in e.uncounted || (o, pg) in e.uncounted
    {
      if r != p && o != p { assert Alike(m, r, o, SlotOf(pg)); }
    }
  }

  lemma CopyUses(m: Mem, n: Mem, d: Dirs, kern: Ppn, p: Ppn, e: Dirs)
    requires Forest(m, d) && kern in d.roots && p !in d.roots && n == m[p := m[kern]] && e == Joined(m, d, kern, p)
    requires forall vb :: Entry(n, 2, p, vb) == Entry(m, 2, kern, vb)
    requires forall o, vb :: o in d.roots ==> Entry(n, 2, o, vb) == Entry(m, 2, o, vb)
    ensures forall f :: Count(n, e, f) == Count(m, d, f)
  {
    forall f ensures PagesAt(n, e, f) == PagesAt(m, d, f) {
      forall r, pg | r in e.roots && 0 <= pg < PAGES ensures (r, pg) in PagesAt(n, e, f) <==> (r, pg) in PagesAt(m, d, f) {
        if r == p && (p, pg) !in e.uncounted { BehindInvalid(m, kern, pg); }
      }
    }
    SameCounts(m, n, d, e);
  }

  /** The pages behind one root entry. */
  ghost function Behind(p: Ppn, i: nat): set<(Ppn, nat)> {
    set pg | 0 <= pg < PAGES && SlotOf(pg) == i :: (p, pg)
  }

  /** part_pt_sync_kern_pgdir, one entry: the directory maps behind it what the kernel's maps, and no count changes. */
  lemma SyncKeeps(m: Mem, refs: map<Ppn, nat>, d: Dirs, kern: Ppn, p: Ppn, i: nat)
    requires Forest(m, d) && CountedOnce(m, d) && Counted(m, refs, d) && kern in d.roots && p in d.roots && kern != p
    requires i < ENTRIES && m[kern][i].perm.v && !m[p][i].perm.v
    ensures var n, e := m[p := m[p][i := m[kern][i]]], Dirs(d.roots, d.uncounted + Behind(p, i));
            && Forest(n, e) && CountedOnce(n, e) && Counted(n, refs, e)
            && (forall f :: f in refs ==> Balance(n, refs, e, f) == Balance(m, refs, d, f))
            && (forall vb :: Entry(n, 2, p, vb) == if Vpn(vb, 2) == i then Entry(m, 2, kern, vb) else Entry(m, 2, p, vb))
            && (forall o, vb :: o in d.roots && o != p ==> Entry(n, 2, o, vb) == Entry(m, 2, o, vb))
  {
    var n, e := m[p := m[p][i := m[kern][i]]], Dirs(d.roots, d.uncounted + Behind(p, i));
    SyncForest(m, n, d, kern, p, i);
    SyncedTree(m, n, kern, p, i);
    forall o, vb | o in d.roots && o != p ensures Entry(n, 2, o, vb) == Entry(m, 2, o, vb) {
      TreeSame(m, n, 2, o, 0, vb);
    }
    SyncOnce(m, n, d, kern, p, i, e);
    SyncUses(m, n, d, kern, p, i, e);
    forall f ensures IsTable(n, e, f) <==> IsTable(m, d, f) {
      SameRoots(n, d, e, f);
    }
    StillCounted(m, refs, n, d, e);
  }

  lemma SameRoots(n: Mem, d: Dirs, e: Dirs, f: Ppn)
    requires d.roots == e.roots
    ensures IsTable(n, e, f) == IsTable(n, d, f)
  {
  }

  /** Directories added or changed without any count or table. */
  lemma StillCounted(m: Mem, refs: map<Ppn, nat>, n: Mem, d: Dirs, e: Dirs)
    requires Counted(m, refs, d) && (forall f :: Count(n, e, f) == Count(m, d, f))
    requires forall f :: IsTable(n, e, f) <==> IsTable(m, d, f)
    requires forall r :: r in e.roots && r !in d.roots ==> Count(m, d, r) == 0
    ensures Counted(n, refs, e) && forall f :: f in refs ==> Balance(n, refs, e, f) == Balance(m, refs, d, f)
  {
    forall f | f in refs ensures Balance(n, refs, e, f) == Balance(m, refs, d, f) >= 0 {
    }
  }

  lemma SyncOnce(m: Mem, n: Mem, d: Dirs, kern: Ppn, p: Ppn, i: nat, e: Dirs)
    requires Forest(m, d) && CountedOnce(m, d) && kern in d.roots && p in d.roots && i < ENTRIES
    requires n == m[p := m[p][i := m[kern][i]]] && e == Dirs(d.roots, d.uncounted + Behind(p, i)) && Forest(n, d)
    ensures Forest(n, e) && CountedOnce(n, e)
  {
    forall r, o, pg | r in e.roots && o in e.roots && r != o && 0 <= pg < PAGES && Alike(n, r, o, SlotOf(pg))
      ensures (r, pg) in e.uncounted || (o, pg) in e.uncounted
    {
      if SlotOf(pg) != i || (r != p && o != p) { assert Alike(m, r, o, SlotOf(pg)); }
    }
  }

  lemma SyncUses(m: Mem, n: Mem, d: Dirs, kern: Ppn, p: Ppn, i: nat, e: Dirs)
    requires Forest(m, d) && p in d.roots && i < ENTRIES && !m[p][i].perm.v && e == Dirs(d.roots, d.uncounted + Behind(p, i))
    requires forall vb :: Entry(n, 2, p, vb) == if Vpn(vb, 2) == i then Entry(m, 2, kern, vb) else Entry(m, 2, p, vb)
    requires forall o, vb :: o in d.roots && o != p ==> Entry(n, 2, o, vb) == Entry(m, 2, o, vb)
    ensures forall f :: Count(n, e, f) == Count(m, d, f)
  {
    forall f ensures PagesAt(n, e, f) == PagesAt(m, d, f) {
      forall r, pg | r in e.roots && 0 <= pg < PAGES ensures (r, pg) in PagesAt(n, e, f) <==> (r, pg) in PagesAt(m, d, f) {
        PageAddr(pg);
        if r == p && SlotOf(pg) == i { BehindInvalid(m, p, pg); }
      }
    }
    SameCounts(m, n, d, e);
  }
}
