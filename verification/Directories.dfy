/** The kernel's page directory and those of the partitions, which begin as copies of it: directories that share the
    tables behind equal root entries and nothing else, and what a write below one of them means for all. */
module Directories {
  import opened Common
  import opened PageTree

  // ----- pages -----

  const PAGES: nat := 0x800_0000

  /** The number of the page of an address, as the tree indexes it. */
  function PageOf(va: nat): (pg: nat)
    ensures pg < PAGES
  {
    (Vpn(va, 2) * 512 + Vpn(va, 1)) * 512 + Vpn(va, 0)
  }

  function AddrOf(pg: nat): nat { pg * 0x1000 }

  /** The root entry a page lies behind. */
  function SlotOf(pg: nat): (i: nat)
    requires pg < PAGES
    ensures i < ENTRIES
  {
    pg / 0x4_0000
  }

  lemma PageAddr(pg: nat)
    requires pg < PAGES
    ensures PageOf(AddrOf(pg)) == pg && Vpn(AddrOf(pg), 2) == SlotOf(pg)
  {
    Recompose(AddrOf(pg));
  }

  lemma SlotIs(va: nat)
    ensures SlotOf(PageOf(va)) == Vpn(va, 2)
  {
  }

  lemma SamePageOf(va: nat, vb: nat)
    ensures PageOf(va) == PageOf(vb) <==> SameIndex(va, vb, 2, 0)
  {
    assert SameIndex(va, vb, 1, 0) <==> Vpn(va, 1) == Vpn(vb, 1) && Vpn(va, 0) == Vpn(vb, 0);
  }

  lemma {:induction false} SameEntry(m: Mem, level: nat, p: Ppn, va: nat, vb: nat)
    requires SameIndex(va, vb, level, 0)
    ensures Entry(m, level, p, va) == Entry(m, level, p, vb)
  {
    if level > 0 && p in m && |m[p]| == ENTRIES { SameEntry(m, level - 1, m[p][Vpn(va, level)].ppn, va, vb); }
  }

  /** The leaf entry of a page. */
  function At(m: Mem, r: Ppn, pg: nat): Pte {
    Entry(m, 2, r, AddrOf(pg))
  }

  lemma AtAddr(m: Mem, r: Ppn, va: nat)
    ensures At(m, r, PageOf(va)) == Entry(m, 2, r, va)
  {
    PageAddr(PageOf(va));
    SamePageOf(va, AddrOf(PageOf(va)));
    SameEntry(m, 2, r, va, AddrOf(PageOf(va)));
  }

  /** A page behind an invalid root entry is not mapped. */
  lemma BehindInvalid(m: Mem, r: Ppn, pg: nat)
    requires pg < PAGES && r in m && |m[r]| == ENTRIES && !m[r][SlotOf(pg)].perm.v
    ensures At(m, r, pg) == ZERO
  {
    PageAddr(pg);
  }

  // ----- directories that share tables -----

  /** The directories, and the pages of each whose mappings are not counted: those mapped at boot, and those behind
      a root entry that is a copy of the kernel's. */
  datatype Dirs = Dirs(roots: set<Ppn>, uncounted: set<(Ppn, nat)>)

  predicate IsPage(m: Mem, p: Ppn) {
    p in m && |m[p]| == ENTRIES
  }

  /** The same valid root entry. */
  predicate Alike(m: Mem, r: Ppn, o: Ppn, i: nat)
    requires IsPage(m, r) && IsPage(m, o) && i < ENTRIES
  {
    m[r][i] == m[o][i] && m[r][i].perm.v
  }

  /** Behind each root entry of r lies what o has behind its own, or nothing that belongs to o. */
  ghost predicate Shared(m: Mem, r: Ppn, o: Ppn)
    requires IsPage(m, r) && IsPage(m, o)
  {
    && r !in Tables(m, 2, o)
    && forall i :: 0 <= i < ENTRIES ==> m[r][i] == m[o][i] || Child(m, 2, m[r][i]) !! Tables(m, 2, o)
  }

  ghost predicate Forest(m: Mem, d: Dirs) {
    && (forall r :: r in d.roots ==> Tree(m, 2, r))
    && (forall r, o :: r in d.roots && o in d.roots && r != o ==> Shared(m, r, o))
  }

  /** Behind a shared root entry at most one directory counts a page. */
  ghost predicate CountedOnce(m: Mem, d: Dirs)
    requires Forest(m, d)
  {
    forall r, o, pg :: r in d.roots && o in d.roots && r != o && 0 <= pg < PAGES && Alike(m, r, o, SlotOf(pg)) ==>
      (r, pg) in d.uncounted || (o, pg) in d.uncounted
  }

  /** The table is named by an entry below some directory. */
  ghost predicate IsTable(m: Mem, d: Dirs, t: Ppn) {
    exists r :: r in d.roots && IsBelow(m, r, t)
  }

  ghost predicate IsBelow(m: Mem, r: Ppn, t: Ppn) {
    IsPage(m, r) && t in TablesOf(m, 2, m[r])
  }

  // ----- small facts about trees -----

  lemma {:induction false} TablesPresent(m: Mem, level: nat, p: Ppn)
    requires Tree(m, level, p)
    ensures forall t :: t in Tables(m, level, p) ==> t in m
    decreases level, 1, 0
  {
    if level > 0 { EntriesPresent(m, level, m[p]); }
  }

  lemma {:induction false} EntriesPresent(m: Mem, level: nat, es: seq<Pte>)
    requires level > 0 && TreeOf(m, level, es)
    ensures forall t :: t in TablesOf(m, level, es) ==> t in m
    decreases level, 0, |es|
  {
    if es != [] {
      if es[0].perm.v { TablesPresent(m, level - 1, es[0].ppn); }
      EntriesPresent(m, level, es[1..]);
    }
  }

  lemma {:induction false} ChildrenApart(m: Mem, level: nat, es: seq<Pte>, i: nat, j: nat)
    requires level > 0 && i < |es| && j < |es| && i != j && TreeOf(m, level, es)
    ensures Child(m, level, es[i]) !! Child(m, level, es[j])
    decreases |es|
  {
    if i == 0 {
      ChildIn(m, level, es[1..], j - 1);
    } else if j == 0 {
      ChildIn(m, level, es[1..], i - 1);
    } else {
      ChildrenApart(m, level, es[1..], i - 1, j - 1);
    }
  }

  lemma {:induction false} ReplacedCovers(m: Mem, n: Mem, level: nat, es: seq<Pte>, i: nat, e2: Pte)
    requires level > 0 && i < |es| && TreeOf(m, level, es) && Child(m, level, es[i]) <= Child(n, level, e2)
    requires Agree(m, n, TablesOf(m, level, es) - Child(m, level, es[i]))
    ensures TablesOf(m, level, es) <= TablesOf(n, level, es[i := e2]) && Child(n, level, e2) <= TablesOf(n, level, es[i := e2])
    decreases i
  {
    var rest := es[1..];
    if i == 0 {
      assert es[i := e2][1..] == rest;
      EntriesSame(m, n, level, rest, 0, 0);
    } else {
      ChildIn(m, level, rest, i - 1);
      ReplacedCovers(m, n, level, rest, i - 1, e2);
      assert es[i := e2][1..] == rest[i - 1 := e2];
      HeadSame(m, n, level, es[0], 0, 0);
    }
  }

  /** A write takes no table away, and adds those behind the new entry. */
  lemma {:induction false} WriteCovers(m: Mem, n: Mem, level: nat, p: Ppn, va: nat, stop: nat, e2: Pte, ts: set<Ppn>)
    requires Writes(m, n, level, p, va, stop, e2, ts)
    ensures Tables(m, level, p) <= Tables(n, level, p)
    ensures stop > 0 ==> Child(n, stop, e2) <= Tables(n, level, p)
  {
    var i := Vpn(va, level);
    if level > stop {
      var e := m[p][i];
      ChildIn(m, level, m[p], i);
      ChildTree(m, level, m[p], i);
      TableAtIn(m, level, p, va, stop);
      TableAtIn(m, level - 1, e.ppn, va, stop);
      WriteCovers(m, n, level - 1, e.ppn, va, stop, e2, ts);
      assert n[p] == m[p][i := e];
      WriteBelow(m, n, level, p, i, TableAt(m, level, p, va, stop).value);
      ReplacedCovers(m, n, level, m[p], i, e);
    } else if level > 0 {
      ReplacedCovers(m, n, level, m[p], i, e2);
    }
  }

  // ----- one write, all directories -----

  /** Nothing but page q and the pages ts changed. */
  ghost predicate Only(m: Mem, n: Mem, q: Ppn, ts: set<Ppn>) {
    forall p :: p in m && p != q && p !in ts ==> p in n && n[p] == m[p]
  }

  /** Directory o reaches what root reaches for va. */
  predicate Reaches(m: Mem, root: Ppn, o: Ppn, va: nat)
    requires IsPage(m, root) && IsPage(m, o)
  {
    o == root || Alike(m, root, o, Vpn(va, 2))
  }

  /** A write below a root entry that o shares is a write below o; any other one leaves the tables of o alone. */
  lemma WriteSeen(m: Mem, n: Mem, root: Ppn, o: Ppn, va: nat, stop: nat, e2: Pte, ts: set<Ppn>)
    requires Tree(m, 2, root) && Tree(m, 2, o) && (o != root ==> Shared(m, root, o)) && stop < 2
    requires Writes(m, n, 2, root, va, stop, e2, ts) && ts !! Tables(m, 2, o)
    requires Only(m, n, TableAt(m, 2, root, va, stop).value, ts)
    ensures Reaches(m, root, o, va) ==> Writes(m, n, 2, o, va, stop, e2, ts)
    ensures !Reaches(m, root, o, va) ==> Agree(m, n, Tables(m, 2, o))
  {
    var q := TableAt(m, 2, root, va, stop).value;
    TablesPresent(m, 2, o);
    if !Reaches(m, root, o, va) {
      BelowSlot(m, root, va, stop);
      assert q !in Tables(m, 2, o);
    } else if o != root {
      assert TableAt(m, 2, o, va, stop) == TableAt(m, 2, root, va, stop);
    }
  }

  /** The table a walk reaches below the root lies behind the root entry. */
  lemma BelowSlot(m: Mem, r: Ppn, va: nat, stop: nat)
    requires Tree(m, 2, r) && stop < 2 && TableAt(m, 2, r, va, stop).Some?
    ensures TableAt(m, 2, r, va, stop).value in Child(m, 2, m[r][Vpn(va, 2)]) && TableAt(m, 2, r, va, stop).value != r
    ensures m[r][Vpn(va, 2)].perm.v
  {
    var e := m[r][Vpn(va, 2)];
    ChildIn(m, 2, m[r], Vpn(va, 2));
    ChildTree(m, 2, m[r], Vpn(va, 2));
    TableAtIn(m, 1, e.ppn, va, stop);
  }

  /** What a write below root does to the tables of o and behind each of its root entries. */
  ghost predicate Effect(m: Mem, n: Mem, root: Ppn, o: Ppn, va: nat, ts: set<Ppn>)
    requires IsPage(m, root) && IsPage(m, o)
  {
    && Tree(n, 2, o) && n[o] == m[o]
    && Tables(m, 2, o) <= Tables(n, 2, o) <= Tables(m, 2, o) + (if Reaches(m, root, o, va) then ts else {})
    && forall j :: 0 <= j < ENTRIES ==> Child(n, 2, m[o][j]) <= Child(m, 2, m[o][j]) + Gained(m, root, o, va, ts, j)
  }

  ghost function Gained(m: Mem, root: Ppn, o: Ppn, va: nat, ts: set<Ppn>, j: nat): set<Ppn>
    requires IsPage(m, root) && IsPage(m, o)
  {
    if Reaches(m, root, o, va) && j == Vpn(va, 2) then ts else {}
  }

  lemma SlotAfter(m: Mem, n: Mem, o: Ppn, va: nat, stop: nat, e2: Pte, ts: set<Ppn>, j: nat)
    requires Writes(m, n, 2, o, va, stop, e2, ts) && stop < 2 && j < ENTRIES
    ensures Child(n, 2, m[o][j]) <= Child(m, 2, m[o][j]) + if j == Vpn(va, 2) then ts else {}
  {
    var i := Vpn(va, 2);
    var q := TableAt(m, 2, o, va, stop).value;
    BelowSlot(m, o, va, stop);
    ChildIn(m, 2, m[o], j);
    if j == i {
      ChildTree(m, 2, m[o], i);
      WriteAt(m, n, 1, m[o][i].ppn, va, stop, e2, ts, 0, 0);
    } else {
      ChildrenApart(m, 2, m[o], i, j);
      HeadSame(m, n, 2, m[o][j], 0, 0);
    }
  }

  lemma EffectOn(m: Mem, n: Mem, root: Ppn, o: Ppn, va: nat, stop: nat, e2: Pte, ts: set<Ppn>)
    requires Tree(m, 2, root) && Tree(m, 2, o) && (o != root ==> Shared(m, root, o) && Shared(m, o, root)) && stop < 2
    requires Writes(m, n, 2, root, va, stop, e2, ts) && ts !! Tables(m, 2, o)
    requires Only(m, n, TableAt(m, 2, root, va, stop).value, ts)
    ensures Effect(m, n, root, o, va, ts)
  {
    WriteSeen(m, n, root, o, va, stop, e2, ts);
    RootStays(m, n, root, o, va, stop, ts);
    if Reaches(m, root, o, va) {
      WriteAt(m, n, 2, o, va, stop, e2, ts, 0, 0);
      WriteCovers(m, n, 2, o, va, stop, e2, ts);
      forall j | 0 <= j < ENTRIES ensures Child(n, 2, m[o][j]) <= Child(m, 2, m[o][j]) + Gained(m, root, o, va, ts, j) {
        SlotAfter(m, n, o, va, stop, e2, ts, j);
      }
    } else {
      TreeSame(m, n, 2, o, 0, 0);
      forall j | 0 <= j < ENTRIES ensures Child(n, 2, m[o][j]) <= Child(m, 2, m[o][j]) + Gained(m, root, o, va, ts, j) {
        ChildIn(m, 2, m[o], j);
        HeadSame(m, n, 2, m[o][j], 0, 0);
      }
    }
  }

  lemma RootStays(m: Mem, n: Mem, root: Ppn, o: Ppn, va: nat, stop: nat, ts: set<Ppn>)
    requires Tree(m, 2, root) && Tree(m, 2, o) && stop < 2 && TableAt(m, 2, root, va, stop).Some? && (o != root ==> Shared(m, o, root))
    requires Only(m, n, TableAt(m, 2, root, va, stop).value, ts) && ts !! Tables(m, 2, o)
    ensures o in n && n[o] == m[o]
  {
    BelowSlot(m, root, va, stop);
    TableAtIn(m, 2, root, va, stop);
  }

  /** Two directories that share tables go on doing so. */
  lemma SharedKept(m: Mem, n: Mem, root: Ppn, r: Ppn, o: Ppn, va: nat, ts: set<Ppn>)
    requires IsPage(m, root) && Tree(m, 2, r) && Tree(m, 2, o) && Shared(m, r, o)
    requires Effect(m, n, root, r, va, ts) && Effect(m, n, root, o, va, ts)
    requires ts !! Tables(m, 2, r) && ts !! Tables(m, 2, o)
    ensures Shared(n, r, o)
  {
    forall j | 0 <= j < ENTRIES ensures n[r][j] == n[o][j] || Child(n, 2, n[r][j]) !! Tables(n, 2, o) {
      if m[r][j] != m[o][j] {
        ChildIn(m, 2, m[r], j);
        assert Child(n, 2, m[r][j]) <= Child(m, 2, m[r][j]) + Gained(m, root, r, va, ts, j);
      }
    }
  }

  /** A write below a root entry of one directory keeps all of them trees that share tables. */
  lemma ForestKept(m: Mem, n: Mem, d: Dirs, root: Ppn, va: nat, stop: nat, e2: Pte, ts: set<Ppn>)
    requires Forest(m, d) && root in d.roots && stop < 2 && Writes(m, n, 2, root, va, stop, e2, ts)
    requires Only(m, n, TableAt(m, 2, root, va, stop).value, ts)
    requires forall r :: r in d.roots ==> ts !! Tables(m, 2, r)
    ensures Forest(n, d) && forall r :: r in d.roots ==> Effect(m, n, root, r, va, ts)
  {
    forall r | r in d.roots ensures Effect(m, n, root, r, va, ts) {
      EffectOn(m, n, root, r, va, stop, e2, ts);
    }
    forall r, o | r in d.roots && o in d.roots && r != o ensures Shared(n, r, o) {
      SharedKept(m, n, root, r, o, va, ts);
    }
  }

  // ----- writes to a directory itself -----

  /** Directories that do not reach a changed page. */
  lemma Untouched(m: Mem, n: Mem, o: Ppn)
    requires Tree(m, 2, o) && Agree(m, n, Tables(m, 2, o))
    ensures Tree(n, 2, o) && n[o] == m[o] && Tables(n, 2, o) == Tables(m, 2, o)
    ensures forall j :: 0 <= j < ENTRIES ==> Child(n, 2, m[o][j]) == Child(m, 2, m[o][j])
    ensures forall vb :: Entry(n, 2, o, vb) == Entry(m, 2, o, vb)
  {
    TreeSame(m, n, 2, o, 0, 0);
    forall j | 0 <= j < ENTRIES ensures Child(n, 2, m[o][j]) == Child(m, 2, m[o][j]) {
      ChildIn(m, 2, m[o], j);
      HeadSame(m, n, 2, m[o][j], 0, 0);
    }
    forall vb ensures Entry(n, 2, o, vb) == Entry(m, 2, o, vb) {
      TreeSame(m, n, 2, o, 0, vb);
    }
  }

  lemma SharedStays(m: Mem, n: Mem, r: Ppn, o: Ppn)
    requires Tree(m, 2, r) && Tree(m, 2, o) && Shared(m, r, o)
    requires Agree(m, n, Tables(m, 2, r)) && Agree(m, n, Tables(m, 2, o))
    ensures IsPage(n, r) && IsPage(n, o) && Shared(n, r, o)
  {
    Untouched(m, n, r);
    Untouched(m, n, o);
  }

  /** The entries of a root but one, and the tables behind them, are as before. */
  lemma SlotsStay(m: Mem, n: Mem, r: Ppn, i: nat, e: Pte, j: nat)
    requires Tree(m, 2, r) && i < ENTRIES && j < ENTRIES && j != i && r in n && n[r] == m[r][i := e]
    requires Agree(m, n, TablesOf(m, 2, m[r]) - Child(m, 2, m[r][i]))
    ensures n[r][j] == m[r][j] && Child(n, 2, n[r][j]) == Child(m, 2, m[r][j])
  {
    ChildIn(m, 2, m[r], j);
    ChildrenApart(m, 2, m[r], i, j);
    HeadSame(m, n, 2, m[r][j], 0, 0);
  }

  /** A new table behind a root entry of root, seen with another directory. */
  lemma AttachedShared(m: Mem, n: Mem, root: Ppn, o: Ppn, i: nat, t: Ppn)
    requires Tree(m, 2, root) && Tree(m, 2, o) && root != o && Shared(m, root, o) && Shared(m, o, root)
    requires i < ENTRIES && !m[root][i].perm.v && t !in Tables(m, 2, root) && t !in Tables(m, 2, o)
    requires root in n && n[root] == m[root][i := Pointer(t)] && Child(n, 2, Pointer(t)) == {t}
    requires Only(m, n, root, {t}) && Tables(n, 2, root) <= Tables(m, 2, root) + {t}
    ensures IsPage(n, o) && Shared(n, root, o) && Shared(n, o, root)
  {
    TablesPresent(m, 2, o);
    TablesPresent(m, 2, root);
    Untouched(m, n, o);
    forall j | 0 <= j < ENTRIES ensures n[root][j] == n[o][j] || Child(n, 2, n[root][j]) !! Tables(n, 2, o) {
      if j != i { SlotsStay(m, n, root, i, Pointer(t), j); }
    }
    forall j | 0 <= j < ENTRIES ensures n[o][j] == n[root][j] || Child(n, 2, n[o][j]) !! Tables(n, 2, root) {
      ChildIn(m, 2, m[o], j);
    }
  }

  /** A new table behind a root entry keeps the forest, and leaves the other directories alone. */
  lemma RootAttached(m: Mem, n: Mem, d: Dirs, root: Ppn, va: nat, t: Ppn)
    requires Forest(m, d) && root in d.roots && (forall r :: r in d.roots ==> t !in Tables(m, 2, r))
    requires Writes(m, n, 2, root, va, 2, Pointer(t), {t}) && Child(n, 2, Pointer(t)) == {t} && Only(m, n, root, {t})
    ensures Forest(n, d) && forall o :: o in d.roots && o != root ==> Agree(m, n, Tables(m, 2, o))
  {
    WriteAt(m, n, 2, root, va, 2, Pointer(t), {t}, 0, 0);
    forall o | o in d.roots && o != root ensures Agree(m, n, Tables(m, 2, o)) && Shared(n, root, o) && Shared(n, o, root) && Tree(n, 2, o) {
      AttachedShared(m, n, root, o, Vpn(va, 2), t);
      TablesPresent(m, 2, o);
      Untouched(m, n, o);
    }
    forall r, o | r in d.roots && o in d.roots && r != o ensures Shared(n, r, o) {
      if r != root && o != root { SharedStays(m, n, r, o); }
    }
  }

  // ----- the copy of the kernel's directory -----

  lemma Copied(m: Mem, n: Mem, kern: Ppn, p: Ppn)
    requires Tree(m, 2, kern) && p !in Tables(m, 2, kern) && n == m[p := m[kern]]
    ensures Tree(n, 2, p) && Tables(n, 2, p) == {p} + TablesOf(m, 2, m[kern]) && TablesOf(n, 2, n[p]) == TablesOf(m, 2, m[kern])
    ensures forall j :: 0 <= j < ENTRIES ==> Child(n, 2, m[kern][j]) == Child(m, 2, m[kern][j])
  {
    EntriesSame(m, n, 2, m[kern], 0, 0);
    Untouched(m, n, kern);
  }

  lemma CopyShared(m: Mem, n: Mem, kern: Ppn, p: Ppn, o: Ppn)
    requires Tree(m, 2, kern) && Tree(m, 2, o) && (o != kern ==> Shared(m, kern, o) && Shared(m, o, kern))
    requires p !in Tables(m, 2, kern) && p !in Tables(m, 2, o) && n == m[p := m[kern]]
    ensures IsPage(n, p) && IsPage(n, o) && Shared(n, p, o) && Shared(n, o, p)
  {
    Copied(m, n, kern, p);
    Untouched(m, n, o);
    forall j | 0 <= j < ENTRIES ensures n[p][j] == n[o][j] || Child(n, 2, n[p][j]) !! Tables(n, 2, o) {
      assert o != kern ==> m[kern][j] == m[o][j] || Child(m, 2, m[kern][j]) !! Tables(m, 2, o);
    }
    forall j | 0 <= j < ENTRIES ensures n[o][j] == n[p][j] || Child(n, 2, n[o][j]) !! Tables(n, 2, p) {
      ChildIn(m, 2, m[o], j);
      assert o != kern ==> m[o][j] == m[kern][j] || Child(m, 2, m[o][j]) !! Tables(m, 2, kern);
    }
  }

  /** A page that is no table of any directory becomes one more directory. */
  lemma CopyForest(m: Mem, n: Mem, d: Dirs, kern: Ppn, p: Ppn, e: Dirs)
    requires Forest(m, d) && kern in d.roots && (forall r :: r in d.roots ==> p !in Tables(m, 2, r))
    requires n == m[p := m[kern]] && e.roots == d.roots + {p}
    ensures Forest(n, e) && (forall f :: IsTable(n, e, f) <==> IsTable(m, d, f))
    ensures forall o :: o in d.roots ==> o != p && Agree(m, n, Tables(m, 2, o))
  {
    Copied(m, n, kern, p);
    forall o | o in d.roots ensures o != p && Agree(m, n, Tables(m, 2, o)) && Tree(n, 2, o) && Shared(n, p, o) && Shared(n, o, p) {
      CopyShared(m, n, kern, p, o);
      Untouched(m, n, o);
    }
    forall r, o | r in e.roots && o in e.roots && r != o ensures Shared(n, r, o) {
      if r != p && o != p { SharedStays(m, n, r, o); }
    }
    forall f ensures IsTable(n, e, f) <==> IsTable(m, d, f) {
      CopyTables(m, n, d, kern, p, e, f);
    }
  }

  lemma CopyTables(m: Mem, n: Mem, d: Dirs, kern: Ppn, p: Ppn, e: Dirs, f: Ppn)
    requires kern in d.roots && e.roots == d.roots + {p} && p !in d.roots && Tree(m, 2, kern) && n == m[p := m[kern]]
    requires forall o :: o in d.roots ==> Tree(m, 2, o) && Agree(m, n, Tables(m, 2, o))
    requires TablesOf(n, 2, n[p]) == TablesOf(m, 2, m[kern])
    ensures IsTable(n, e, f) <==> IsTable(m, d, f)
  {
    forall o | o in d.roots ensures IsBelow(n, o, f) == IsBelow(m, o, f) {
      EntriesSame(m, n, 2, m[o], 0, 0);
    }
    if IsTable(n, e, f) {
      var r :| r in e.roots && IsBelow(n, r, f);
      assert r == p ==> IsBelow(m, kern, f);
    }
    if IsTable(m, d, f) {
      var r :| r in d.roots && IsBelow(m, r, f);
      assert r in e.roots && IsBelow(n, r, f);
    }
  }

  // ----- a root entry of the kernel copied later -----

  lemma SyncedTree(m: Mem, n: Mem, kern: Ppn, p: Ppn, i: nat)
    requires Tree(m, 2, kern) && Tree(m, 2, p) && kern != p && Shared(m, kern, p) && Shared(m, p, kern)
    requires i < ENTRIES && m[kern][i].perm.v && !m[p][i].perm.v && n == m[p := m[p][i := m[kern][i]]]
    ensures Tree(n, 2, p) && Child(n, 2, m[kern][i]) == Child(m, 2, m[kern][i])
    ensures Tables(n, 2, p) == Tables(m, 2, p) + Child(m, 2, m[kern][i])
    ensures forall vb :: Entry(n, 2, p, vb) == if Vpn(vb, 2) == i then Entry(m, 2, kern, vb) else Entry(m, 2, p, vb)
  {
    var e := m[kern][i];
    ChildIn(m, 2, m[kern], i);
    ChildTree(m, 2, m[kern], i);
    HeadSame(m, n, 2, e, 0, 0);
    TableReplaced(m, n, 2, p, i, e, Child(m, 2, e), 0, 0);
    ReplacedCovers(m, n, 2, m[p], i, e);
    forall vb ensures Entry(n, 2, p, vb) == if Vpn(vb, 2) == i then Entry(m, 2, kern, vb) else Entry(m, 2, p, vb) {
      TableReplaced(m, n, 2, p, i, e, Child(m, 2, e), 0, vb);
      HeadSame(m, n, 2, e, 0, vb);
    }
  }

  /** The copied entry seen with a third directory, or with the kernel's. */
  lemma SyncedShared(m: Mem, n: Mem, kern: Ppn, p: Ppn, i: nat, o: Ppn)
    requires Tree(m, 2, kern) && Tree(m, 2, p) && kern != p && Shared(m, kern, p) && Shared(m, p, kern)
    requires Tree(m, 2, o) && o != p && Shared(m, p, o) && Shared(m, o, p) && (o != kern ==> Shared(m, kern, o) && Shared(m, o, kern))
    requires i < ENTRIES && m[kern][i].perm.v && !m[p][i].perm.v && n == m[p := m[p][i := m[kern][i]]]
    ensures IsPage(n, p) && IsPage(n, o) && Shared(n, p, o) && Shared(n, o, p)
  {
    SyncedTree(m, n, kern, p, i);
    Untouched(m, n, o);
    ChildIn(m, 2, m[kern], i);
    forall j | 0 <= j < ENTRIES ensures n[p][j] == n[o][j] || Child(n, 2, n[p][j]) !! Tables(n, 2, o) {
      if j != i { SlotsStay(m, n, p, i, m[kern][i], j); }
    }
    forall j | 0 <= j < ENTRIES ensures n[o][j] == n[p][j] || Child(n, 2, n[o][j]) !! Tables(n, 2, p) {
      SyncedSlot(m, kern, p, i, o, j);
    }
  }

  lemma SyncedSlot(m: Mem, kern: Ppn, p: Ppn, i: nat, o: Ppn, j: nat)
    requires Tree(m, 2, kern) && IsPage(m, p) && IsPage(m, o) && i < ENTRIES && j < ENTRIES && !m[p][i].perm.v
    requires Shared(m, o, p) && (o != kern ==> Shared(m, o, kern))
    ensures m[o][j] == m[p][i := m[kern][i]][j] || Child(m, 2, m[o][j]) !! Tables(m, 2, p) + Child(m, 2, m[kern][i])
  {
    ChildIn(m, 2, m[kern], i);
    if j != i { ChildrenApart(m, 2, m[kern], i, j); }
  }

  /** Copying a valid root entry of the kernel into a directory that lacks it keeps the forest. */
  lemma SyncForest(m: Mem, n: Mem, d: Dirs, kern: Ppn, p: Ppn, i: nat)
    requires Forest(m, d) && kern in d.roots && p in d.roots && kern != p
    requires i < ENTRIES && m[kern][i].perm.v && !m[p][i].perm.v && n == m[p := m[p][i := m[kern][i]]]
    ensures Forest(n, d) && (forall f :: IsTable(n, d, f) <==> IsTable(m, d, f))
    ensures forall o :: o in d.roots && o != p ==> Agree(m, n, Tables(m, 2, o))
  {
    SyncedTree(m, n, kern, p, i);
    forall o | o in d.roots && o != p ensures Agree(m, n, Tables(m, 2, o)) && Tree(n, 2, o) && Shared(n, p, o) && Shared(n, o, p) {
      SyncedShared(m, n, kern, p, i, o);
      Untouched(m, n, o);
    }
    forall r, o | r in d.roots && o in d.roots && r != o ensures Shared(n, r, o) {
      if r != p && o != p { SharedStays(m, n, r, o); }
    }
    forall f ensures IsTable(n, d, f) <==> IsTable(m, d, f) {
      SyncTables(m, n, d, kern, p, i, f);
    }
  }

  lemma SyncTables(m: Mem, n: Mem, d: Dirs, kern: Ppn, p: Ppn, i: nat, f: Ppn)
    requires kern in d.roots && p in d.roots && kern != p && i < ENTRIES && IsPage(m, kern) && Tree(m, 2, p) && Tree(n, 2, p)
    requires p in n && forall o :: o in d.roots && o != p ==> Tree(m, 2, o) && Agree(m, n, Tables(m, 2, o))
    requires Tables(n, 2, p) == Tables(m, 2, p) + Child(m, 2, m[kern][i])
    ensures IsTable(n, d, f) <==> IsTable(m, d, f)
  {
    ChildIn(m, 2, m[kern], i);
    forall o | o in d.roots && o != p ensures IsBelow(n, o, f) == IsBelow(m, o, f) {
      EntriesSame(m, n, 2, m[o], 0, 0);
    }
    if IsTable(n, d, f) {
      var r :| r in d.roots && IsBelow(n, r, f);
      assert r == p ==> IsBelow(m, p, f) || IsBelow(m, kern, f);
    }
    if IsTable(m, d, f) {
      var r :| r in d.roots && IsBelow(m, r, f);
      assert IsBelow(n, r, f);
    }
  }
}
