/** Sv39 page tables as 64-bit entries in physical pages: the tree they form, the flat map from page numbers to
    entries it stands for, and how often it uses each frame. */
module PageTree {
  import opened Common

  type Ppn = nat

  /** The permission bits of an entry. */
  datatype Perm = Perm(v: bool, r: bool, w: bool, x: bool, u: bool, g: bool, a: bool, d: bool, rsw: nat)

  datatype Pte = Pte(perm: Perm, ppn: Ppn)

  type Mem = map<Ppn, seq<Pte>>

  const ENTRIES: nat := 512
  const NONE: Perm := Perm(false, false, false, false, false, false, false, false, 0)
  const ZERO: Pte := Pte(NONE, 0)

  /** An entry that names a table: valid, with no other permission bit. */
  function Pointer(t: Ppn): Pte {
    Pte(NONE.(v := true), t)
  }

  /** A leaf entry: whatever the caller asks for, made valid. */
  function Leaf(p: Ppn, perm: Perm): Pte {
    Pte(perm.(v := true), p)
  }

  function ZeroPage(): (s: seq<Pte>)
    ensures |s| == ENTRIES && forall i :: 0 <= i < ENTRIES ==> s[i] == ZERO
  {
    seq(ENTRIES, i => ZERO)
  }

  /** The index of a virtual address at a level of the tree. */
  function Vpn(va: nat, level: nat): (i: nat)
    ensures i < ENTRIES
  {
    va / (if level == 0 then 0x1000 else if level == 1 then 0x20_0000 else 0x4000_0000) % 512
  }

  predicate SamePage(va: nat, vb: nat) {
    Vpn(va, 0) == Vpn(vb, 0) && Vpn(va, 1) == Vpn(vb, 1) && Vpn(va, 2) == Vpn(vb, 2)
  }

  /** Two 39-bit addresses index the same entries exactly when they lie on the same page. */
  lemma SamePageNumber(va: nat, vb: nat)
    requires va < 0x80_0000_0000 && vb < 0x80_0000_0000
    ensures SamePage(va, vb) <==> va / 0x1000 == vb / 0x1000
  {
    Recompose(va);
    Recompose(vb);
  }

  lemma Recompose(va: nat)
    requires va < 0x80_0000_0000
    ensures va / 0x1000 == (Vpn(va, 2) * 512 + Vpn(va, 1)) * 512 + Vpn(va, 0)
  {
  }

  // ----- the tree below a table -----

  /** The tables at and below table p, whose entries name tables while level is positive. */
  function Tables(m: Mem, level: nat, p: Ppn): set<Ppn>
    decreases level, 1, 0
  {
    if level == 0 || p !in m then {p} else {p} + TablesOf(m, level, m[p])
  }

  function TablesOf(m: Mem, level: nat, es: seq<Pte>): set<Ppn>
    requires level > 0
    decreases level, 0, |es|
  {
    if es == [] then {} else Child(m, level, es[0]) + TablesOf(m, level, es[1..])
  }

  function Child(m: Mem, level: nat, e: Pte): set<Ppn>
    requires level > 0
    decreases level - 1, 2, 0
  {
    if e.perm.v then Tables(m, level - 1, e.ppn) else {}
  }

  /** The pages form a tree: every table is a full page, and no two entries lead to a common table. */
  ghost predicate Tree(m: Mem, level: nat, p: Ppn)
    decreases level, 1, 0
  {
    && p in m && |m[p]| == ENTRIES
    && (level > 0 ==> p !in TablesOf(m, level, m[p]) && TreeOf(m, level, m[p]))
  }

  ghost predicate TreeOf(m: Mem, level: nat, es: seq<Pte>)
    requires level > 0
    decreases level, 0, |es|
  {
    es == [] ||
    (SubTree(m, level, es[0]) && Child(m, level, es[0]) !! TablesOf(m, level, es[1..]) && TreeOf(m, level, es[1..]))
  }

  ghost predicate SubTree(m: Mem, level: nat, e: Pte)
    requires level > 0
    decreases level - 1, 2, 0
  {
    e.perm.v ==> Tree(m, level - 1, e.ppn) && !e.perm.r && !e.perm.w && !e.perm.x
  }

  /** How many valid entries at and below table p name frame f. */
  function Uses(m: Mem, level: nat, p: Ppn, f: Ppn): nat
    decreases level, 1, 0
  {
    if p in m then UsesOf(m, level, m[p], f) else 0
  }

  function UsesOf(m: Mem, level: nat, es: seq<Pte>, f: Ppn): nat
    decreases level, 0, |es|
  {
    if es == [] then 0 else Use(m, level, es[0], f) + UsesOf(m, level, es[1..], f)
  }

  function Use(m: Mem, level: nat, e: Pte, f: Ppn): nat
    decreases level, 0, 0
  {
    if !e.perm.v then 0
    else (if e.ppn == f then 1 else 0) + if level == 0 then 0 else Uses(m, level - 1, e.ppn, f)
  }

  /** The leaf entry of a virtual address below table p, zero if a table on the way is missing. */
  function Entry(m: Mem, level: nat, p: Ppn, va: nat): Pte {
    if p !in m || |m[p]| != ENTRIES then ZERO
    else if level == 0 then m[p][Vpn(va, 0)]
    else if m[p][Vpn(va, level)].perm.v then Entry(m, level - 1, m[p][Vpn(va, level)].ppn, va)
    else ZERO
  }

  // ----- what does not matter to a tree -----

  ghost predicate Agree(m: Mem, n: Mem, ps: set<Ppn>) {
    forall p :: p in ps ==> (p in m <==> p in n) && (p in m ==> m[p] == n[p])
  }

  lemma {:induction false} TreeSame(m: Mem, n: Mem, level: nat, p: Ppn, f: Ppn, va: nat)
    requires Agree(m, n, Tables(m, level, p))
    ensures Tables(n, level, p) == Tables(m, level, p) && Tree(n, level, p) == Tree(m, level, p)
    ensures Uses(n, level, p, f) == Uses(m, level, p, f) && Entry(n, level, p, va) == Entry(m, level, p, va)
    decreases level, 1, 0
  {
    if p in m {
      EntriesSame(m, n, level, m[p], f, va);
      if |m[p]| == ENTRIES { assert m[p][Vpn(va, level)] in m[p]; }
    }
  }

  lemma {:induction false} EntriesSame(m: Mem, n: Mem, level: nat, es: seq<Pte>, f: Ppn, va: nat)
    requires level > 0 ==> Agree(m, n, TablesOf(m, level, es))
    ensures level > 0 ==> TablesOf(n, level, es) == TablesOf(m, level, es) && TreeOf(n, level, es) == TreeOf(m, level, es)
    ensures UsesOf(n, level, es, f) == UsesOf(m, level, es, f)
    ensures forall e :: e in es ==> Below(n, level, e, va) == Below(m, level, e, va)
    decreases level, 0, |es|
  {
    if es != [] {
      assert es == [es[0]] + es[1..];
      EntriesSame(m, n, level, es[1..], f, va);
      if level > 0 && es[0].perm.v {
        assert Child(m, level, es[0]) == Tables(m, level - 1, es[0].ppn);
        TreeSame(m, n, level - 1, es[0].ppn, f, va);
      }
    }
  }

  /** The leaf entry of a virtual address at or below an entry of a table. */
  function Below(m: Mem, level: nat, e: Pte, va: nat): Pte {
    if level == 0 then e else if e.perm.v then Entry(m, level - 1, e.ppn, va) else ZERO
  }

  // ----- replacing one entry of a table -----

  lemma {:induction false} ChildIn(m: Mem, level: nat, es: seq<Pte>, i: nat)
    requires level > 0 && i < |es|
    ensures Child(m, level, es[i]) <= TablesOf(m, level, es)
    decreases i
  {
    if i > 0 { ChildIn(m, level, es[1..], i - 1); }
  }

  /** What the entry at position i of a table became, with the tables below it; ts are the tables it gained. */
  ghost predicate Grown(m: Mem, n: Mem, level: nat, e: Pte, e2: Pte, ts: set<Ppn>)
    requires level > 0
  {
    SubTree(n, level, e2) && Child(n, level, e2) <= Child(m, level, e) + ts
  }

  lemma {:induction false} EntryReplaced(m: Mem, n: Mem, level: nat, es: seq<Pte>, i: nat, e2: Pte, ts: set<Ppn>, f: Ppn, va: nat)
    requires level > 0 && i < |es| && TreeOf(m, level, es) && Grown(m, n, level, es[i], e2, ts)
    requires Agree(m, n, TablesOf(m, level, es) - Child(m, level, es[i])) && ts !! TablesOf(m, level, es)
    ensures TreeOf(n, level, es[i := e2]) && TablesOf(n, level, es[i := e2]) <= TablesOf(m, level, es) + ts
    ensures UsesOf(n, level, es[i := e2], f) - UsesOf(m, level, es, f) == Use(n, level, e2, f) - Use(m, level, es[i], f)
    ensures forall j :: 0 <= j < |es| && j != i ==> Below(n, level, es[j], va) == Below(m, level, es[j], va)
    decreases i
  {
    var rest := es[1..];
    if i == 0 {
      assert es[i := e2][1..] == rest;
      EntriesSame(m, n, level, rest, f, va);
      assert forall j :: 0 < j < |es| ==> es[j] in rest;
    } else {
      ChildIn(m, level, rest, i - 1);
      EntryReplaced(m, n, level, rest, i - 1, e2, ts, f, va);
      assert es[i := e2][1..] == rest[i - 1 := e2];
      HeadSame(m, n, level, es[0], f, va);
      assert forall j :: 0 < j < |es| && j != i ==> es[j] == rest[j - 1];
    }
  }

  lemma HeadSame(m: Mem, n: Mem, level: nat, e: Pte, f: Ppn, va: nat)
    requires level > 0 && Agree(m, n, Child(m, level, e))
    ensures Child(n, level, e) == Child(m, level, e) && SubTree(n, level, e) == SubTree(m, level, e)
    ensures Use(n, level, e, f) == Use(m, level, e, f) && Below(n, level, e, va) == Below(m, level, e, va)
  {
    if e.perm.v { TreeSame(m, n, level - 1, e.ppn, f, va); }
  }

  /** A table of which one entry, or the subtree behind it, changed. */
  lemma TableReplaced(m: Mem, n: Mem, level: nat, p: Ppn, i: nat, e2: Pte, ts: set<Ppn>, f: Ppn, va: nat)
    requires level > 0 && i < ENTRIES && Tree(m, level, p) && p in n && n[p] == m[p][i := e2]
    requires Grown(m, n, level, m[p][i], e2, ts) && ts !! Tables(m, level, p)
    requires Agree(m, n, TablesOf(m, level, m[p]) - Child(m, level, m[p][i]))
    ensures Tree(n, level, p) && Tables(n, level, p) <= Tables(m, level, p) + ts
    ensures Uses(n, level, p, f) - Uses(m, level, p, f) == Use(n, level, e2, f) - Use(m, level, m[p][i], f)
    ensures Entry(n, level, p, va) == if Vpn(va, level) == i then Below(n, level, e2, va) else Entry(m, level, p, va)
  {
    EntryReplaced(m, n, level, m[p], i, e2, ts, f, va);
    ChildIn(m, level, m[p], i);
  }

  lemma {:induction false} LeafReplaced(m: Mem, n: Mem, es: seq<Pte>, i: nat, e2: Pte, f: Ppn)
    requires i < |es|
    ensures UsesOf(n, 0, es[i := e2], f) - UsesOf(m, 0, es, f) == Use(n, 0, e2, f) - Use(m, 0, es[i], f)
    decreases i
  {
    if i == 0 {
      assert es[i := e2][1..] == es[1..];
      EntriesSame(m, n, 0, es[1..], f, 0);
    } else {
      LeafReplaced(m, n, es[1..], i - 1, e2, f);
      assert es[i := e2][1..] == es[1..][i - 1 := e2];
    }
  }

  // ----- writing one entry of the tree -----

  /** The table the walk for va reaches at level stop. */
  function TableAt(m: Mem, level: nat, p: Ppn, va: nat, stop: nat): Option<Ppn> {
    if level <= stop then Some(p)
    else if p in m && |m[p]| == ENTRIES && m[p][Vpn(va, level)].perm.v
    then TableAt(m, level - 1, m[p][Vpn(va, level)].ppn, va, stop)
    else None
  }

  predicate SameIndex(va: nat, vb: nat, level: nat, stop: nat)
    requires stop <= level
  {
    Vpn(va, level) == Vpn(vb, level) && (level > stop ==> SameIndex(va, vb, level - 1, stop))
  }

  lemma {:induction false} TableAtIn(m: Mem, level: nat, p: Ppn, va: nat, stop: nat)
    requires Tree(m, level, p) && stop <= level && TableAt(m, level, p, va, stop).Some?
    ensures var q := TableAt(m, level, p, va, stop).value;
            q in Tables(m, level, p) && q in m && |m[q]| == ENTRIES && (level > stop ==> q in TablesOf(m, level, m[p]))
  {
    if level > stop {
      var e := m[p][Vpn(va, level)];
      ChildIn(m, level, m[p], Vpn(va, level));
      ChildTree(m, level, m[p], Vpn(va, level));
      TableAtIn(m, level - 1, e.ppn, va, stop);
    }
  }

  lemma {:induction false} ChildTree(m: Mem, level: nat, es: seq<Pte>, i: nat)
    requires level > 0 && i < |es| && TreeOf(m, level, es)
    ensures SubTree(m, level, es[i])
    decreases i
  {
    if i > 0 { ChildTree(m, level, es[1..], i - 1); }
  }

  /** n is m with the entry for va in the table at level stop written: a leaf, or the first pointer to a new table. */
  ghost predicate Writes(m: Mem, n: Mem, level: nat, p: Ppn, va: nat, stop: nat, e2: Pte, ts: set<Ppn>) {
    && Tree(m, level, p) && stop <= level && TableAt(m, level, p, va, stop).Some?
    && (var q := TableAt(m, level, p, va, stop).value;
        && q in m && |m[q]| == ENTRIES && q in n && n[q] == m[q][Vpn(va, stop) := e2]
        && Agree(m, n, Tables(m, level, p) - {q})
        && (stop > 0 ==> !m[q][Vpn(va, stop)].perm.v && SubTree(n, stop, e2) && Child(n, stop, e2) <= ts))
    && ts !! Tables(m, level, p)
  }

  lemma {:induction false} WriteAt(m: Mem, n: Mem, level: nat, p: Ppn, va: nat, stop: nat, e2: Pte, ts: set<Ppn>, f: Ppn, vb: nat)
    requires Writes(m, n, level, p, va, stop, e2, ts)
    ensures Tree(n, level, p) && Tables(n, level, p) <= Tables(m, level, p) + ts
    ensures var was := m[TableAt(m, level, p, va, stop).value][Vpn(va, stop)];
            Uses(n, level, p, f) - Uses(m, level, p, f) == Use(n, stop, e2, f) - Use(m, stop, was, f)
    ensures Entry(n, level, p, vb) == if SameIndex(va, vb, level, stop) then Below(n, stop, e2, vb) else Entry(m, level, p, vb)
  {
    var i := Vpn(va, level);
    if level > stop {
      var e := m[p][i];
      ChildIn(m, level, m[p], i);
      ChildTree(m, level, m[p], i);
      TableAtIn(m, level, p, va, stop);
      TableAtIn(m, level - 1, e.ppn, va, stop);
      WriteAt(m, n, level - 1, e.ppn, va, stop, e2, ts, f, vb);
      assert n[p] == m[p][i := e];
      WriteBelow(m, n, level, p, i, TableAt(m, level, p, va, stop).value);
      TableReplaced(m, n, level, p, i, e, ts, f, vb);
    } else if level > 0 {
      TableReplaced(m, n, level, p, i, e2, ts, f, vb);
    } else {
      LeafReplaced(m, n, m[p], i, e2, f);
    }
  }

  lemma WriteBelow(m: Mem, n: Mem, level: nat, p: Ppn, i: nat, q: Ppn)
    requires level > 0 && p in m && i < |m[p]| && q in Child(m, level, m[p][i])
    requires Agree(m, n, Tables(m, level, p) - {q})
    ensures Agree(m, n, TablesOf(m, level, m[p]) - Child(m, level, m[p][i]))
  {
  }

  // ----- tables are used -----

  /** Every table but the root is named by some entry. */
  lemma {:induction false} TableUsed(m: Mem, level: nat, p: Ppn, t: Ppn)
    requires t in Tables(m, level, p) && t != p
    ensures Uses(m, level, p, t) > 0
    decreases level, 1, 0
  {
    EntriesUse(m, level, m[p], t);
  }

  lemma {:induction false} EntriesUse(m: Mem, level: nat, es: seq<Pte>, t: Ppn)
    requires level > 0 && t in TablesOf(m, level, es)
    ensures UsesOf(m, level, es, t) > 0
    decreases level, 0, |es|
  {
    if t in Child(m, level, es[0]) {
      if t != es[0].ppn { TableUsed(m, level - 1, es[0].ppn, t); }
    } else {
      EntriesUse(m, level, es[1..], t);
    }
  }

  // ----- the hardware's walk -----

  datatype Translation = Fault | Page(ppn: Ppn, perm: Perm) | SuperPage(level: nat, ppn: Ppn, perm: Perm)

  /** The address translation of section 4.4 of the RISC-V privileged architecture, without the access checks:
      an entry with R or X is a leaf at any level, W without R is reserved, and a superpage must be aligned. */
  function Translate(m: Mem, level: nat, p: Ppn, va: nat): Translation {
    if p !in m || |m[p]| != ENTRIES then Fault
    else
      var e := m[p][Vpn(va, level)];
      if !e.perm.v || (!e.perm.r && e.perm.w) then Fault
      else if e.perm.r || e.perm.x then
        if level == 0 then Page(e.ppn, e.perm)
        else if e.ppn % (if level == 1 then 0x200 else 0x40000) != 0 then Fault
        else SuperPage(level, e.ppn, e.perm)
      else if level == 0 then Fault
      else Translate(m, level - 1, e.ppn, va)
  }

  /** An entry the hardware accepts as a leaf. */
  predicate Usable(e: Pte) {
    e.perm.v && (e.perm.r || (e.perm.x && !e.perm.w))
  }

  /** On a tree built by the kernel the hardware reaches the entry that pt_lookup finds: it translates an address
      exactly when that entry is usable as a leaf, always to a plain page. */
  lemma {:induction false} HardwareAgrees(m: Mem, level: nat, p: Ppn, va: nat)
    requires Tree(m, level, p)
    ensures var e := Entry(m, level, p, va);
            Translate(m, level, p, va) == if Usable(e) then Page(e.ppn, e.perm) else Fault
  {
    if level > 0 {
      ChildTree(m, level, m[p], Vpn(va, level));
      if m[p][Vpn(va, level)].perm.v {
        HardwareAgrees(m, level - 1, m[p][Vpn(va, level)].ppn, va);
      }
    }
  }
}
