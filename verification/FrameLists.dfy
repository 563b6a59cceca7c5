/** The free lists and reference counts of physical frames, named by page number. */
module FrameLists {
  import opened Common
  import opened PageTree

  /** The frames of one bank. */
  datatype Range = Range(first: Ppn, count: nat)
  {
    predicate Has(f: Ppn) { first <= f < first + count }
  }

  ghost predicate Ranges(rs: seq<Range>) {
    forall i, j, f :: 0 <= i < j < |rs| && rs[i].Has(f) ==> !rs[j].Has(f)
  }

  /** The bank of a frame. */
  function RangeOf(rs: seq<Range>, f: Ppn): (i: Option<nat>)
    ensures i.Some? ==> i.value < |rs| && rs[i.value].Has(f)
    ensures i.None? ==> forall j :: 0 <= j < |rs| ==> !rs[j].Has(f)
  {
    if rs == [] then None
    else if rs[0].Has(f) then Some(0)
    else
      var i := RangeOf(rs[1..], f);
      if i.None? then assert forall j :: 0 < j < |rs| ==> rs[j] == rs[1..][j - 1]; None else Some(i.value + 1)
  }

  /** The frames of all banks. */
  function Frames(rs: seq<Range>): set<Ppn> {
    if rs == [] then {} else (set f | rs[0].first <= f < rs[0].first + rs[0].count && rs[0].Has(f)) + Frames(rs[1..])
  }

  lemma {:induction false} FrameRange(rs: seq<Range>, f: Ppn)
    ensures f in Frames(rs) <==> RangeOf(rs, f).Some?
  {
    if rs != [] { FrameRange(rs[1..], f); }
  }

  /** The list without the frame that list_remove_node unlinks. */
  function Unlinked(fs: seq<Ppn>, f: Ppn): (r: seq<Ppn>)
    ensures forall x :: x in r ==> x in fs
    ensures forall x :: x in fs && x != f ==> x in r
    ensures Distinct(fs) ==> Distinct(r) && f !in r
  {
    if fs == [] then []
    else if fs[0] == f then fs[1..]
    else
      var r := Unlinked(fs[1..], f);
      assert fs == [fs[0]] + fs[1..] && ([fs[0]] + r)[1..] == r;
      [fs[0]] + r
  }

  /** The free lists hold, without repetition and each in its own bank, exactly the frames that have no
      reference and are not in the hands of a caller. */
  ghost predicate Exact(rs: seq<Range>, refs: map<Ppn, nat>, free: seq<seq<Ppn>>, held: set<Ppn>) {
    && |free| == |rs| && Ranges(rs)
    && refs.Keys == Frames(rs)
    && (forall f :: f in held ==> f in refs && refs[f] == 0)
    && (forall i :: 0 <= i < |rs| ==> ListExact(rs[i], refs, free[i], held))
  }

  ghost predicate ListExact(r: Range, refs: map<Ppn, nat>, fs: seq<Ppn>, held: set<Ppn>) {
    && Distinct(fs)
    && (forall f :: f in fs ==> r.Has(f) && f in refs && refs[f] == 0 && f !in held)
    && (forall f :: r.Has(f) && f in refs && refs[f] == 0 && f !in held ==> f in fs)
  }

  predicate Free(free: seq<seq<Ppn>>, f: Ppn) {
    exists i :: 0 <= i < |free| && f in free[i]
  }

  ghost predicate NothingFree(free: seq<seq<Ppn>>) {
    forall f :: !Free(free, f)
  }

  lemma FirstFreeFree(free: seq<seq<Ppn>>)
    ensures FirstFree(free).None? <==> NothingFree(free)
    ensures FirstFree(free).Some? ==> Free(free, free[FirstFree(free).value][0])
  {
    if FirstFree(free).Some? {
      var i := FirstFree(free).value;
      var f := free[i][0];
      assert f in free[i];
      assert Free(free, f);
    }
  }

  lemma FreeExactly(rs: seq<Range>, refs: map<Ppn, nat>, free: seq<seq<Ppn>>, held: set<Ppn>, f: Ppn)
    requires Exact(rs, refs, free, held)
    ensures Free(free, f) <==> f in refs && refs[f] == 0 && f !in held
  {
    FrameRange(rs, f);
    if f in refs && refs[f] == 0 && f !in held {
      assert ListExact(rs[RangeOf(rs, f).value], refs, free[RangeOf(rs, f).value], held);
    }
    if Free(free, f) {
      var i :| 0 <= i < |free| && f in free[i];
      assert ListExact(rs[i], refs, free[i], held);
    }
  }

  // ----- the three operations on values -----

  /** The first bank with a free frame. */
  function FirstFree(free: seq<seq<Ppn>>): (i: Option<nat>)
    ensures i.Some? ==> i.value < |free| && free[i.value] != [] && forall j :: 0 <= j < i.value ==> free[j] == []
    ensures i.None? ==> forall j :: 0 <= j < |free| ==> free[j] == []
  {
    if free == [] then None
    else if free[0] != [] then Some(0)
    else
      var i := FirstFree(free[1..]);
      assert forall j :: 0 < j < |free| ==> free[j] == free[1..][j - 1];
      if i.None? then None else Some(i.value + 1)
  }

  /** The first frame of the first list that is not empty has been taken off it. */
  ghost predicate TakesFirst(was: seq<seq<Ppn>>, free: seq<seq<Ppn>>, f: Ppn, i: int) {
    && 0 <= i < |was| && was[i] != [] && (forall j :: 0 <= j < i ==> was[j] == [])
    && f == was[i][0] && free == was[i := was[i][1..]]
  }

  lemma AllocExact(rs: seq<Range>, refs: map<Ppn, nat>, free: seq<seq<Ppn>>, held: set<Ppn>)
    requires Exact(rs, refs, free, held) && FirstFree(free).Some?
    ensures var i := FirstFree(free).value;
            var f := free[i][0];
            && f in refs && refs[f] == 0 && f !in held
            && Exact(rs, refs, free[i := Unlinked(free[i], f)], held + {f})
  {
    var i := FirstFree(free).value;
    var f := free[i][0];
    assert ListExact(rs[i], refs, free[i], held);
    forall j | 0 <= j < |rs| ensures ListExact(rs[j], refs, free[i := Unlinked(free[i], f)][j], held + {f}) {
      assert ListExact(rs[j], refs, free[j], held);
    }
  }

  /** The frame has been put last on the list of its bank. */
  ghost predicate PutsLast(rs: seq<Range>, was: seq<seq<Ppn>>, free: seq<seq<Ppn>>, f: Ppn, i: int) {
    0 <= i < |was| && i < |rs| && rs[i].Has(f) && free == was[i := was[i] + [f]]
  }

  /** A new reference keeps the lists exact if and only if the frame was not on a free list. */
  lemma IncExact(rs: seq<Range>, refs: map<Ppn, nat>, free: seq<seq<Ppn>>, held: set<Ppn>, f: Ppn)
    requires Exact(rs, refs, free, held) && f in refs
    ensures Exact(rs, refs[f := refs[f] + 1], free, held - {f}) <==> refs[f] > 0 || f in held
  {
    FrameRange(rs, f);
    var i := RangeOf(rs, f).value;
    assert ListExact(rs[i], refs, free[i], held);
    var after := refs[f := refs[f] + 1];
    if refs[f] > 0 || f in held {
      forall j | 0 <= j < |rs| ensures ListExact(rs[j], after, free[j], held - {f}) {
        assert ListExact(rs[j], refs, free[j], held);
      }
    } else {
      assert f in free[i] && !ListExact(rs[i], after, free[i], held - {f});
    }
  }

  /** Dropping a reference, and freeing the frame when it was the last one. */
  lemma DecExact(rs: seq<Range>, refs: map<Ppn, nat>, free: seq<seq<Ppn>>, held: set<Ppn>, f: Ppn)
    requires Exact(rs, refs, free, held) && f in refs && refs[f] > 0
    ensures RangeOf(rs, f).Some? && RangeOf(rs, f).value < |free|
    ensures var i := RangeOf(rs, f).value;
            Exact(rs, refs[f := refs[f] - 1], if refs[f] == 1 then free[i := free[i] + [f]] else free, held)
  {
    FrameRange(rs, f);
    var i := RangeOf(rs, f).value;
    var after, lists := refs[f := refs[f] - 1], if refs[f] == 1 then free[i := free[i] + [f]] else free;
    forall j | 0 <= j < |rs| ensures ListExact(rs[j], after, lists[j], held) {
      assert ListExact(rs[j], refs, free[j], held);
      assert j != i ==> !rs[j].Has(f);
      Decremented(rs[j], refs, free[j], held, f, lists[j]);
    }
  }

  lemma Decremented(r: Range, refs: map<Ppn, nat>, fs: seq<Ppn>, held: set<Ppn>, f: Ppn, gs: seq<Ppn>)
    requires ListExact(r, refs, fs, held) && f in refs && refs[f] > 0 && f !in held
    requires gs == if r.Has(f) && refs[f] == 1 then fs + [f] else fs
    ensures ListExact(r, refs[f := refs[f] - 1], gs, held)
  {
    if f !in fs { DistinctAppend(fs, f); }
  }

  class Pmm {
    const ranges: seq<Range>
    var refs: map<Ppn, nat>
    var free: seq<seq<Ppn>>
    /** Frames handed out and not referenced since. */
    ghost var held: set<Ppn>

    ghost predicate Valid()
      reads this
    {
      Exact(ranges, refs, free, held)
    }

    /** pmm_init: all frames are free, except those below the end of the memory in use at boot. */
    constructor (ranges: seq<Range>, low: Ppn, high: Ppn)
      requires Ranges(ranges) && low <= high && forall f :: low <= f < high ==> f in Frames(ranges)
      ensures Valid() && this.ranges == ranges && held == {}
      ensures InUse(refs, low, high)
    {
      this.ranges := ranges;
      refs, free, held := map[], [], {};
      new;
      FreeAll();
      ReserveAll(low, high);
    }

    method FreeAll()
      requires refs == map[] && free == [] && held == {} && Ranges(ranges)
      modifies this`refs, this`free
      ensures Valid() && forall f :: f in refs ==> refs[f] == 0
    {
      AddBanks();
      AllFree(ranges, refs, free);
    }

    method ReserveAll(low: Ppn, high: Ppn)
      requires Valid() && held == {} && low <= high && forall f :: low <= f < high ==> f in refs
      requires InUse(refs, low, low)
      modifies this`refs, this`free
      ensures Valid() && InUse(refs, low, high)
    {
      var f := low;
      while f < high
        invariant low <= f <= high && Valid() && refs.Keys == old(refs.Keys) && InUse(refs, low, f)
      {
        OneMore(refs, low, f);
        Reserve(f);
        f := f + 1;
      }
    }

    method AddBanks()
      requires refs == map[] && free == []
      modifies this`refs, this`free
      ensures |free| == |ranges| && forall j :: 0 <= j < |ranges| ==> Full(ranges[j], free[j])
      ensures forall f :: f in refs ==> refs[f] == 0
      ensures forall f :: f in refs <==> exists j :: 0 <= j < |ranges| && ranges[j].Has(f)
    {
      for i := 0 to |ranges|
        invariant |free| == i
        invariant forall f :: f in refs ==> refs[f] == 0
        invariant forall f :: f in refs <==> exists j :: 0 <= j < i && ranges[j].Has(f)
        invariant forall j :: 0 <= j < i ==> Full(ranges[j], free[j])
      {
        ghost var before := free;
        AddBank(ranges[i]);
        assert forall j :: 0 <= j < i ==> free[j] == free[..i][j];
      }
    }

    /** The descriptors of one bank: no references, all on the free list. */
    method AddBank(r: Range)
      modifies this`refs, this`free
      ensures |free| == |old(free)| + 1 && free[..|old(free)|] == old(free) && Full(r, free[|old(free)|])
      ensures forall f :: f in refs <==> f in old(refs) || r.Has(f)
      ensures forall f :: f in refs ==> refs[f] == if r.Has(f) then 0 else old(refs)[f]
    {
      var list: seq<Ppn> := [];
      for k := 0 to r.count
        invariant Distinct(list) && forall f :: f in list <==> r.first <= f < r.first + k
        invariant forall f :: f in refs <==> f in old(refs) || r.first <= f < r.first + k
        invariant forall f :: f in refs ==> refs[f] == if r.first <= f < r.first + k then 0 else old(refs)[f]
        invariant free == old(free)
      {
        refs := refs[r.first + k := 0];
        DistinctAppend(list, r.first + k);
        list := list + [r.first + k];
      }
      free := free + [list];
    }

    method Reserve(f: Ppn)
      requires Valid() && f in refs && refs[f] == 0 && f !in held
      modifies this`refs, this`free
      ensures Valid() && refs == old(refs)[f := 1]
    {
      FrameRange(ranges, f);
      var i := RangeOf(ranges, f).value;
      assert ListExact(ranges[i], refs, free[i], held);
      forall j | 0 <= j < |ranges| ensures ListExact(ranges[j], refs[f := 1], free[i := Unlinked(free[i], f)][j], held) {
        assert ListExact(ranges[j], refs, free[j], held);
        assert j != i ==> !ranges[j].Has(f);
      }
      free := free[i := Unlinked(free[i], f)];
      refs := refs[f := 1];
    }

    /** phy_frame_alloc: the oldest free frame of the first bank that has one; it has no reference yet. */
    method Alloc() returns (f: Option<Ppn>)
      requires Valid()
      modifies this`free, this`held
      ensures Valid() && refs == old(refs)
      ensures f.None? <==> NothingFree(old(free))
      ensures f.None? ==> free == old(free) && held == old(held)
      ensures f.Some? ==> f.value in refs && refs[f.value] == 0 && Free(old(free), f.value)
                          && held == old(held) + {f.value} && f.value !in old(held)
      ensures f.Some? ==> exists i :: TakesFirst(old(free), free, f.value, i)
    {
      var i := SearchFree();
      FirstFreeFree(free);
      if i.None? { return None; }
      AllocExact(ranges, refs, free, held);
      f := Some(free[i.value][0]);
      held := held + {f.value};
      free := free[i.value := Unlinked(free[i.value], f.value)];
      assert TakesFirst(old(free), free, f.value, i.value);
    }

    /** An allocation followed by the first reference. */
    method AllocRef() returns (f: Option<Ppn>)
      requires Valid()
      modifies this`refs, this`free, this`held
      ensures Valid() && held == old(held)
      ensures f.None? <==> NothingFree(old(free))
      ensures f.None? ==> free == old(free) && refs == old(refs)
      ensures f.Some? ==> f.value in old(refs) && old(refs)[f.value] == 0 && Free(old(free), f.value)
                          && refs == old(refs)[f.value := old(refs)[f.value] + 1]
      ensures f.Some? ==> exists i :: TakesFirst(old(free), free, f.value, i)
    {
      f := Alloc();
      if f.Some? {
        RefInc(f.value);
      }
    }

    method SearchFree() returns (i: Option<nat>)
      ensures i == FirstFree(free)
    {
      var k := 0;
      while k < |free|
        invariant 0 <= k <= |free|
        invariant FirstFree(free) == (var r := FirstFree(free[k..]); if r.None? then None else Some(r.value + k))
      {
        assert free[k..][1..] == free[k + 1..];
        if free[k] != [] { return Some(k); }
        k := k + 1;
      }
      return None;
    }

    method RefInc(f: Ppn)
      requires f in refs
      modifies this`refs, this`held
      ensures refs == old(refs)[f := old(refs)[f] + 1] && held == old(held) - {f}
      ensures old(Valid()) ==> (Valid() <==> old(refs)[f] > 0 || f in old(held))
    {
      ghost var was, refs0, held0 := Valid(), refs, held;
      refs := refs[f := refs[f] + 1];
      held := held - {f};
      if was { IncExact(ranges, refs0, free, held0, f); }
    }

    /** Fails on a frame without references. */
    method RefDec(f: Ppn) returns (ok: bool)
      requires Valid() && f in refs
      modifies this`refs, this`free
      ensures Valid() && ok == (old(refs)[f] > 0)
      ensures refs == if ok then old(refs)[f := old(refs)[f] - 1] else old(refs)
      ensures !ok || old(refs)[f] > 1 ==> free == old(free)
      ensures forall g :: Free(free, g) ==> Free(old(free), g) || (g == f && old(refs)[f] == 1)
      ensures old(refs)[f] == 1 ==> exists i :: PutsLast(ranges, old(free), free, f, i)
    {
      if refs[f] == 0 { return false; }
      DecExact(ranges, refs, free, held, f);
      refs := refs[f := refs[f] - 1];
      if refs[f] == 0 {
        var i := RangeOf(ranges, f).value;
        free := free[i := free[i] + [f]];
        assert PutsLast(ranges, old(free), free, f, i);
      }
      return true;
    }
  }

  /** Exactly the frames from low up to high are in use, with one reference each. */
  ghost predicate InUse(refs: map<Ppn, nat>, low: Ppn, high: Ppn) {
    forall f :: f in refs ==> refs[f] == if low <= f < high then 1 else 0
  }

  lemma OneMore(refs: map<Ppn, nat>, low: Ppn, high: Ppn)
    requires InUse(refs, low, high) && low <= high
    ensures InUse(refs[high := 1], low, high + 1)
  {
  }

  ghost predicate Full(r: Range, fs: seq<Ppn>) {
    Distinct(fs) && forall f :: f in fs <==> r.Has(f)
  }

  lemma AllFree(rs: seq<Range>, refs: map<Ppn, nat>, free: seq<seq<Ppn>>)
    requires Ranges(rs) && |free| == |rs|
    requires forall f :: f in refs ==> refs[f] == 0
    requires forall f :: f in refs <==> exists j :: 0 <= j < |rs| && rs[j].Has(f)
    requires forall j :: 0 <= j < |rs| ==> Full(rs[j], free[j])
    ensures Exact(rs, refs, free, {})
  {
    forall f ensures f in refs <==> f in Frames(rs) { FrameRange(rs, f); }
    forall j | 0 <= j < |rs| ensures ListExact(rs[j], refs, free[j], {}) {
      assert Full(rs[j], free[j]);
    }
  }
}
