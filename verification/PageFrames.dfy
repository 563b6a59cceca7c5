/** Reference-counted physical frames: the address arithmetic between frames and pages, and the free lists. */
module PageFrames {
  import opened Common
  import opened PageTree

  const PGSIZE: nat := 4096
  /** Bytes of one frame descriptor. */
  const FRAME: nat := 24

  // ----- frame descriptors and addresses -----

  /** A memory range, and the address of its array of frame descriptors. */
  datatype Bank = Bank(addr: nat, size: nat, descs: nat)
  {
    function Len(): nat { size / PGSIZE }
    predicate HasAddr(a: nat) { addr <= a < addr + size }
    predicate HasDesc(d: nat) { descs <= d < descs + FRAME * Len() }
  }

  /** Page-aligned ranges that do not overlap, with descriptor arrays that do not overlap. */
  ghost predicate Banks(bs: seq<Bank>) {
    && (forall i :: 0 <= i < |bs| ==> bs[i].addr % PGSIZE == 0)
    && (forall i, j, a :: 0 <= i < j < |bs| && bs[i].HasAddr(a) ==> !bs[j].HasAddr(a))
    && (forall i, j, d :: 0 <= i < j < |bs| && bs[i].HasDesc(d) ==> !bs[j].HasDesc(d))
  }

  /** The first bank of an address. */
  function BankOf(bs: seq<Bank>, a: nat): (i: Option<nat>)
    ensures i.Some? ==> i.value < |bs| && bs[i.value].HasAddr(a)
    ensures i.None? ==> forall j :: 0 <= j < |bs| ==> !bs[j].HasAddr(a)
  {
    if bs == [] then None
    else if bs[0].HasAddr(a) then Some(0)
    else
      var i := BankOf(bs[1..], a);
      if i.None? then assert forall j :: 0 < j < |bs| ==> bs[j] == bs[1..][j - 1]; None else Some(i.value + 1)
  }

  /** The first bank of a descriptor. */
  function BankOfDesc(bs: seq<Bank>, d: nat): (i: Option<nat>)
    ensures i.Some? ==> i.value < |bs| && bs[i.value].HasDesc(d)
    ensures i.None? ==> forall j :: 0 <= j < |bs| ==> !bs[j].HasDesc(d)
  {
    if bs == [] then None
    else if bs[0].HasDesc(d) then Some(0)
    else
      var i := BankOfDesc(bs[1..], d);
      if i.None? then assert forall j :: 0 < j < |bs| ==> bs[j] == bs[1..][j - 1]; None else Some(i.value + 1)
  }

  function DescOf(bs: seq<Bank>, a: nat): Option<nat> {
    var i := BankOf(bs, a);
    if i.None? then None else Some(bs[i.value].descs + FRAME * ((a - bs[i.value].addr) / PGSIZE))
  }

  function AddrOf(bs: seq<Bank>, d: nat): Option<nat> {
    var i := BankOfDesc(bs, d);
    if i.None? then None else Some(bs[i.value].addr + (d - bs[i.value].descs) / FRAME * PGSIZE)
  }

  class Lookup {
    const banks: seq<Bank>

    constructor (banks: seq<Bank>)
      ensures this.banks == banks
    {
      this.banks := banks;
    }

    method AddrToDesc(a: nat) returns (d: Option<nat>)
      ensures d == DescOf(banks, a)
    {
      var i := 0;
      while i < |banks|
        invariant 0 <= i <= |banks|
        invariant BankOf(banks, a) == (var r := BankOf(banks[i..], a); if r.None? then None else Some(r.value + i))
      {
        assert banks[i..][1..] == banks[i + 1..];
        if banks[i].addr <= a < banks[i].addr + banks[i].size {
          return Some(banks[i].descs + FRAME * ((a - banks[i].addr) / PGSIZE));
        }
        i := i + 1;
      }
      return None;
    }

    method DescToAddr(d: nat) returns (a: Option<nat>)
      ensures a == AddrOf(banks, d)
    {
      var i := 0;
      while i < |banks|
        invariant 0 <= i <= |banks|
        invariant BankOfDesc(banks, d) == (var r := BankOfDesc(banks[i..], d); if r.None? then None else Some(r.value + i))
      {
        assert banks[i..][1..] == banks[i + 1..];
        if banks[i].HasDesc(d) {
          return Some(banks[i].addr + (d - banks[i].descs) / FRAME * PGSIZE);
        }
        i := i + 1;
      }
      return None;
    }
  }

  lemma OnlyBank(bs: seq<Bank>, i: nat, a: nat)
    requires Banks(bs) && i < |bs| && bs[i].HasAddr(a)
    ensures BankOf(bs, a) == Some(i)
  {
  }

  lemma OnlyBankOfDesc(bs: seq<Bank>, i: nat, d: nat)
    requires Banks(bs) && i < |bs| && bs[i].HasDesc(d)
    ensures BankOfDesc(bs, d) == Some(i)
  {
  }

  lemma DescInBank(b: Bank, a: nat, d: nat)
    requires b.HasAddr(a) && b.addr % PGSIZE == 0 && a % PGSIZE == 0 && d == b.descs + FRAME * ((a - b.addr) / PGSIZE)
    ensures b.HasDesc(d) <==> a + PGSIZE <= b.addr + b.size
    ensures (d - b.descs) / FRAME * PGSIZE == a - b.addr
  {
    var k := (a - b.addr) / PGSIZE;
    assert a - b.addr == k * PGSIZE;
    assert k < b.size / PGSIZE <==> (k + 1) * PGSIZE <= b.size;
  }

  /** From a page to its descriptor and back: the round trip succeeds for exactly the pages that lie wholly
      within their bank. */
  lemma AddrRoundTrip(bs: seq<Bank>, a: nat)
    requires Banks(bs) && a % PGSIZE == 0 && DescOf(bs, a).Some?
    ensures AddrOf(bs, DescOf(bs, a).value) == Some(a)
            <==> a + PGSIZE <= bs[BankOf(bs, a).value].addr + bs[BankOf(bs, a).value].size
  {
    var i := BankOf(bs, a).value;
    var d := DescOf(bs, a).value;
    DescInBank(bs[i], a, d);
    ThereAndBack(bs, i, a, d);
  }

  lemma ThereAndBack(bs: seq<Bank>, i: nat, a: nat, d: nat)
    requires Banks(bs) && i < |bs| && BankOf(bs, a) == Some(i) && bs[i].HasAddr(a)
    requires (d - bs[i].descs) / FRAME * PGSIZE == a - bs[i].addr
    ensures AddrOf(bs, d) == Some(a) <==> bs[i].HasDesc(d)
  {
    if bs[i].HasDesc(d) { OnlyBankOfDesc(bs, i, d); } else { Astray(bs, i, d); }
  }

  /** A descriptor outside the bank never leads back into it. */
  lemma Astray(bs: seq<Bank>, i: nat, d: nat)
    requires Banks(bs) && i < |bs| && !bs[i].HasDesc(d)
    ensures AddrOf(bs, d).Some? ==> BankOf(bs, AddrOf(bs, d).value) != Some(i)
  {
    if AddrOf(bs, d).Some? { OtherBankAddr(bs, d); }
  }

  /** The address computed from a descriptor lies in the bank of the descriptor. */
  lemma OtherBankAddr(bs: seq<Bank>, d: nat)
    requires Banks(bs) && AddrOf(bs, d).Some?
    ensures BankOf(bs, AddrOf(bs, d).value) == BankOfDesc(bs, d)
  {
    var j := BankOfDesc(bs, d).value;
    var k := (d - bs[j].descs) / FRAME;
    assert k * PGSIZE < bs[j].size;
    OnlyBank(bs, j, AddrOf(bs, d).value);
  }

  /** From the k-th descriptor of a bank to its page and back. */
  lemma DescRoundTrip(bs: seq<Bank>, i: nat, k: nat)
    requires Banks(bs) && i < |bs| && k < bs[i].Len()
    ensures var d := bs[i].descs + FRAME * k;
            && AddrOf(bs, d) == Some(bs[i].addr + k * PGSIZE)
            && DescOf(bs, bs[i].addr + k * PGSIZE) == Some(d)
  {
    var d := bs[i].descs + FRAME * k;
    OnlyBankOfDesc(bs, i, d);
    OtherBankAddr(bs, d);
  }
}
