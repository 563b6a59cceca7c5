/** Finding the lowest set bit of a machine word as include/bitset.h does: isolate it with a negation, then look it
    up in a table byte by byte. A word is the sequence of its bits, lowest first. */
module Bitset {

  type Bits = seq<bool>

  function Zeros(n: nat): (w: Bits)
    ensures |w| == n && forall i :: 0 <= i < n ==> !w[i]
  {
    seq(n, i => false)
  }

  function Not(w: Bits): (r: Bits)
    ensures |r| == |w| && forall i :: 0 <= i < |w| ==> r[i] == !w[i]
  {
    seq(|w|, i requires 0 <= i < |w| => !w[i])
  }

  function And(a: Bits, b: Bits): (r: Bits)
    requires |a| == |b|
    ensures |r| == |a| && forall i :: 0 <= i < |a| ==> r[i] == (a[i] && b[i])
  {
    seq(|a|, i requires 0 <= i < |a| => a[i] && b[i])
  }

  /** Adding one, with the carry rippling up; it is lost at the top. */
  function Increment(w: Bits): (r: Bits)
    ensures |r| == |w|
  {
    if w == [] then [] else if w[0] then [false] + Increment(w[1..]) else [true] + w[1..]
  }

  /** The two's complement. */
  function Negate(w: Bits): (r: Bits)
    ensures |r| == |w|
  {
    Increment(Not(w))
  }

  /** i & -i. */
  function Isolate(w: Bits): (r: Bits)
    ensures |r| == |w|
  {
    And(w, Negate(w))
  }

  /** j <= 2^n - 1. */
  predicate Below(j: Bits, n: nat) {
    forall i :: n <= i < |j| ==> !j[i]
  }

  /** The lookup table: the number of significant bits of a byte. */
  function Table(b: Bits): (n: nat)
    ensures n <= |b|
  {
    if b == [] then 0 else if b[|b| - 1] then |b| else Table(b[..|b| - 1])
  }

  function Ffs32(i: Bits): nat
    requires |i| == 32
  {
    var j := Isolate(i);
    if Below(j, 16) then (if Below(j, 8) then Table(j[..8]) else Table(j[8..16]) + 8)
    else if Below(j, 24) then Table(j[16..24]) + 16
    else Table(j[24..]) + 24
  }

  function Ffs64(i: Bits): nat
    requires |i| == 64
  {
    if Below(Isolate(i), 32) then Ffs32(i[..32]) else Ffs32(i[32..]) + 32
  }

  // ----- what it finds -----

  /** Bit r is the lowest that is set. */
  predicate Lowest(w: Bits, r: nat) {
    r < |w| && w[r] && forall i :: 0 <= i < r ==> !w[i]
  }

  /** The negation agrees with the word in its lowest set bit alone. */
  lemma {:induction false} IsolateLowest(w: Bits, r: nat)
    requires Lowest(w, r)
    ensures forall i :: 0 <= i < |w| ==> (Isolate(w)[i] <==> i == r)
    decreases |w|
  {
    var n := Not(w);
    assert n[1..] == Not(w[1..]);
    if w[0] {
      assert Negate(w) == [true] + n[1..];
    } else {
      assert Lowest(w[1..], r - 1) by { assert forall i :: 0 <= i < r - 1 ==> w[1..][i] == w[i + 1]; }
      IsolateLowest(w[1..], r - 1);
      assert Negate(w) == [false] + Negate(w[1..]);
      forall i | 0 <= i < |w| ensures Isolate(w)[i] <==> i == r {
        if i > 0 { assert Isolate(w)[i] == Isolate(w[1..])[i - 1]; }
      }
    }
  }

  lemma IsolateZero(w: Bits)
    requires forall i :: 0 <= i < |w| ==> !w[i]
    ensures forall i :: 0 <= i < |w| ==> !Isolate(w)[i]
  {
  }

  /** The table gives the place of a lone bit. */
  lemma {:induction false} TableOfOne(b: Bits, r: nat)
    requires r < |b| && forall i :: 0 <= i < |b| ==> (b[i] <==> i == r)
    ensures Table(b) == r + 1
    decreases |b|
  {
    if r < |b| - 1 { TableOfOne(b[..|b| - 1], r); }
  }

  lemma {:induction false} TableOfNone(b: Bits)
    requires forall i :: 0 <= i < |b| ==> !b[i]
    ensures Table(b) == 0
    decreases |b|
  {
    if b != [] { TableOfNone(b[..|b| - 1]); }
  }

  lemma Ffs32Finds(i: Bits, r: nat)
    requires |i| == 32 && Lowest(i, r)
    ensures Ffs32(i) == r + 1
  {
    var j := Isolate(i);
    IsolateLowest(i, r);
    if r < 8 { TableOfOne(j[..8], r); }
    else if r < 16 { TableOfOne(j[8..16], r - 8); }
    else if r < 24 { TableOfOne(j[16..24], r - 16); }
    else { TableOfOne(j[24..], r - 24); }
  }

  lemma Ffs32None(i: Bits)
    requires |i| == 32 && forall k :: 0 <= k < 32 ==> !i[k]
    ensures Ffs32(i) == 0
  {
    IsolateZero(i);
    TableOfNone(Isolate(i)[..8]);
  }

  /** One more than the index of the lowest set bit. */
  lemma Ffs64Finds(i: Bits, r: nat)
    requires |i| == 64 && Lowest(i, r)
    ensures Ffs64(i) == r + 1
  {
    IsolateLowest(i, r);
    if r < 32 {
      Ffs32Finds(i[..32], r);
    } else {
      assert Isolate(i)[r];
      assert forall k :: 0 <= k < r - 32 ==> i[32..][k] == i[k + 32];
      Ffs32Finds(i[32..], r - 32);
    }
  }

  /** Zero if no bit is set. */
  lemma Ffs64None(i: Bits)
    requires |i| == 64 && forall k :: 0 <= k < 64 ==> !i[k]
    ensures Ffs64(i) == 0
  {
    IsolateZero(i);
    Ffs32None(i[..32]);
  }

  lemma {:induction false} LowestExists(w: Bits) returns (r: nat)
    requires exists i :: 0 <= i < |w| && w[i]
    ensures Lowest(w, r)
    decreases |w|
  {
    if w[0] {
      r := 0;
    } else {
      var i :| 0 <= i < |w| && w[i];
      assert w[1..][i - 1];
      var q := LowestExists(w[1..]);
      r := q + 1;
      assert forall k :: 0 < k < r ==> w[k] == w[1..][k - 1];
    }
  }
}
