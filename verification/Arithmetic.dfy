/** gcd and lcm of lib/arithmetic.c: the loop, and the laws that make the major frame the least common period. */
module Arithmetic {
  import Alignment

  const MAXINT: int := 0x7fff_ffff_ffff_ffff

  ghost predicate Divides(d: nat, n: nat) {
    exists k: nat {:trigger Times(d, k)} :: n == Times(d, k)
  }

  function Times(d: int, k: int): int { d * k }

  function Gcd(a: nat, b: nat): nat
    decreases b
  {
    if b == 0 then a else Gcd(b, a % b)
  }

  // ----- the loop -----

  method ComputeGcd(a: nat, b: nat) returns (g: nat)
    ensures g == Gcd(a, b)
  {
    var x: nat, y: nat := a, b;
    if y != 0 {
      x := x % y;
      while x != 0
        invariant y != 0 && x < y && Gcd(a, b) == Gcd(y, x)
        decreases x
      {
        y := y % x;
        if y == 0 { break; }
        assert Gcd(y, x % y) == Gcd(x, y);
        x := x % y;
      }
    }
    g := x + y;
  }

  /** The product must fit the machine's signed word; that is all the code asks for. */
  method ComputeLcm(a: nat, b: nat) returns (l: nat)
    requires a > 0 && b > 0 && a * b <= MAXINT
    ensures l == Lcm(a, b)
  {
    var g := ComputeGcd(a, b);
    GcdPositive(a, b);
    l := a * b / g;
  }

  lemma {:induction false} GcdPositive(a: nat, b: nat)
    requires a > 0 || b > 0
    ensures Gcd(a, b) > 0
    decreases b
  {
    if b > 0 { GcdPositive(b, a % b); }
  }

  function Lcm(a: nat, b: nat): nat
    requires a > 0 && b > 0
  {
    GcdPositive(a, b);
    a * b / Gcd(a, b)
  }

  // ----- divisors -----

  lemma DividesIntro(d: nat, n: nat, k: int)
    requires n == d * k && (k >= 0 || n == 0)
    ensures Divides(d, n)
  {
    if k >= 0 { assert n == Times(d, k); } else { assert n == Times(d, 0); }
  }

  lemma MulGrows(d: nat, k: nat)
    requires k >= 1
    ensures d * k >= d
  {
  }

  /** The result divides both arguments. */
  lemma {:induction false} GcdDivides(a: nat, b: nat)
    ensures Divides(Gcd(a, b), a) && Divides(Gcd(a, b), b)
    decreases b
  {
    if b == 0 {
      assert a == Times(a, 1) && 0 == Times(a, 0);
    } else {
      GcdDivides(b, a % b);
      var g := Gcd(a, b);
      var j: nat :| b == Times(g, j);
      var k: nat :| a % b == Times(g, k);
      assert a == a / b * b + a % b;
      Combine(g, j, k, a / b);
    }
  }

  lemma Combine(g: nat, j: nat, k: nat, q: nat)
    ensures Divides(g, q * (g * j) + g * k)
  {
    assert q * (g * j) + g * k == g * (q * j + k);
    assert q * (g * j) + g * k == Times(g, q * j + k);
  }

  /** The result is a combination of the arguments, so every common divisor divides it. */
  lemma {:induction false} Bezout(a: nat, b: nat) returns (x: int, y: int)
    ensures a * x + b * y == Gcd(a, b)
    decreases b
  {
    if b == 0 {
      x, y := 1, 0;
    } else {
      var u, v := Bezout(b, a % b);
      var q := a / b;
      x, y := v, u - q * v;
      assert a % b == a - q * b;
      assert a * v + b * (u - q * v) == b * u + (a - q * b) * v;
    }
  }

  // ----- the least common multiple -----

  lemma {:induction false} LcmParts(a: nat, b: nat)
    requires a > 0 && b > 0
    ensures Divides(a, Lcm(a, b)) && Divides(b, Lcm(a, b)) && Lcm(a, b) > 0
    ensures Lcm(a, b) * Gcd(a, b) == a * b
  {
    var g := Gcd(a, b);
    GcdPositive(a, b);
    GcdDivides(a, b);
    var j: nat :| a == Times(g, j);
    var k: nat :| b == Times(g, k);
    Parts(a, b, g, j, k);
    Alignment.MultipleOf(a * k, g);
    assert Lcm(a, b) == a * k == Times(a, k);
    assert Lcm(a, b) == Times(b, j);
  }

  lemma Parts(a: nat, b: nat, g: nat, j: nat, k: nat)
    requires a > 0 && b > 0 && g > 0 && a == g * j && b == g * k
    ensures j > 0 && k > 0 && a * b == g * (a * k) && a * k == b * j && a * k > 0
  {
    assert j > 0 && k > 0;
    assert a * b == g * (a * k) by { assert a * (g * k) == g * (a * k); }
    assert a * k == b * j by { assert g * j * k == g * k * j; }
    MulGrows(a, k);
  }

  /** Every common multiple is a multiple of the least one. */
  lemma LcmLeast(a: nat, b: nat, m: nat)
    requires a > 0 && b > 0 && Divides(a, m) && Divides(b, m)
    ensures Divides(Lcm(a, b), m)
  {
    var g, l := Gcd(a, b), Lcm(a, b);
    LcmParts(a, b);
    GcdPositive(a, b);
    var x, y := Bezout(a, b);
    var s: nat :| m == Times(a, s);
    var t: nat :| m == Times(b, t);
    Combination(a, b, x, y, s, t, m);
    assert g * m == g * (l * (x * t + y * s)) by { Regroup(l, g, x * t + y * s); }
    Cancel(g, m, l * (x * t + y * s));
    Sign(l, x * t + y * s);
    DividesIntro(l, m, x * t + y * s);
  }

  lemma Combination(a: int, b: int, x: int, y: int, s: int, t: int, m: int)
    requires m == a * s && m == b * t
    ensures (a * x + b * y) * m == a * b * (x * t + y * s)
  {
    assert (a * x + b * y) * m == a * x * (b * t) + b * y * (a * s);
    assert a * x * (b * t) == a * b * (x * t);
    assert b * y * (a * s) == a * b * (y * s);
  }

  lemma Regroup(l: int, g: int, k: int)
    ensures l * g * k == g * (l * k)
  {
  }

  lemma MulLess(g: nat, m: int, n: int)
    requires g > 0 && m < n
    ensures g * m < g * n
  {
  }

  lemma Cancel(g: nat, m: int, n: int)
    requires g > 0 && g * m == g * n
    ensures m == n
  {
    if m < n { MulLess(g, m, n); }
    if n < m { MulLess(g, n, m); }
  }

  lemma Sign(l: nat, k: int)
    requires l > 0 && l * k >= 0
    ensures k >= 0
  {
    if k < 0 { MulLess(l, k, 0); }
  }

  // ----- a list of periods -----

  predicate Positive(ps: seq<nat>) {
    forall i :: 0 <= i < |ps| ==> ps[i] > 0
  }

  /** The fold over the partitions' periods, starting from 1. */
  function LcmAll(ps: seq<nat>): (l: nat)
    requires Positive(ps)
    ensures l > 0
    decreases |ps|
  {
    if ps == [] then 1
    else
      var l := LcmAll(ps[..|ps| - 1]);
      LcmParts(l, ps[|ps| - 1]);
      Lcm(l, ps[|ps| - 1])
  }

  /** No product on the way exceeds the machine's signed word. */
  predicate Fits(ps: seq<nat>)
    requires Positive(ps)
    decreases |ps|
  {
    ps == [] || (Fits(ps[..|ps| - 1]) && LcmAll(ps[..|ps| - 1]) * ps[|ps| - 1] <= MAXINT)
  }

  lemma {:induction false} DividesTransitive(a: nat, b: nat, c: nat)
    requires Divides(a, b) && Divides(b, c)
    ensures Divides(a, c)
  {
    var j: nat :| b == Times(a, j);
    var k: nat :| c == Times(b, k);
    assert c == a * (j * k);
    assert c == Times(a, j * k);
  }

  /** The fold is the least common multiple of all the periods. */
  lemma {:induction false} LcmAllIsLeast(ps: seq<nat>, m: nat)
    requires Positive(ps)
    ensures forall i :: 0 <= i < |ps| ==> Divides(ps[i], LcmAll(ps))
    ensures (forall i :: 0 <= i < |ps| ==> Divides(ps[i], m)) <==> Divides(LcmAll(ps), m)
    decreases |ps|
  {
    if ps == [] {
      assert m == Times(1, m);
    } else {
      var front, p := ps[..|ps| - 1], ps[|ps| - 1];
      var l := LcmAll(front);
      LcmAllIsLeast(front, m);
      LcmAllIsLeast(front, LcmAll(ps));
      LcmParts(l, p);
      if Divides(l, m) && Divides(p, m) { LcmLeast(l, p, m); }
      if Divides(LcmAll(ps), m) {
        DividesTransitive(l, LcmAll(ps), m);
        DividesTransitive(p, LcmAll(ps), m);
      }
      assert forall i :: 0 <= i < |front| ==> ps[i] == front[i];
    }
  }
}
