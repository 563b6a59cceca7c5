/** Powers of two and multiples, as the allocator, the page tables and the bitmap use them. */
module Alignment {

  predicate IsPow2(n: nat)
    decreases n
  {
    n == 1 || (n >= 2 && n % 2 == 0 && IsPow2(n / 2))
  }

  lemma MulAtLeast(a: nat, d: nat)
    requires d >= 1
    ensures a * d >= a
  {
  }

  lemma MultipleOf(k: nat, a: nat)
    requires a > 0
    ensures (a * k) % a == 0 && (a * k) / a == k
  {
    var x := a * k;
    var q, r := x / a, x % a;
    assert a * (k - q) == r by { assert x == a * q + r; }
    assert k >= q;
    if k > q { MulAtLeast(a, k - q); }
  }

  lemma SumMultiple(x: nat, y: nat, a: nat)
    requires a > 0 && x % a == 0 && y % a == 0
    ensures (x + y) % a == 0
    ensures x >= y ==> (x - y) % a == 0
  {
    var p, q := x / a, y / a;
    assert x + y == a * (p + q);
    MultipleOf(p + q, a);
    if x >= y {
      assert x - y == a * (p - q);
      assert p >= q;
      MultipleOf(p - q, a);
    }
  }

  lemma ShiftMultiple(x: nat, y: nat, a: nat)
    requires a > 0 && x % a == 0
    ensures (x + y) % a == 0 <==> y % a == 0
  {
    if (x + y) % a == 0 {
      SumMultiple(x + y, x, a);
    } else if y % a == 0 {
      SumMultiple(x, y, a);
    }
  }

  lemma MultipleTransitive(x: nat, b: nat, a: nat)
    requires a > 0 && b > 0 && x % b == 0 && b % a == 0
    ensures x % a == 0
  {
    var p, q := x / b, b / a;
    assert x == a * (q * p) by {
      assert x == b * p && b == a * q;
      assert (a * q) * p == a * (q * p);
    }
    MultipleOf(q * p, a);
  }

  /** Two distinct multiples of a lie at least a apart. */
  lemma MultipleGap(x: nat, y: nat, a: nat)
    requires a > 0 && x % a == 0 && y % a == 0 && x < y
    ensures x + a <= y
  {
    var p, q := x / a, y / a;
    assert x == a * p && y == a * q;
    assert p < q;
    assert a * (p + 1) <= a * q;
  }

  /** A multiple of a is, modulo 2a, either 0 or a. */
  lemma DoubleStep(x: nat, a: nat)
    requires a > 0 && x % a == 0
    ensures x % (2 * a) == 0 || (x >= a && (x - a) % (2 * a) == 0)
    ensures x % (2 * a) == 0 ==> (x + a) % (2 * a) != 0
    ensures x >= a && (x - a) % (2 * a) == 0 ==> x % (2 * a) != 0
  {
    var p := x / a;
    assert x == a * p;
    if p % 2 == 0 {
      assert x == (2 * a) * (p / 2) by { assert p == 2 * (p / 2); }
      MultipleOf(p / 2, 2 * a);
    } else {
      assert p == 2 * (p / 2) + 1;
      assert x - a == (2 * a) * (p / 2);
      MultipleOf(p / 2, 2 * a);
    }
    if x % (2 * a) == 0 && (x + a) % (2 * a) == 0 {
      MultipleGap(x, x + a, 2 * a);
    }
    if x >= a && (x - a) % (2 * a) == 0 && x % (2 * a) == 0 {
      MultipleGap(x - a, x, 2 * a);
    }
  }

  lemma {:induction false} Pow2Half(a: nat, b: nat)
    requires IsPow2(a) && IsPow2(b) && a < b
    ensures 2 * a <= b
    decreases b
  {
    if a > 1 {
      Pow2Half(a / 2, b / 2);
    }
  }

  /** The smaller of two powers of two divides the larger. */
  lemma {:induction false} Pow2Divides(a: nat, b: nat)
    requires IsPow2(a) && IsPow2(b) && a <= b
    ensures b % a == 0
    decreases b
  {
    if a < b {
      Pow2Half(a, b);
      Pow2Divides(a, b / 2);
      SumMultiple(b / 2, b / 2, a);
    } else {
      MultipleOf(1, a);
    }
  }
}
