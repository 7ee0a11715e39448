/** Powers of two and the integer division facts the dense backend's index
    arithmetic rests on (Python's `2**k`, `//` and `%` on non-negative
    integers, which agree with Dafny's on these operands). */
module Arith {

  function Pow2(k: nat): (p: nat)
    ensures p >= 1
  {
    if k == 0 then 1 else 2 * Pow2(k - 1)
  }

  lemma {:induction false} Pow2Add(a: nat, b: nat)
    ensures Pow2(a + b) == Pow2(a) * Pow2(b)
  {
    if a > 0 {
      Pow2Add(a - 1, b);
      calc {
        Pow2(a + b);
        2 * Pow2(a - 1 + b);
        2 * (Pow2(a - 1) * Pow2(b));
        (2 * Pow2(a - 1)) * Pow2(b);
      }
    }
  }

  /** Quotient and remainder are determined by the division equation. */
  lemma DivModUnique(x: int, d: int, q: int, r: int)
    requires d > 0 && 0 <= r < d && x == q * d + r
    ensures x / d == q && x % d == r
  {
    var q' := x / d;
    var r' := x % d;
    assert x == q' * d + r';
    if q' > q {
      assert q' * d >= (q + 1) * d by { MulMonotone(q + 1, q', d); }
    } else if q' < q {
      assert q * d >= (q' + 1) * d by { MulMonotone(q' + 1, q, d); }
    }
  }

  lemma MulMonotone(a: int, b: int, d: int)
    requires a <= b && d >= 0
    ensures a * d <= b * d
  {
    assert b * d - a * d == (b - a) * d;
  }

  /** Dividing by a then by b is dividing by a*b. */
  lemma DivDiv(x: nat, a: nat, b: nat)
    requires a > 0 && b > 0
    ensures x / a / b == x / (a * b)
  {
    var q := x / a / b;
    var r1 := x % a;
    var r2 := (x / a) % b;
    assert x / a == q * b + r2;
    assert x == (q * b + r2) * a + r1;
    assert x == q * (a * b) + (r2 * a + r1);
    MulMonotone(r2, b - 1, a);
    DivModUnique(x, a * b, q, r2 * a + r1);
  }

  /** Bit k of i, counting from the least significant bit. */
  function BitOf(i: nat, k: nat): (b: nat)
    ensures b < 2
  {
    (i / Pow2(k)) % 2
  }

  /** The position of i inside its block of 2s decides bit (i / s) % 2. */
  lemma HalfOfBlock(i: nat, s: nat)
    requires s > 0
    ensures (i / s) % 2 == (if i % (2 * s) >= s then 1 else 0)
  {
    var q := i / (2 * s);
    var r := i % (2 * s);
    assert i == q * (2 * s) + r;
    if r >= s {
      DivModUnique(i, s, 2 * q + 1, r - s);
    } else {
      DivModUnique(i, s, 2 * q, r);
    }
  }

  /** Bit j+1 of 2v+l is bit j of v. */
  lemma BitOfShift(v: nat, l: nat, j: nat)
    requires l < 2
    ensures BitOf(2 * v + l, j + 1) == BitOf(v, j)
  {
    DivModUnique(2 * v + l, 2, v, l);
    DivDiv(2 * v + l, 2, Pow2(j));
  }
}
