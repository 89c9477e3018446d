/**
 * Arithmetic facts the examples' integer and real computations rely on: Euclidean
 * division by a product, and scaling a non-negative value by a factor in [0, 1].
 */
module Arith {

  /** Euclidean division is determined by any quotient/remainder pair. */
  lemma DivUnique(n: int, d: int, a: int, b: int)
    requires d > 0 && n == a * d + b && 0 <= b < d
    ensures n / d == a
  {
    var q, s := n / d, n % d;
    assert n == q * d + s && 0 <= s < d;
    assert (a - q) * d == s - b;
    MulSign(a - q, d);
  }

  lemma MulSign(k: int, d: int)
    requires d > 0
    ensures k >= 1 ==> k * d >= d
    ensures k <= -1 ==> k * d <= -d
  {
  }

  /** Dividing by a and then by b is dividing by a * b. */
  lemma DivDiv(n: nat, a: nat, b: nat)
    requires a >= 1 && b >= 1
    ensures n / (a * b) == (n / a) / b
  {
    var q, s := n / a, n % a;
    var h, t := q / b, q % b;
    var ab := a * b;
    assert n == q * a + s && 0 <= s < a;
    assert q == h * b + t && 0 <= t < b;
    MulAddRight(h * b, t, a);
    MulRegroup(h, b, a);
    assert q * a == h * ab + t * a;
    MulMonoLeft(t, b - 1, a);
    MulAddRight(b, -1, a);
    assert t * a + s < ab;
    DivUnique(n, ab, h, t * a + s);
  }

  lemma MulAddRight(x: int, y: int, z: int)
    ensures (x + y) * z == x * z + y * z
  {
  }

  lemma MulRegroup(h: int, b: int, a: int)
    ensures h * b * a == h * (a * b)
  {
  }

  lemma MulMonoLeft(x: int, y: int, z: int)
    requires x <= y && z >= 0
    ensures x * z <= y * z
  {
  }

  lemma MulNonneg(a: real, b: real)
    requires 0.0 <= a && 0.0 <= b
    ensures 0.0 <= a * b
  {
  }

  /** Scaling by a factor in [0, 1] does not grow a non-negative value. */
  lemma ScaleAtMost(a: real, d: real)
    requires 0.0 <= a && 0.0 <= d <= 1.0
    ensures 0.0 <= a * d <= a
  {
    MulNonneg(a, d);
    MulNonneg(a, 1.0 - d);
  }

  /** The sign and size facts of scaling a non-negative value, for any factor. */
  lemma ScaleFacts(a: real, d: real)
    requires 0.0 <= a
    ensures 0.0 <= d ==> 0.0 <= a * d
    ensures 0.0 <= d <= 1.0 ==> a * d <= a
  {
    if 0.0 <= d {
      MulNonneg(a, d);
    }
    if 0.0 <= d <= 1.0 {
      ScaleAtMost(a, d);
    }
  }

  /** A part over a positive whole is a ratio in [0, 1] that scales the whole back to the part. */
  lemma RatioInUnit(m: real, i: real)
    requires 0.0 < i && 0.0 <= m <= i
    ensures 0.0 <= m / i <= 1.0
    ensures i * (m / i) == m
  {
  }
}
