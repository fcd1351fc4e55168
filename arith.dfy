/** Small facts of integer and real arithmetic that the solver does not find alone. */
module Arith {

  /**
   * `a * b` on naturals by repeated addition. Sizes and row-major offsets are
   * built from it so that the solver reasons about them linearly.
   */
  function Mul(a: nat, b: nat): nat
  {
    if a == 0 then 0 else b + Mul(a - 1, b)
  }

  /** Agrees with the built-in product. */
  lemma {:induction false} MulIsProduct(a: nat, b: nat)
    ensures Mul(a, b) == a * b
  {
    if a > 0 {
      MulIsProduct(a - 1, b);
    }
  }

  /** A product of naturals is zero exactly when a factor is. */
  lemma {:induction false} MulZero(a: nat, b: nat)
    ensures Mul(a, b) == 0 <==> a == 0 || b == 0
  {
    if a > 0 {
      MulZero(a - 1, b);
    }
  }

  /** A larger first factor gives a larger product; MulStep and DivBelow rest on it. */
  lemma {:induction false} MulMonotone(a: nat, b: nat, s: nat)
    requires a <= b
    ensures Mul(a, s) <= Mul(b, s)
  {
    if a < b {
      MulMonotone(a, b - 1, s);
    }
  }

  /** A digit below b, scaled by s, plus a remainder below s stays below b * s. */
  lemma MulStep(a: nat, b: nat, s: nat, c: nat)
    requires a < b && c < s
    ensures Mul(a, s) + c < Mul(b, s)
  {
    MulMonotone(a + 1, b, s);
  }

  /** Euclidean quotient and remainder of k by s, by repeated subtraction. */
  function DivMod(k: nat, s: nat): (qr: (nat, nat))
    requires s > 0
    ensures Mul(qr.0, s) + qr.1 == k && qr.1 < s
  {
    if k < s then (0, k)
    else
      var qr := DivMod(k - s, s);
      (qr.0 + 1, qr.1)
  }

  /** The quotient of k by s is below b whenever k is below b * s. */
  lemma DivBelow(k: nat, b: nat, s: nat)
    requires k < Mul(b, s) && 0 < s
    ensures DivMod(k, s).0 < b
  {
    var q := DivMod(k, s).0;
    if q >= b {
      MulMonotone(b, q, s);
    }
  }

  /** x squared, kept behind a function so that the solver treats it as one term. */
  function Square(x: real): real
  {
    x * x
  }

  lemma SquareOfNegation(x: real)
    ensures Square(-x) == Square(x)
  {
  }

  /** `a / b`, kept behind a function for the same reason. */
  function Quotient(a: real, b: real): (r: real)
    requires b != 0.0
    ensures r * b == a
  {
    a / b
  }

  lemma QuotientOfZero(a: real, b: real)
    requires a == 0.0 && b != 0.0
    ensures Quotient(a, b) == 0.0
  {
  }

  /** `a * x`, kept behind a function for the same reason. */
  function Scale(a: real, x: real): real
  {
    a * x
  }

  lemma ScaleZero(a: real)
    ensures Scale(a, 0.0) == 0.0
  {
  }

  lemma ProductPositive(a: real, b: real)
    requires a > 0.0 && b > 0.0
    ensures a * b > 0.0
  {
  }

  /** A product of reals is zero exactly when a factor is. */
  lemma ProductZero(a: real, b: real)
    ensures a * b == 0.0 <==> a == 0.0 || b == 0.0
  {
    if a != 0.0 && b != 0.0 {
      var p := (if a < 0.0 then -a else a) * (if b < 0.0 then -b else b);
      ProductPositive(if a < 0.0 then -a else a, if b < 0.0 then -b else b);
      assert p == a * b || p == -(a * b);
    }
  }

  /** Squaring is strictly monotone on the non-negative reals. */
  lemma SquareLess(x: real, y: real)
    requires 0.0 <= x < y
    ensures x * x < y * y
  {
    ProductPositive(y - x, y + x);
    assert (y - x) * (y + x) == y * y - x * x;
  }

  lemma SquareAtMost(x: real, y: real)
    requires 0.0 <= x <= y
    ensures x * x <= y * y
  {
    if x < y {
      SquareLess(x, y);
    }
  }

  /** Multiplying by a positive factor keeps a strict and a weak order. */
  lemma TimesPositive(a: real, b: real, t: real)
    requires t > 0.0
    ensures a < b <==> a * t < b * t
    ensures a <= b <==> a * t <= b * t
  {
  }
}
