/**
 * Scalar arithmetic of the element-wise operator families, on exact real
 * values: Java's truncating remainder and integer powers.
 */
module Arith {

  /** The six binary operator families of the array arithmetic surface. */
  datatype BinOp = Add | Sub | Mul | Div | Mod | Pow

  function Abs(x: real): real {
    if x < 0.0 then -x else x
  }

  /** Rounds toward zero, as a Java narrowing conversion does. */
  function Trunc(q: real): int {
    if q >= 0.0 then q.Floor else -((-q).Floor)
  }

  lemma TruncBounds(q: real)
    ensures q >= 0.0 ==> 0 <= Trunc(q) && 0.0 <= q - Trunc(q) as real < 1.0
    ensures q < 0.0 ==> Trunc(q) <= 0 && -1.0 < q - Trunc(q) as real <= 0.0
  {
  }

  /** Division; a zero divisor yields 0 here (IEEE infinities are not modelled). */
  function Quotient(x: real, y: real): real {
    if y == 0.0 then 0.0 else x / y
  }

  /** Java's float remainder x % y: the result takes the sign of the dividend. */
  function JavaRem(x: real, y: real): real {
    if y == 0.0 then 0.0 else x - y * (Trunc(x / y) as real)
  }

  /** x raised to a natural exponent. */
  function NatPow(x: real, n: nat): real
    decreases n
  {
    if n == 0 then 1.0 else x * NatPow(x, n - 1)
  }

  /** x raised to an integer exponent; a negative exponent gives the reciprocal. */
  function IntPow(x: real, n: int): real {
    if n >= 0 then NatPow(x, n)
    else
      var p := NatPow(x, -n);
      if p == 0.0 then 0.0 else 1.0 / p
  }

  /** One element of an element-wise operation, left operand first. */
  function Apply(op: BinOp, x: real, y: real): real {
    match op
    case Add => x + y
    case Sub => x - y
    case Mul => x * y
    case Div => Quotient(x, y)
    case Mod => JavaRem(x, y)
    case Pow => IntPow(x, Trunc(y))
  }

  /** Division undoes multiplication by a non-zero divisor. */
  lemma QuotientTimesDivisor(x: real, y: real)
    requires y != 0.0
    ensures Quotient(x, y) * y == x
  {
  }

  lemma RemIsScaledFraction(x: real, y: real)
    requires y != 0.0
    ensures JavaRem(x, y) == y * (x / y - Trunc(x / y) as real)
  {
    var t := Trunc(x / y) as real;
    assert y * (x / y - t) == y * (x / y) - y * t;
  }

  lemma ScaledFractionBound(y: real, f: real)
    requires y != 0.0 && -1.0 < f < 1.0
    ensures Abs(y * f) < Abs(y)
  {
    if y > 0.0 {
      if f >= 0.0 { assert y * f < y * 1.0; } else { assert y * (-f) < y * 1.0; }
    } else {
      if f >= 0.0 { assert (-y) * f < (-y) * 1.0; } else { assert (-y) * (-f) < (-y) * 1.0; }
    }
  }

  lemma SameSign(y: real, q: real, f: real)
    requires y != 0.0 && f != 0.0 && (f > 0.0 ==> q > 0.0) && (f < 0.0 ==> q < 0.0)
    ensures (y * f > 0.0) == (y * q > 0.0)
  {
  }

  /**
   * The remainder law of the Java Language Specification, section 15.17.3:
   * dividend == truncated quotient * divisor + remainder, the remainder is
   * smaller than the divisor in magnitude and is zero or has the sign of the
   * dividend.
   */
  lemma JavaRemLaw(x: real, y: real)
    requires y != 0.0
    ensures x == (Trunc(x / y) as real) * y + JavaRem(x, y)
    ensures Abs(JavaRem(x, y)) < Abs(y)
    ensures JavaRem(x, y) == 0.0 || (JavaRem(x, y) > 0.0 <==> x > 0.0)
  {
    var q := x / y;
    var f := q - Trunc(q) as real;
    TruncBounds(q);
    RemIsScaledFraction(x, y);
    ScaledFractionBound(y, f);
    if f != 0.0 {
      SameSign(y, q, f);
      assert y * q == x;
    }
  }

  lemma {:induction false} NatPowNonZero(x: real, n: nat)
    requires x != 0.0
    ensures NatPow(x, n) != 0.0
  {
    if n > 0 {
      NatPowNonZero(x, n - 1);
    }
  }

  /**
   * IntPow satisfies the power recurrence across the whole integer range,
   * negative exponents included: x^(n+1) == x * x^n for x != 0.
   */
  lemma IntPowStep(x: real, n: int)
    requires x != 0.0
    ensures IntPow(x, n + 1) == x * IntPow(x, n)
  {
    if n < 0 {
      var m := -n - 1;
      NatPowNonZero(x, m);
      NatPowNonZero(x, m + 1);
      assert NatPow(x, m + 1) == x * NatPow(x, m);
      if m == 0 {
        assert IntPow(x, n) == 1.0 / x;
      } else {
        assert IntPow(x, n + 1) == 1.0 / NatPow(x, m);
        assert IntPow(x, n) == 1.0 / (x * NatPow(x, m));
      }
    }
  }

  /** A negative exponent is the reciprocal of the positive one. */
  lemma IntPowReciprocal(x: real, n: nat)
    requires x != 0.0
    ensures IntPow(x, -(n as int)) * IntPow(x, n) == 1.0
  {
    NatPowNonZero(x, n);
  }
}
