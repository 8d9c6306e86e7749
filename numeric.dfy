/** Arithmetic helpers standing in for the C++ integer and floating-point
    operations that the drive-shaping code relies on.  Dafny's `/` on `int`
    is Euclidean and `real` is exact, so C++'s truncating division and the
    truncating `double`-to-`int` conversion are written out here. */
module Numeric {

  /** C's `abs`. */
  function Abs(x: int): (r: nat)
    ensures r == x || r == -x
  {
    if x < 0 then -x else x
  }

  function Min(a: int, b: int): (r: int)
    ensures r <= a && r <= b && (r == a || r == b)
  {
    if a <= b then a else b
  }

  function Max(a: int, b: int): (r: int)
    ensures r >= a && r >= b && (r == a || r == b)
  {
    if a >= b then a else b
  }

  /** x lies between a and b, inclusive, whichever of the two is larger. */
  predicate Between(a: int, x: int, b: int)
  {
    Min(a, b) <= x <= Max(a, b)
  }

  function Cube(x: int): int
  {
    x * x * x
  }

  /** C++ integer division: the quotient is truncated toward zero. */
  function TruncDiv(n: int, d: int): (q: int)
    requires d != 0
    ensures Abs(q) * Abs(d) <= Abs(n) < (Abs(q) + 1) * Abs(d)
    ensures q == 0 || ((q < 0) <==> ((n < 0) != (d < 0)))
  {
    var m := Abs(n) / Abs(d);
    EuclidBounds(Abs(n), Abs(d));
    if (n < 0) != (d < 0) then -m else m
  }

  /** The C++ conversion of a floating-point value to `int`: truncation
      toward zero. */
  function Trunc(x: real): (r: int)
    ensures Abs(r) as real <= (if x < 0.0 then -x else x) < Abs(r) as real + 1.0
    ensures r == 0 || ((r < 0) <==> (x < 0.0))
  {
    if x < 0.0 then -((-x).Floor) else x.Floor
  }

  lemma {:induction false} TruncDivNeg(n: int, d: int)
    requires d != 0
    ensures TruncDiv(-n, d) == -TruncDiv(n, d)
  {
  }

  /** Truncating division by a positive divisor is monotone in the dividend. */
  lemma TruncDivMonotone(a: int, b: int, d: int)
    requires 0 < d && a <= b
    ensures TruncDiv(a, d) <= TruncDiv(b, d)
  {
    if 0 <= a {
      EuclidMonotone(a, b, d);
    } else if b < 0 {
      EuclidMonotone(-b, -a, d);
    }
  }

  /** The Euclidean quotient of naturals is the floor of the exact quotient. */
  lemma EuclidBounds(a: nat, b: nat)
    requires 0 < b
    ensures (a / b) * b <= a < (a / b + 1) * b
  {
    var q, m := a / b, a % b;
    assert a == q * b + m && 0 <= m < b;
    assert (q + 1) * b == q * b + b;
  }

  lemma EuclidMonotone(a: int, b: int, d: int)
    requires 0 <= a <= b && 0 < d
    ensures a / d <= b / d
  {
    var qa, qb := a / d, b / d;
    assert qa * d <= a && b < qb * d + d;
    if qb < qa {
      assert qb + 1 <= qa;
      MulMonotone(qb + 1, qa, d);
      assert false;
    }
  }

  lemma MulMonotone(x: int, y: int, z: int)
    requires x <= y && 0 <= z
    ensures x * z <= y * z
  {
    assert y * z - x * z == (y - x) * z;
  }

  /** Multiplying by a positive factor preserves and reflects order. */
  lemma MulOrder(x: int, y: int, z: int)
    requires 0 < z
    ensures x <= y <==> x * z <= y * z
  {
    assert y * z - x * z == (y - x) * z;
    if x <= y {
      MulMonotone(x, y, z);
    } else {
      MulPositive(x - y, z);
    }
  }

  lemma MulPositive(a: int, b: int)
    requires 0 < a && 0 < b
    ensures 0 < a * b
  {
  }

  /** The truncated exact quotient is C++'s integer quotient. */
  lemma TruncOfQuotient(n: int, d: int)
    requires 0 < d
    ensures Trunc(n as real / d as real) == TruncDiv(n, d)
  {
    var q := Abs(n) / d;
    var x := Abs(n) as real / d as real;
    EuclidBounds(Abs(n), d);
    FloorOfQuotient(Abs(n), d, q);
    assert 0.0 <= x && x.Floor == q;
    if n < 0 {
      NegQuotient(Abs(n), d);
      assert n as real / d as real == -x;
    } else {
      assert n as real / d as real == x;
    }
  }

  lemma NegQuotient(a: int, d: int)
    requires 0 < d
    ensures (-a) as real / d as real == -(a as real / d as real)
  {
  }

  lemma FloorOfQuotient(a: nat, d: int, q: int)
    requires 0 < d && q * d <= a < (q + 1) * d
    ensures (a as real / d as real).Floor == q
  {
    var x := a as real / d as real;
    assert x * d as real == a as real;
    assert (q * d) as real == q as real * d as real;
    assert ((q + 1) * d) as real == (q as real + 1.0) * d as real;
    if x < q as real {
      RealMulMonotone(x, q as real, d as real);
      assert false;
    }
    if q as real + 1.0 <= x {
      RealMulMonotone(q as real + 1.0, x, d as real);
      assert false;
    }
  }

  lemma RealMulMonotone(x: real, y: real, z: real)
    requires x <= y && 0.0 <= z
    ensures x * z <= y * z
  {
    assert y * z - x * z == (y - x) * z;
  }

  /** x^3 is monotone. */
  lemma CubeMonotone(a: int, b: int)
    requires a <= b
    ensures Cube(a) <= Cube(b)
  {
    if 0 <= a {
      CubeMonotoneNonNeg(a, b);
    } else if b <= 0 {
      CubeMonotoneNonNeg(-b, -a);
      assert Cube(-a) == -Cube(a) && Cube(-b) == -Cube(b);
    } else {
      CubeSign(a);
      CubeSign(b);
    }
  }

  lemma CubeMonotoneNonNeg(a: int, b: int)
    requires 0 <= a <= b
    ensures Cube(a) <= Cube(b)
  {
    MulMonotone(a, b, a);
    MulMonotone(a, b, b);
    assert a * a <= b * b;
    MulMonotone(a * a, b * b, a);
    MulMonotone(a, b, b * b);
  }

  lemma CubeSign(a: int)
    ensures a < 0 ==> Cube(a) < 0
    ensures a > 0 ==> Cube(a) > 0
  {
    if a > 0 {
      assert a * a > 0;
    } else if a < 0 {
      assert a * a > 0;
    }
  }
}
