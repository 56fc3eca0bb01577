/**
 * Three-component vectors over the mathematical reals, standing for the
 * engine's Vector3. Lengths are compared through squared norms; the engine's
 * square root is represented by any non-negative number whose square is the
 * squared norm (see IsLengthOf).
 */
module Vectors {

  datatype Vec3 = Vec3(x: real, y: real, z: real)

  const Zero: Vec3 := Vec3(0.0, 0.0, 0.0)

  function Add(a: Vec3, b: Vec3): Vec3 {
    Vec3(a.x + b.x, a.y + b.y, a.z + b.z)
  }

  function Scale(v: Vec3, k: real): Vec3 {
    Vec3(k * v.x, k * v.y, k * v.z)
  }

  function Sq(a: real): real {
    a * a
  }

  /** The squared Euclidean norm. */
  function SqLen(v: Vec3): real {
    Sq(v.x) + Sq(v.y) + Sq(v.z)
  }

  /** `len` is the Euclidean length of `v`: non-negative and squaring to the squared norm. */
  ghost predicate IsLengthOf(v: Vec3, len: real) {
    len >= 0.0 && Sq(len) == SqLen(v)
  }

  /** `length` behaves as the engine's `Vector3.length()` on every vector. */
  ghost predicate IsLengthFunction(length: Vec3 -> real) {
    forall v :: IsLengthOf(v, length(v))
  }

  /**
   * The engine's `normalize()`: divides by the length, except that a zero
   * vector (and a vector already of length one) is returned as it is.
   */
  function Normalized(v: Vec3, len: real): (r: Vec3)
    requires IsLengthOf(v, len)
    ensures len == 0.0 ==> r == v
    ensures len > 0.0 ==> r == Scale(v, 1.0 / len) && SqLen(r) == 1.0
  {
    if len == 0.0 || len == 1.0 then v
    else
      SqLenScale(v, 1.0 / len);
      SqInverse(len);
      Scale(v, 1.0 / len)
  }

  lemma MulPositive(a: real, b: real)
    requires a > 0.0 && b > 0.0
    ensures a * b > 0.0
  {
  }

  /** A square is non-negative, and zero only for zero. */
  lemma SqPositive(a: real)
    ensures Sq(a) >= 0.0
    ensures a != 0.0 ==> Sq(a) > 0.0
  {
    if a > 0.0 {
      MulPositive(a, a);
      calc {
        Sq(a);
        a * a;
        >
        0.0;
      }
    } else if a < 0.0 {
      MulPositive(-a, -a);
      calc {
        Sq(a);
        a * a;
        (-a) * (-a);
        >
        0.0;
      }
    }
  }

  /** Squaring is strictly monotone on the non-negative reals. */
  lemma SqStrict(a: real, b: real)
    requires 0.0 <= a < b
    ensures Sq(a) < Sq(b)
  {
    MulPositive(b - a, b + a);
    assert (b - a) * (b + a) == b * b - a * a;
  }

  lemma SqMul(a: real, b: real)
    ensures Sq(a * b) == Sq(a) * Sq(b)
  {
    assert (a * b) * (a * b) == (a * a) * (b * b);
  }

  lemma SqInverse(len: real)
    requires len > 0.0
    ensures Sq(1.0 / len) * Sq(len) == 1.0
  {
    SqMul(1.0 / len, len);
    assert (1.0 / len) * len == 1.0;
  }

  lemma SqNeg(a: real)
    ensures Sq(-a) == Sq(a)
  {
    calc {
      Sq(-a);
      (-a) * (-a);
      a * a;
      Sq(a);
    }
  }

  /** A factor between -1 and 1 has a square of at most one. */
  lemma SqAtMostOne(a: real)
    requires -1.0 <= a <= 1.0
    ensures Sq(a) <= 1.0
  {
    assert Sq(1.0) == 1.0;
    if a >= 0.0 {
      SqMonotone(a, 1.0);
    } else {
      SqMonotone(-a, 1.0);
      SqNeg(a);
    }
  }

  /** Squaring is monotone on the non-negative reals. */
  lemma SqMonotone(a: real, b: real)
    requires 0.0 <= a <= b
    ensures Sq(a) <= Sq(b)
  {
    if a < b {
      SqStrict(a, b);
    }
  }

  /** Multiplying a non-negative number by a factor of at most one does not increase it. */
  lemma MulAtMostOne(a: real, c: real)
    requires a <= 1.0 && c >= 0.0
    ensures a * c <= c
  {
    if a < 1.0 && c > 0.0 {
      MulPositive(1.0 - a, c);
      calc {
        c - a * c;
        (1.0 - a) * c;
        >
        0.0;
      }
    }
  }

  lemma ScaleScale(v: Vec3, a: real, b: real)
    ensures Scale(Scale(v, a), b) == Scale(v, b * a)
  {
    assert b * (a * v.x) == (b * a) * v.x;
    assert b * (a * v.y) == (b * a) * v.y;
    assert b * (a * v.z) == (b * a) * v.z;
  }

  lemma ScaleZero(k: real)
    ensures Scale(Zero, k) == Zero && SqLen(Zero) == 0.0
  {
  }

  lemma ScaleOne(v: Vec3)
    ensures Scale(v, 1.0) == v
  {
  }

  /** Scaling by a factor between -1 and 1 does not lengthen a vector. */
  lemma ScaledNotLonger(v: Vec3, k: real)
    requires -1.0 <= k <= 1.0
    ensures SqLen(Scale(v, k)) <= SqLen(v)
  {
    var t := SqLen(v);
    var q := Sq(k);
    assert SqLen(Scale(v, k)) == q * t by { SqLenScale(v, k); }
    assert q * t <= t by {
      SqLenNonNegative(v);
      SqAtMostOne(k);
      MulAtMostOne(q, t);
    }
  }

  lemma SqLenNonNegative(v: Vec3)
    ensures SqLen(v) >= 0.0
    ensures SqLen(v) == 0.0 <==> v == Zero
  {
    SqPositive(v.x);
    SqPositive(v.y);
    SqPositive(v.z);
  }

  /** Scaling by k multiplies the squared norm by k squared. */
  lemma SqLenScale(v: Vec3, k: real)
    ensures SqLen(Scale(v, k)) == Sq(k) * SqLen(v)
  {
    SqMul(k, v.x);
    SqMul(k, v.y);
    SqMul(k, v.z);
    assert Sq(k) * SqLen(v) == Sq(k) * Sq(v.x) + Sq(k) * Sq(v.y) + Sq(k) * Sq(v.z);
  }

  /** `length() > 0` holds exactly when the squared norm is positive. */
  lemma LengthPositive(v: Vec3, len: real)
    requires IsLengthOf(v, len)
    ensures len > 0.0 <==> SqLen(v) > 0.0
  {
    SqPositive(len);
  }

  /** For a non-negative bound m, `length() < m` holds exactly when the squared norm is below m squared. */
  lemma LengthBelow(v: Vec3, len: real, m: real)
    requires IsLengthOf(v, len) && m >= 0.0
    ensures len < m <==> SqLen(v) < Sq(m)
  {
    if len < m {
      SqStrict(len, m);
    } else if m < len {
      SqStrict(m, len);
    }
  }
}
