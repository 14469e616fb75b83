/**
 * Model of Vector2.java: a 2-D vector of scalars.
 *
 * Java's `float` is modelled as `real` (no rounding). The vector class is a
 * value here: its only mutator, `normalize`, is only ever applied to a fresh
 * vector returned by `subtract`, so it is modelled as a function returning
 * the normalised vector.
 *
 * `Math.sqrt` is not defined in this model; every member that needs it takes
 * the square root as a parameter `sqrt` that must satisfy `IsSqrt`.
 */
module Vectors {

  datatype Vector2 = Vector2(x: real, y: real)

  /** Vector2.ZERO */
  const Zero: Vector2 := Vector2(0.0, 0.0)

  /** What the model assumes of `Math.sqrt`: on non-negative inputs it returns the
      non-negative square root. */
  ghost predicate IsSqrt(sqrt: real -> real)
  {
    forall v: real :: 0.0 <= v ==> 0.0 <= sqrt(v) && sqrt(v) * sqrt(v) == v
  }

  function DistanceSquared(a: Vector2, b: Vector2): (d: real)
    ensures d >= 0.0
  {
    var dx := a.x - b.x;
    var dy := a.y - b.y;
    SquareNonNegative(dx);
    SquareNonNegative(dy);
    dx * dx + dy * dy
  }

  function Distance(a: Vector2, b: Vector2, sqrt: real -> real): (d: real)
    requires IsSqrt(sqrt)
    ensures d >= 0.0 && d * d == DistanceSquared(a, b)
  {
    sqrt(DistanceSquared(a, b))
  }

  function LengthSquared(v: Vector2): (l: real)
    ensures l >= 0.0
  {
    SquareNonNegative(v.x);
    SquareNonNegative(v.y);
    v.x * v.x + v.y * v.y
  }

  function Subtract(a: Vector2, b: Vector2): Vector2
  {
    Vector2(a.x - b.x, a.y - b.y)
  }

  function Multiply(v: Vector2, scalar: real): Vector2
  {
    Vector2(v.x * scalar, v.y * scalar)
  }

  function Add(a: Vector2, b: Vector2): Vector2
  {
    Vector2(a.x + b.x, a.y + b.y)
  }

  /** The in-place `normalize` of the source, applied to a fresh vector: the result
      has length 1 and scaling it back by the original length gives the input, so it
      points the same way. A zero vector is excluded (the source divides by zero). */
  function Normalize(v: Vector2, sqrt: real -> real): (u: Vector2)
    requires IsSqrt(sqrt)
    requires LengthSquared(v) > 0.0
    ensures LengthSquared(u) == 1.0
    ensures sqrt(LengthSquared(v)) > 0.0 && Multiply(u, sqrt(LengthSquared(v))) == v
  {
    var length := sqrt(LengthSquared(v));
    var u := Vector2(v.x / length, v.y / length);
    assert u.x * length == v.x && u.y * length == v.y;
    calc {
      LengthSquared(u) * (length * length);
      (u.x * length) * (u.x * length) + (u.y * length) * (u.y * length);
      LengthSquared(v);
      1.0 * (length * length);
    }
    u
  }

  lemma ProductSign(p: real, q: real)
    requires p >= 0.0 && q >= 0.0
    ensures p * q >= 0.0
    ensures p > 0.0 && q > 0.0 ==> p * q > 0.0
  {
  }

  lemma SquareNonNegative(p: real)
    ensures p * p >= 0.0
  {
    if p < 0.0 {
      assert p * p == (-p) * (-p);
    }
  }

  lemma SquareBelow(d: real, limit: real)
    requires 0.0 <= d < limit
    ensures d * d < limit * limit
  {
    ProductSign(limit - d, limit + d);
    assert (limit - d) * (limit + d) > 0.0;
    assert (limit - d) * (limit + d) == limit * limit - d * d;
  }

  lemma SquareAtLeast(d: real, limit: real)
    requires 0.0 <= limit <= d
    ensures limit * limit <= d * d
  {
    ProductSign(d - limit, d + limit);
    assert (d - limit) * (d + limit) >= 0.0;
    assert (d - limit) * (d + limit) == d * d - limit * limit;
  }

  lemma DistanceSquaredSymmetric(a: Vector2, b: Vector2)
    ensures DistanceSquared(a, b) == DistanceSquared(b, a)
  {
  }

  lemma LengthOfDifference(a: Vector2, b: Vector2)
    ensures LengthSquared(Subtract(a, b)) == DistanceSquared(a, b)
  {
  }

  /** Subtract and Add are inverse to each other. */
  lemma SubtractThenAdd(a: Vector2, b: Vector2)
    ensures Add(b, Subtract(a, b)) == a
    ensures Subtract(Add(a, b), b) == a
  {
  }

  lemma AddThenSubtract(a: Vector2, w: Vector2)
    ensures Subtract(Add(a, w), a) == w
  {
  }

  /** Scaling twice does not depend on the order of the two factors. */
  lemma MultiplyCommutes(v: Vector2, s: real, t: real)
    ensures Multiply(Multiply(v, s), t) == Multiply(Multiply(v, t), s)
  {
    assert v.x * s * t == v.x * t * s;
    assert v.y * s * t == v.y * t * s;
  }

  lemma MultiplyIdentityAndZero(v: Vector2)
    ensures Multiply(v, 1.0) == v
    ensures Multiply(v, 0.0) == Zero
  {
  }

  /** Scaling a vector by s scales its squared length by s * s. */
  lemma LengthSquaredOfMultiple(v: Vector2, s: real)
    ensures LengthSquared(Multiply(v, s)) == s * s * LengthSquared(v)
  {
    calc {
      LengthSquared(Multiply(v, s));
      (v.x * s) * (v.x * s) + (v.y * s) * (v.y * s);
      s * s * (v.x * v.x + v.y * v.y);
    }
  }

  function Square(s: real): real
  {
    s * s
  }

  /** Scaling a unit vector by `s` gives a vector of length |s|. */
  lemma LengthOfUnitMultiple(v: Vector2, u: Vector2, s: real)
    requires LengthSquared(u) == 1.0 && v == Multiply(u, s)
    ensures LengthSquared(v) == Square(s)
  {
    LengthSquaredOfMultiple(u, s);
  }

  /** Comparing a distance against a non-negative limit is the same as comparing the
      squared distance against the squared limit: this is why the source may use
      either. */
  lemma DistanceBelowLimit(a: Vector2, b: Vector2, sqrt: real -> real, limit: real)
    requires IsSqrt(sqrt)
    requires limit >= 0.0
    ensures Distance(a, b, sqrt) < limit <==> DistanceSquared(a, b) < limit * limit
  {
    var d := Distance(a, b, sqrt);
    if d < limit {
      SquareBelow(d, limit);
    } else {
      SquareAtLeast(d, limit);
    }
  }
}
