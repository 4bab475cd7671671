/**
 Real-valued helpers and the transcendental functions the estimator and the
 classifier take from numpy (square root, arc tangent, radians-to-degrees).
 Those are not definable here, so they are supplied as a `MathLib` value; the
 few facts the proofs rely on are collected in `Valid`.
 */
module RealMath {

  /** Three-component real vector (numpy's length-3 array). */
  datatype Vec3 = Vec3(x: real, y: real, z: real)

  const Zero: Vec3 := Vec3(0.0, 0.0, 0.0)

  function Add(u: Vec3, v: Vec3): Vec3 {
    Vec3(u.x + v.x, u.y + v.y, u.z + v.z)
  }

  function Sub(u: Vec3, v: Vec3): Vec3 {
    Vec3(u.x - v.x, u.y - v.y, u.z - v.z)
  }

  /** Multiplication of every component by `k`. */
  function Scale(k: real, v: Vec3): Vec3 {
    Vec3(k * v.x, k * v.y, k * v.z)
  }

  function SquaredNorm(v: Vec3): real {
    v.x * v.x + v.y * v.y + v.z * v.z
  }

  function Abs(a: real): real {
    if a < 0.0 then -a else a
  }

  function Max(a: real, b: real): (r: real)
    ensures a <= r && b <= r
    ensures r == a || r == b
  {
    if a >= b then a else b
  }

  function Min(a: real, b: real): real {
    if a <= b then a else b
  }

  /** numpy's `linalg.norm`, `sqrt`, `arctan2` and `degrees`, as supplied by the environment. */
  datatype MathLib = MathLib(
    norm: Vec3 -> real,
    sqrt: real -> real,
    atan2: (real, real) -> real,
    degrees: real -> real)

  /** `norm` is the Euclidean length: non-negative, and its square is the squared norm. */
  ghost predicate IsNorm(norm: Vec3 -> real) {
    forall v :: 0.0 <= norm(v) && norm(v) * norm(v) == SquaredNorm(v)
  }

  /** `sqrt` returns the non-negative square root of every non-negative argument. */
  ghost predicate IsSqrt(sqrt: real -> real) {
    forall q :: 0.0 <= q ==> 0.0 <= sqrt(q) && sqrt(q) * sqrt(q) == q
  }

  /** The only facts about the supplied functions that the proofs use. */
  ghost predicate Valid(m: MathLib) {
    && IsNorm(m.norm)
    && IsSqrt(m.sqrt)
    && m.degrees(0.0) == 0.0
    && forall x :: 0.0 < x ==> m.atan2(0.0, x) == 0.0
  }

  function Norm(m: MathLib, v: Vec3): real {
    m.norm(v)
  }

  /** Squaring is strictly increasing on the non-negative reals. */
  lemma SquareStrictlyIncreasing(a: real, b: real)
    requires 0.0 <= a < b
    ensures a * a < b * b
  {
    var d := b - a;
    assert b * b == a * a + 2.0 * a * d + d * d;
    assert 0.0 <= a * d;
    assert 0.0 < d * d;
  }

  /** Comparing a norm with a non-negative bound is comparing squares. */
  lemma NormBelow(m: MathLib, v: Vec3, bound: real)
    requires Valid(m)
    requires 0.0 <= bound
    ensures Norm(m, v) < bound <==> SquaredNorm(v) < bound * bound
  {
    var n := Norm(m, v);
    assert 0.0 <= n && n * n == SquaredNorm(v);
    if n < bound {
      SquareStrictlyIncreasing(n, bound);
    } else if bound < n {
      SquareStrictlyIncreasing(bound, n);
    }
  }

  /** The norm is zero exactly for the zero vector. */
  lemma NormZero(m: MathLib, v: Vec3)
    requires Valid(m)
    ensures Norm(m, v) == 0.0 <==> v == Zero
  {
    var n := Norm(m, v);
    assert 0.0 <= n && n * n == SquaredNorm(v);
    if n != 0.0 {
      SquareStrictlyIncreasing(0.0, n);
      assert SquaredNorm(v) != 0.0;
      assert v != Zero;
    } else {
      assert SquaredNorm(v) == 0.0;
      assert 0.0 <= v.x * v.x && 0.0 <= v.y * v.y && 0.0 <= v.z * v.z;
      if v.x != 0.0 {
        SquareStrictlyIncreasing(0.0, Abs(v.x));
      } else if v.y != 0.0 {
        SquareStrictlyIncreasing(0.0, Abs(v.y));
      } else if v.z != 0.0 {
        SquareStrictlyIncreasing(0.0, Abs(v.z));
      }
    }
  }
}
