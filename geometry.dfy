/**
 * Exact three-component vectors and the fixed ±90° rotations about X that convert
 * between the DNA convention (Y-up) and the scene convention (Z-up).
 * Lengths are compared through squared lengths, so no square root is needed.
 */
module Geometry {

  datatype Vec3 = Vec3(x: real, y: real, z: real)

  const Zero: Vec3 := Vec3(0.0, 0.0, 0.0)

  function Add(a: Vec3, b: Vec3): Vec3 {
    Vec3(a.x + b.x, a.y + b.y, a.z + b.z)
  }

  function Sub(a: Vec3, b: Vec3): Vec3 {
    Vec3(a.x - b.x, a.y - b.y, a.z - b.z)
  }

  function Scale(k: real, v: Vec3): Vec3 {
    Vec3(k * v.x, k * v.y, k * v.z)
  }

  /** Component-wise division, as `vector / k`. */
  function Div(v: Vec3, k: real): Vec3
    requires k != 0.0
  {
    Vec3(v.x / k, v.y / k, v.z / k)
  }

  function LengthSq(v: Vec3): (r: real)
    ensures r >= 0.0
  {
    SquareNonNegative(v.x);
    SquareNonNegative(v.y);
    SquareNonNegative(v.z);
    v.x * v.x + v.y * v.y + v.z * v.z
  }

  lemma SquareNonNegative(a: real)
    ensures a * a >= 0.0
    ensures a != 0.0 ==> a * a > 0.0
  {
    if a > 0.0 {
      assert a * a > 0.0 * a;
    } else if a < 0.0 {
      var b := -a;
      assert b * b > 0.0 * b;
      assert a * a == b * b;
      assert a * a > 0.0;
    } else {
      assert a * a == 0.0 * 0.0;
    }
  }

  /** `|v| > t`, stated without a square root: exact for every real `t`. */
  predicate LongerThan(v: Vec3, t: real) {
    t < 0.0 || LengthSq(v) > t * t
  }

  lemma ZeroNeverLonger(t: real)
    requires t >= 0.0
    ensures !LongerThan(Zero, t)
  {
    SquareNonNegative(t);
  }

  /**
   * The rotation about X with the given cosine and sine, as a 4x4 rotation
   * matrix applied to a vector: (x, c*y - s*z, s*y + c*z).
   */
  function RotX(c: real, s: real, v: Vec3): Vec3 {
    Vec3(v.x, c * v.y - s * v.z, s * v.y + c * v.z)
  }

  /** Rotation by -90 degrees about X: cosine 0, sine -1. */
  function RotXNeg90(v: Vec3): (r: Vec3)
    ensures r == Vec3(v.x, v.z, -v.y)
  {
    RotX(0.0, -1.0, v)
  }

  /** Rotation by +90 degrees about X: cosine 0, sine 1. */
  function RotXPos90(v: Vec3): (r: Vec3)
    ensures r == Vec3(v.x, -v.z, v.y)
  {
    RotX(0.0, 1.0, v)
  }

  lemma RotationsCancel(v: Vec3)
    ensures RotXNeg90(RotXPos90(v)) == v
    ensures RotXPos90(RotXNeg90(v)) == v
  {
  }

  lemma RotationsPreserveLength(v: Vec3)
    ensures LengthSq(RotXNeg90(v)) == LengthSq(v)
    ensures LengthSq(RotXPos90(v)) == LengthSq(v)
  {
  }

  lemma RotationIsLinear(k: real, v: Vec3)
    ensures RotXNeg90(Scale(k, v)) == Scale(k, RotXNeg90(v))
    ensures RotXPos90(Scale(k, v)) == Scale(k, RotXPos90(v))
  {
  }

  lemma DivUndoesScale(k: real, v: Vec3)
    requires k != 0.0
    ensures Div(Scale(k, v), k) == v
  {
  }

  function Min3(a: nat, b: nat, c: nat): nat {
    if a <= b && a <= c then a else if b <= c then b else c
  }

  /** `[[x, y, z] for x, y, z in zip(xs, ys, zs)]`: stops at the shortest array. */
  function Zip3(xs: seq<real>, ys: seq<real>, zs: seq<real>): (r: seq<Vec3>)
    ensures |r| == Min3(|xs|, |ys|, |zs|)
    ensures forall i :: 0 <= i < |r| ==> r[i] == Vec3(xs[i], ys[i], zs[i])
  {
    seq(Min3(|xs|, |ys|, |zs|), i requires 0 <= i < Min3(|xs|, |ys|, |zs|) => Vec3(xs[i], ys[i], zs[i]))
  }

  /** Writing one row into three parallel arrays writes that triple into their zip. */
  lemma Zip3Update(xs: seq<real>, ys: seq<real>, zs: seq<real>, i: nat, v: Vec3)
    requires |xs| == |ys| == |zs| && i < |xs|
    ensures Zip3(xs[i := v.x], ys[i := v.y], zs[i := v.z]) == Zip3(xs, ys, zs)[i := v]
  {
  }
}
