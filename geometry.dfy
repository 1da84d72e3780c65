/**
 * The fixed-size Eigen vectors and matrices the core uses (Vector2d, Matrix2d, Matrix2Xd),
 * over the reals.
 */
module Geometry {

  /** A 2-vector (Eigen::Vector2d). */
  datatype Vec2 = Vec2(x: real, y: real)

  /** A 2x2 matrix (Eigen::Matrix2d), entries named by row and column. */
  datatype Mat2 = Mat2(m00: real, m01: real, m10: real, m11: real)

  const Zero2: Vec2 := Vec2(0.0, 0.0)
  const Identity2: Mat2 := Mat2(1.0, 0.0, 0.0, 1.0)

  function Add(a: Vec2, b: Vec2): Vec2 { Vec2(a.x + b.x, a.y + b.y) }
  function Sub(a: Vec2, b: Vec2): Vec2 { Vec2(a.x - b.x, a.y - b.y) }
  function Scale(s: real, v: Vec2): Vec2 { Vec2(s * v.x, s * v.y) }
  function Dot(a: Vec2, b: Vec2): real { a.x * b.x + a.y * b.y }
  function Transpose(m: Mat2): Mat2 { Mat2(m.m00, m.m10, m.m01, m.m11) }

  function MatMul(a: Mat2, b: Mat2): Mat2 {
    Mat2(a.m00 * b.m00 + a.m01 * b.m10, a.m00 * b.m01 + a.m01 * b.m11,
         a.m10 * b.m00 + a.m11 * b.m10, a.m10 * b.m01 + a.m11 * b.m11)
  }

  function MatVec(a: Mat2, v: Vec2): Vec2 {
    Vec2(a.m00 * v.x + a.m01 * v.y, a.m10 * v.x + a.m11 * v.y)
  }

  /** Every matrix maps the zero vector to itself. */
  lemma MatVecZero(a: Mat2)
    ensures MatVec(a, Zero2) == Zero2
  {
  }

  /** The same matrix with its two columns exchanged. */
  function SwapColumns(m: Mat2): Mat2 { Mat2(m.m01, m.m00, m.m11, m.m10) }

  /** A 2x4 matrix (Eigen::Matrix2Xd resized to four columns) as its sequence of columns. */
  function ZeroColumns(n: nat): (c: seq<Vec2>)
    ensures |c| == n && forall j :: 0 <= j < n ==> c[j] == Zero2
  {
    seq(n, _ => Zero2)
  }
}
