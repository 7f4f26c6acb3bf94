/**
 * Points and 4x4 homogeneous matrices, and the linear transform that maps
 * voxel-index (IJK) coordinates to world coordinates.
 *
 * The transform follows the linear-transform convention of the toolkit: the
 * upper three rows of the matrix are applied to (x, y, z, 1); the bottom row
 * takes no part (there is no perspective division).
 */
module Geometry {

  datatype Point3 = Point3(x: real, y: real, z: real)

  /** A 4x4 matrix, stored row by row. */
  type Matrix4 = m: seq<seq<real>> | |m| == 4 && forall r :: 0 <= r < 4 ==> |m[r]| == 4
    witness [[1.0, 0.0, 0.0, 0.0], [0.0, 1.0, 0.0, 0.0], [0.0, 0.0, 1.0, 0.0], [0.0, 0.0, 0.0, 1.0]]

  const Identity: Matrix4 :=
    [[1.0, 0.0, 0.0, 0.0], [0.0, 1.0, 0.0, 0.0], [0.0, 0.0, 1.0, 0.0], [0.0, 0.0, 0.0, 1.0]]

  /** Row r of m applied to the homogeneous point (p, 1). */
  function RowTimes(m: Matrix4, r: nat, p: Point3): real
    requires r < 4
  {
    m[r][0] * p.x + m[r][1] * p.y + m[r][2] * p.z + m[r][3]
  }

  function TransformPoint(m: Matrix4, p: Point3): (q: Point3)
    ensures q.x == m[0][0] * p.x + m[0][1] * p.y + m[0][2] * p.z + m[0][3]
    ensures q.y == m[1][0] * p.x + m[1][1] * p.y + m[1][2] * p.z + m[1][3]
    ensures q.z == m[2][0] * p.x + m[2][1] * p.y + m[2][2] * p.z + m[2][3]
  {
    Point3(RowTimes(m, 0, p), RowTimes(m, 1, p), RowTimes(m, 2, p))
  }

  /** Every point mapped by m, in order. */
  function TransformPoints(m: Matrix4, ps: seq<Point3>): (qs: seq<Point3>)
    ensures |qs| == |ps|
    ensures forall n :: 0 <= n < |ps| ==> qs[n] == TransformPoint(m, ps[n])
  {
    seq(|ps|, n requires 0 <= n < |ps| => TransformPoint(m, ps[n]))
  }

  /** The identity matrix leaves every point where it is. */
  lemma TransformPointIdentity(p: Point3)
    ensures TransformPoint(Identity, p) == p
  {
    assert RowTimes(Identity, 0, p) == p.x;
    assert RowTimes(Identity, 1, p) == p.y;
    assert RowTimes(Identity, 2, p) == p.z;
  }

  lemma TransformPointsIdentity(ps: seq<Point3>)
    ensures TransformPoints(Identity, ps) == ps
  {
    var qs := TransformPoints(Identity, ps);
    forall n | 0 <= n < |ps|
      ensures qs[n] == ps[n]
    {
      TransformPointIdentity(ps[n]);
    }
  }

  /** Only the upper three rows take part: the bottom row is ignored. */
  lemma TransformPointIgnoresBottomRow(m: Matrix4, m': Matrix4, p: Point3)
    requires m[0] == m'[0] && m[1] == m'[1] && m[2] == m'[2]
    ensures TransformPoint(m, p) == TransformPoint(m', p)
  {
  }

  /** A scale s followed by a translation t, as an image-to-world matrix. */
  function ScaleTranslate(s: real, t: Point3): (m: Matrix4)
    ensures m[0] == [s, 0.0, 0.0, t.x] && m[1] == [0.0, s, 0.0, t.y] && m[2] == [0.0, 0.0, s, t.z]
  {
    [[s, 0.0, 0.0, t.x], [0.0, s, 0.0, t.y], [0.0, 0.0, s, t.z], [0.0, 0.0, 0.0, 1.0]]
  }

  /** A uniformly scaled and translated frame moves every voxel-index point by exactly that scale and shift. */
  lemma TransformPointScaleTranslate(s: real, t: Point3, p: Point3)
    ensures TransformPoint(ScaleTranslate(s, t), p) == Point3(s * p.x + t.x, s * p.y + t.y, s * p.z + t.z)
  {
    var m := ScaleTranslate(s, t);
    assert RowTimes(m, 0, p) == s * p.x + t.x;
    assert RowTimes(m, 1, p) == s * p.y + t.y;
    assert RowTimes(m, 2, p) == s * p.z + t.z;
  }
}
