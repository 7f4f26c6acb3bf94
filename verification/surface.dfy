/**
 * Polygonal surface meshes: the value produced by surface extraction and
 * decimation, and the poly data object that receives the final surface.
 */
module Surface {
  import opened Geometry

  /** Vertex positions and polygons, each polygon a list of vertex indices. */
  datatype Mesh = Mesh(points: seq<Point3>, polys: seq<seq<nat>>)

  const EmptyMesh := Mesh([], [])

  function NumberOfPolys(m: Mesh): nat
  {
    |m.polys|
  }

  /** The mesh with every vertex mapped by matrix; the polygons are kept as they are. */
  function TransformMesh(matrix: Matrix4, m: Mesh): (r: Mesh)
    ensures r.polys == m.polys && |r.points| == |m.points|
    ensures forall n :: 0 <= n < |m.points| ==> r.points[n] == TransformPoint(matrix, m.points[n])
  {
    Mesh(TransformPoints(matrix, m.points), m.polys)
  }

  /** Mapping by the identity matrix gives the same mesh back. */
  lemma TransformMeshIdentity(m: Mesh)
    ensures TransformMesh(Identity, m) == m
  {
    TransformPointsIdentity(m.points);
  }

  /** The poly data object; a shallow copy replaces its points and polygons. */
  class PolyData {
    var points: seq<Point3>
    var polys: seq<seq<nat>>

    function Contents(): Mesh
      reads this
    {
      Mesh(points, polys)
    }

    constructor ()
      ensures Contents() == EmptyMesh
    {
      points, polys := [], [];
    }

    method ShallowCopy(m: Mesh)
      modifies this
      ensures Contents() == m
    {
      points, polys := m.points, m.polys;
    }
  }
}
