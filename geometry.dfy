/**
 * Points, the point ordering and the growing meshes that the polygonizers
 * append to. Coordinates are reals: the single-precision casts of the
 * source are not modelled.
 */
module Geometry {

  datatype Point3 = Point3(x: real, y: real, z: real)

  const Origin := Point3(0.0, 0.0, 0.0)

  function Add(p: Point3, q: Point3): Point3
  {
    Point3(p.x + q.x, p.y + q.y, p.z + q.z)
  }

  function Sub(p: Point3, q: Point3): Point3
  {
    Point3(p.x - q.x, p.y - q.y, p.z - q.z)
  }

  function Scale(p: Point3, t: real): Point3
  {
    Point3(p.x * t, p.y * t, p.z * t)
  }

  /** The point a fraction t of the way from p to q. */
  function Lerp(p: Point3, q: Point3, t: real): Point3
  {
    Add(p, Scale(Sub(q, p), t))
  }

  function DistSq(p: Point3, q: Point3): (r: real)
    ensures r >= 0.0
  {
    var d := Sub(q, p);
    d.x * d.x + d.y * d.y + d.z * d.z
  }

  /**
   * The `<` of points used by Interpolate (MarchingCubesComponent.cs:112):
   * compare X, then Y, then Z.
   */
  predicate Less(p: Point3, q: Point3)
  {
    p.x < q.x || (p.x == q.x && (p.y < q.y || (p.y == q.y && p.z < q.z)))
  }

  /** Less is a strict total order on points. */
  lemma LessIsStrictTotalOrder()
    ensures forall p :: !Less(p, p)
    ensures forall p, q :: Less(p, q) ==> !Less(q, p)
    ensures forall p, q, r :: Less(p, q) && Less(q, r) ==> Less(p, r)
    ensures forall p, q :: p != q ==> Less(p, q) || Less(q, p)
  {
  }

  /** A mesh face: three (triangle) or four (quad) vertex indices. */
  datatype Face = Face(corners: seq<nat>)

  /** The vertex and face lists of a mesh under construction. */
  datatype MeshData = MeshData(vertices: seq<Point3>, faces: seq<Face>)

  const EmptyMesh := MeshData([], [])

  /** Every face has three or four corners, each naming an existing vertex. */
  predicate WellFormed(m: MeshData)
  {
    forall f :: 0 <= f < |m.faces| ==>
      (|m.faces[f].corners| == 3 || |m.faces[f].corners| == 4) &&
      forall c :: 0 <= c < |m.faces[f].corners| ==> m.faces[f].corners[c] < |m.vertices|
  }

  /** r is m with vertices and faces appended: both lists of m are prefixes of r's. */
  predicate Extends(m: MeshData, r: MeshData)
  {
    |m.vertices| <= |r.vertices| && r.vertices[..|m.vertices|] == m.vertices &&
    |m.faces| <= |r.faces| && r.faces[..|m.faces|] == m.faces
  }

  lemma ExtendsTransitive(a: MeshData, b: MeshData, c: MeshData)
    requires Extends(a, b) && Extends(b, c)
    ensures Extends(a, c)
  {
    assert c.vertices[..|a.vertices|] == c.vertices[..|b.vertices|][..|a.vertices|];
    assert c.faces[..|a.faces|] == c.faces[..|b.faces|][..|a.faces|];
  }

  /** A mesh object that the polygonizers append vertices and faces to in place. */
  class Mesh {
    var vertices: seq<Point3>
    var faces: seq<Face>

    constructor ()
      ensures vertices == [] && faces == []
    {
      vertices := [];
      faces := [];
    }

    function Data(): MeshData
      reads this
    {
      MeshData(vertices, faces)
    }
  }
}
