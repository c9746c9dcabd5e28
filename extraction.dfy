/**
 * MarchingCubesComponent.Process (MarchingCubesComponent.cs:40-93): sample
 * the field on the lattice, pick the iso value, and run the polygonizer the
 * Method input selects over every slice. The joined mesh that the source
 * builds from the slices (Mesh.Append, welding, culling, normals) is not
 * modelled; the result is the sequence of slice meshes.
 */
module Extraction {
  import opened Wrappers
  import opened Geometry
  import opened Lattice
  import opened Sampler
  import opened Cubes
  import opened Marching
  import opened Range

  /** The ways Process fails before it produces slices. */
  datatype Failure =
    | NegativeSize  // new Point3f[x * y * z] with a negative length
    | EmptyRange    // values.Min() on an empty lattice when no iso is given
    | NoSlices      // new Mesh[x - 1] with x < 1

  /** The iso value used and the slice meshes the polygonizer built. */
  datatype Surface = Surface(iso: real, slices: seq<MeshData>)

  /** Method 0 selects the cube tables, any other value the tetrahedral split (line 75). */
  function SelectPolygonizer(methodIndex: int, edgeTable: seq<int>, triTable: seq<seq<int>>): (alg: Polygonizer)
    requires TablesOk(edgeTable, triTable)
    ensures PolygonizerOk(alg)
    ensures alg.CubeTables? <==> methodIndex == 0
    ensures alg.CubeTables? ==> alg.edgeTable == edgeTable && alg.triTable == triTable
  {
    if methodIndex == 0 then CubeTables(edgeTable, triTable) else TetrahedraSplit
  }

  /**
   * The lattice the sampling loop leaves behind: with all three counts
   * positive, slot s holds the sample of lattice point Coords(s); otherwise
   * the loops do not run and the arrays keep their zero defaults.
   */
  function SampledGrid(x: int, y: int, z: int, close: bool,
                       pointAt: (int, int, int) -> Point3, field: Point3 -> real): (g: Grid)
    requires x * y * z >= 0
    ensures GridOk(g) && g.x == x && g.y == y && g.z == z
  {
    var n := x * y * z;
    if x > 0 && y > 0 && z > 0 then
      Grid(x, y, z,
           seq(n, s requires 0 <= s < n => var c := Coords(s, x, y, z); SampleValue(c.0, c.1, c.2, x, y, z, close, pointAt, field)),
           seq(n, s requires 0 <= s < n => var c := Coords(s, x, y, z); pointAt(c.0, c.1, c.2)))
    else
      Grid(x, y, z, seq(n, _ => 0.0), seq(n, _ => Origin))
  }

  /** Slice i of a lattice with x >= 1 is the mesh of cell layer i, for i < x - 1. */
  function Slices(alg: Polygonizer, g: Grid, iso: real, tol: real): (r: seq<MeshData>)
    requires PolygonizerOk(alg) && GridOk(g) && tol >= 0.0 && g.x >= 1
    ensures |r| == g.x - 1
    ensures forall i :: 0 <= i < |r| ==> r[i] == Slice(alg, g, iso, tol, i)
  {
    seq(g.x - 1, i requires 0 <= i < g.x - 1 => Slice(alg, g, iso, tol, i))
  }

  /** What follows the sampling: choose the iso value, then march the slices. */
  function March(g: Grid, target: Option<real>, alg: Polygonizer, tol: real): (r: Result<Surface, Failure>)
    requires PolygonizerOk(alg) && GridOk(g) && tol >= 0.0
  {
    if target.None? && |g.values| == 0 then Err(EmptyRange)
    else if g.x < 1 then Err(NoSlices)
    else
      var iso := if target.Some? then target.value else MidRange(g.values);
      Ok(Surface(iso, Slices(alg, g, iso, tol)))
  }

  /**
   * What Process computes: the failure it stops with, or the iso value and
   * the x - 1 slice meshes. `target` is the optional Iso input, `tolerance`
   * the tolerance before it is rectified.
   */
  function Extract(x: int, y: int, z: int, close: bool,
                   pointAt: (int, int, int) -> Point3, field: Point3 -> real,
                   target: Option<real>, methodIndex: int,
                   edgeTable: seq<int>, triTable: seq<seq<int>>, tolerance: real): (r: Result<Surface, Failure>)
    requires TablesOk(edgeTable, triTable)
    ensures r.Ok? ==> |r.value.slices| == x - 1
  {
    if x * y * z < 0 then Err(NegativeSize)
    else
      March(SampledGrid(x, y, z, close, pointAt, field), target,
            SelectPolygonizer(methodIndex, edgeTable, triTable), Rectify(tolerance))
  }

  /**
   * The component's Process as the loops run it: sample into fresh arrays,
   * choose the iso value, march the slices, and read their contents back.
   */
  method Process(x: int, y: int, z: int, close: bool,
                 pointAt: (int, int, int) -> Point3, field: Point3 -> real,
                 target: Option<real>, methodIndex: int,
                 edgeTable: seq<int>, triTable: seq<seq<int>>, tolerance: real)
    returns (r: Result<Surface, Failure>)
    requires TablesOk(edgeTable, triTable)
    ensures r == Extract(x, y, z, close, pointAt, field, target, methodIndex, edgeTable, triTable, tolerance)
  {
    var tol := Rectify(tolerance);
    if x * y * z < 0 {
      return Err(NegativeSize);
    }
    var pts, values := Sample(x, y, z, close, pointAt, field);
    var g := Grid(x, y, z, values[..], pts[..]);
    SampledIsGrid(x, y, z, close, pointAt, field, values[..], pts[..]);
    var alg := SelectPolygonizer(methodIndex, edgeTable, triTable);
    r := MarchGrid(g, target, alg, tol);
  }

  /** The rest of Process once the arrays are filled: the iso value, then the slices. */
  method MarchGrid(g: Grid, target: Option<real>, alg: Polygonizer, tol: real) returns (r: Result<Surface, Failure>)
    requires PolygonizerOk(alg) && GridOk(g) && tol >= 0.0
    ensures r == March(g, target, alg, tol)
  {
    var iso: real;
    if target.Some? {
      iso := target.value;
    } else {
      if |g.values| == 0 {
        return Err(EmptyRange);
      }
      iso := MidRange(g.values);
    }
    if g.x < 1 {
      return Err(NoSlices);
    }
    var slices := MarchSlices(alg, g, iso, tol);
    var meshes := Contents(slices);
    assert meshes == Slices(alg, g, iso, tol);
    r := Ok(Surface(iso, meshes));
  }

  /** What a sequence of meshes currently holds. */
  function Contents(meshes: seq<Mesh>): (r: seq<MeshData>)
    reads set m | m in meshes
    ensures |r| == |meshes| && forall i :: 0 <= i < |meshes| ==> r[i] == meshes[i].Data()
  {
    seq(|meshes|, i requires 0 <= i < |meshes| reads set m | m in meshes => meshes[i].Data())
  }

  /** The arrays Sample fills are the lattice SampledGrid describes. */
  lemma SampledIsGrid(x: int, y: int, z: int, close: bool,
                      pointAt: (int, int, int) -> Point3, field: Point3 -> real,
                      values: seq<real>, pts: seq<Point3>)
    requires x * y * z >= 0 && |values| == x * y * z && |pts| == x * y * z
    requires x > 0 && y > 0 && z > 0 ==>
      forall s :: 0 <= s < x * y * z ==>
        var c := Coords(s, x, y, z);
        values[s] == SampleValue(c.0, c.1, c.2, x, y, z, close, pointAt, field) &&
        pts[s] == pointAt(c.0, c.1, c.2)
    requires !(x > 0 && y > 0 && z > 0) ==>
      forall s :: 0 <= s < x * y * z ==> values[s] == 0.0 && pts[s] == Origin
    ensures Grid(x, y, z, values, pts) == SampledGrid(x, y, z, close, pointAt, field)
  {
    var g := SampledGrid(x, y, z, close, pointAt, field);
    assert values == g.values;
    assert pts == g.pts;
  }

  /** Process fails exactly in these three cases, in this order. */
  lemma ExtractFails(x: int, y: int, z: int, close: bool,
                     pointAt: (int, int, int) -> Point3, field: Point3 -> real,
                     target: Option<real>, methodIndex: int,
                     edgeTable: seq<int>, triTable: seq<seq<int>>, tolerance: real)
    requires TablesOk(edgeTable, triTable)
    ensures var r := Extract(x, y, z, close, pointAt, field, target, methodIndex, edgeTable, triTable, tolerance);
      (r == Err(NegativeSize) <==> x * y * z < 0) &&
      (r == Err(EmptyRange) <==> x * y * z >= 0 && target.None? && x * y * z == 0) &&
      (r == Err(NoSlices) <==> x * y * z >= 0 && (target.Some? || x * y * z != 0) && x < 1) &&
      (r.Ok? <==> x >= 1 && x * y * z >= 0 && (target.Some? || x * y * z > 0))
  {
  }

  /**
   * A successful run: a given iso value is used as is; the default one lies
   * between the smallest and the largest sampled value; and every slice is a
   * well-formed mesh (triangles only for the cube tables) that the cube
   * tables and the tetrahedral split build from their own cells.
   */
  lemma ExtractSucceeds(x: int, y: int, z: int, close: bool,
                        pointAt: (int, int, int) -> Point3, field: Point3 -> real,
                        target: Option<real>, methodIndex: int,
                        edgeTable: seq<int>, triTable: seq<seq<int>>, tolerance: real)
    requires TablesOk(edgeTable, triTable)
    requires Extract(x, y, z, close, pointAt, field, target, methodIndex, edgeTable, triTable, tolerance).Ok?
    ensures var s := Extract(x, y, z, close, pointAt, field, target, methodIndex, edgeTable, triTable, tolerance).value;
      var g := SampledGrid(x, y, z, close, pointAt, field);
      (target.Some? ==> s.iso == target.value) &&
      (target.None? ==> MinOf(g.values) <= s.iso <= MaxOf(g.values)) &&
      (forall i :: 0 <= i < |s.slices| ==> WellFormed(s.slices[i])) &&
      (methodIndex == 0 ==> forall i :: 0 <= i < |s.slices| ==> Triangulated(s.slices[i]))
  {
    var s := Extract(x, y, z, close, pointAt, field, target, methodIndex, edgeTable, triTable, tolerance).value;
    var g := SampledGrid(x, y, z, close, pointAt, field);
    var alg := SelectPolygonizer(methodIndex, edgeTable, triTable);
    forall i | 0 <= i < |s.slices|
      ensures WellFormed(s.slices[i]) && (methodIndex == 0 ==> Triangulated(s.slices[i]))
    {
      SliceIsWellFormed(alg, g, s.iso, Rectify(tolerance), i);
    }
  }
}
