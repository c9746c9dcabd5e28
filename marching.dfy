/**
 * The slice loops of MarchingCube and MarchingTetrahedra
 * (MarchingCubesComponent.cs:218-313): slice i of the result is the mesh
 * built from the cells (i, j, k), j-major, k inner. The parallel loop over
 * slices is run sequentially; each slice builds its own fresh mesh.
 */
module Marching {
  import opened Geometry
  import opened CaseIndex
  import opened Lattice
  import opened Tetrahedra
  import opened Cubes

  /** The polygonizer selected by the Method input: 0 is the cube one, any other value the tetrahedral one. */
  datatype Polygonizer = CubeTables(edgeTable: seq<int>, triTable: seq<seq<int>>) | TetrahedraSplit

  predicate PolygonizerOk(alg: Polygonizer)
  {
    alg.CubeTables? ==> TablesOk(alg.edgeTable, alg.triTable)
  }

  /** The sampled lattice: counts, values and points, slot s for lattice point Coords(s). */
  datatype Grid = Grid(x: int, y: int, z: int, values: seq<real>, pts: seq<Point3>)

  predicate GridOk(g: Grid)
  {
    g.x * g.y * g.z >= 0 && |g.values| == g.x * g.y * g.z && |g.pts| == g.x * g.y * g.z
  }

  /** The number of iterations of `for (v = 0; v < n; v++)`. */
  function Span(n: int): nat
  {
    if n > 0 then n else 0
  }

  /** Cell (i, j, k) is one the loops visit: its far corner is in the lattice too. */
  predicate CellIn(g: Grid, i: int, j: int, k: int)
  {
    0 <= i < g.x - 1 && 0 <= j < g.y - 1 && 0 <= k < g.z - 1
  }

  /** `val` of lines 229 and 261: the values at the eight corners, in BoxCorners order. */
  function CellValues(g: Grid, i: int, j: int, k: int): (val: seq<real>)
    requires GridOk(g) && CellIn(g, i, j, k)
    ensures |val| == 8
    ensures forall c :: 0 <= c < 8 ==>
      0 <= BoxCorners(i, j, k, g.x, g.y)[c] < |g.values| && val[c] == g.values[BoxCorners(i, j, k, g.x, g.y)[c]]
  {
    var idx := BoxCorners(i, j, k, g.x, g.y);
    BoxCornersInRange(i, j, k, g.x, g.y, g.z);
    seq(8, c requires 0 <= c < 8 => g.values[idx[c]])
  }

  /** `cor` of lines 230 and 262: the points at the eight corners. */
  function CellPoints(g: Grid, i: int, j: int, k: int): (cor: seq<Point3>)
    requires GridOk(g) && CellIn(g, i, j, k)
    ensures |cor| == 8
    ensures forall c :: 0 <= c < 8 ==>
      0 <= BoxCorners(i, j, k, g.x, g.y)[c] < |g.pts| && cor[c] == g.pts[BoxCorners(i, j, k, g.x, g.y)[c]]
  {
    var idx := BoxCorners(i, j, k, g.x, g.y);
    BoxCornersInRange(i, j, k, g.x, g.y, g.z);
    seq(8, c requires 0 <= c < 8 => g.pts[idx[c]])
  }

  // ---------------------------------------------------------------------------
  // The tetrahedral cell (lines 228-243)

  /** The corners of the six tetrahedra the cell is cut into, in call order. */
  function TetCorners(t: nat): (r: seq<nat>)
    requires t < 6
    ensures |r| == 4 && forall a :: 0 <= a < 4 ==> r[a] < 8
  {
    [[0, 2, 3, 7], [6, 2, 0, 7], [4, 6, 0, 7], [0, 6, 1, 2], [1, 6, 0, 4], [5, 6, 1, 4]][t]
  }

  function Pick<T>(s: seq<T>, idx: seq<nat>): (r: seq<T>)
    requires forall a :: 0 <= a < |idx| ==> idx[a] < |s|
    ensures |r| == |idx| && forall a :: 0 <= a < |idx| ==> r[a] == s[idx[a]]
  {
    seq(|idx|, a requires 0 <= a < |idx| => s[idx[a]])
  }

  /** The test of lines 231-237: every corner on the same side of iso. */
  predicate AllAgree(val: seq<real>, iso: real)
    requires |val| == 8
  {
    forall b :: 0 <= b < 8 ==> (val[b] < iso) == (val[0] < iso)
  }

  /** The first n of the six PolygoniseTri calls of one cell. */
  function TetSteps(m: MeshData, cor: seq<Point3>, val: seq<real>, iso: real, tol: real, n: nat): MeshData
    requires |cor| == 8 && |val| == 8 && tol >= 0.0 && n <= 6
  {
    if n == 0 then m
    else
      var idx := TetCorners(n - 1);
      TetStep(TetSteps(m, cor, val, iso, tol, n - 1), Pick(cor, idx), Pick(val, idx), iso, tol)
  }

  function TetCell(m: MeshData, cor: seq<Point3>, val: seq<real>, iso: real, tol: real): MeshData
    requires |cor| == 8 && |val| == 8 && tol >= 0.0
  {
    if AllAgree(val, iso) then m else TetSteps(m, cor, val, iso, tol, 6)
  }

  /** The tetrahedral skip test holds exactly for the two cube cases 0 and 255. */
  lemma AllAgreeIsUniformCase(val: seq<real>, iso: real)
    requires |val| == 8
    ensures AllAgree(val, iso) <==> CubeIndex(val, iso) == 0 || CubeIndex(val, iso) == 255
  {
    CubeIndexExtremes(val, iso);
    if AllAgree(val, iso) {
      if val[0] < iso {
        assert forall b :: 0 <= b < 8 ==> val[b] < iso;
      } else {
        assert forall b :: 0 <= b < 8 ==> !(val[b] < iso);
      }
    }
  }

  /** A tetrahedron whose corners agree adds nothing. */
  lemma UniformTetStep(m: MeshData, p: seq<Point3>, v: seq<real>, iso: real, tol: real)
    requires |p| == 4 && |v| == 4 && tol >= 0.0
    requires forall a :: 0 <= a < 4 ==> (v[a] < iso <==> v[0] < iso)
    ensures TetStep(m, p, v, iso, tol) == m
  {
    IndexExtremes(Below4(v, iso));
    assert Pow2(4) == 16;
    if v[0] < iso {
      assert AllSame(Below4(v, iso), true);
    } else {
      assert AllSame(Below4(v, iso), false);
    }
  }

  /**
   * The early `continue` of line 237 is only a shortcut: on a cell whose
   * corners agree the six PolygoniseTri calls would add nothing either.
   */
  lemma {:induction false} SkipIsShortcut(m: MeshData, cor: seq<Point3>, val: seq<real>, iso: real, tol: real, n: nat)
    requires |cor| == 8 && |val| == 8 && tol >= 0.0 && n <= 6
    requires AllAgree(val, iso)
    ensures TetSteps(m, cor, val, iso, tol, n) == m
  {
    if n > 0 {
      SkipIsShortcut(m, cor, val, iso, tol, n - 1);
      var idx := TetCorners(n - 1);
      assert forall c :: 0 <= c < 8 ==> (val[c] < iso <==> val[0] < iso);
      UniformTetStep(m, Pick(cor, idx), Pick(val, idx), iso, tol);
    }
  }

  /** A tetrahedral cell keeps the slice mesh well formed and only appends to it. */
  lemma {:induction false} TetStepsPreserve(m: MeshData, cor: seq<Point3>, val: seq<real>, iso: real, tol: real, n: nat)
    requires |cor| == 8 && |val| == 8 && tol >= 0.0 && n <= 6
    requires WellFormed(m)
    ensures WellFormed(TetSteps(m, cor, val, iso, tol, n)) && Extends(m, TetSteps(m, cor, val, iso, tol, n))
  {
    if n > 0 {
      TetStepsPreserve(m, cor, val, iso, tol, n - 1);
      var idx := TetCorners(n - 1);
      var prev := TetSteps(m, cor, val, iso, tol, n - 1);
      TetStepExtends(prev, Pick(cor, idx), Pick(val, idx), iso, tol);
      ExtendsTransitive(m, prev, TetSteps(m, cor, val, iso, tol, n));
    }
  }

  /**
   * Lines 228-243 for one cell: skip when the corners agree, otherwise the
   * six tetrahedra, corner lists as in TetCorners.
   */
  method TetCellMethod(mesh: Mesh, cor: seq<Point3>, val: seq<real>, iso: real, tol: real)
    requires |cor| == 8 && |val| == 8 && tol >= 0.0
    modifies mesh
    ensures mesh.Data() == TetCell(old(mesh.Data()), cor, val, iso, tol)
  {
    if AllAgree(val, iso) {
      return;
    }
    PolygoniseTri(iso, mesh, Pick(cor, TetCorners(0)), Pick(val, TetCorners(0)), tol);
    assert mesh.Data() == TetSteps(old(mesh.Data()), cor, val, iso, tol, 1);
    PolygoniseTri(iso, mesh, Pick(cor, TetCorners(1)), Pick(val, TetCorners(1)), tol);
    assert mesh.Data() == TetSteps(old(mesh.Data()), cor, val, iso, tol, 2);
    PolygoniseTri(iso, mesh, Pick(cor, TetCorners(2)), Pick(val, TetCorners(2)), tol);
    assert mesh.Data() == TetSteps(old(mesh.Data()), cor, val, iso, tol, 3);
    PolygoniseTri(iso, mesh, Pick(cor, TetCorners(3)), Pick(val, TetCorners(3)), tol);
    assert mesh.Data() == TetSteps(old(mesh.Data()), cor, val, iso, tol, 4);
    PolygoniseTri(iso, mesh, Pick(cor, TetCorners(4)), Pick(val, TetCorners(4)), tol);
    assert mesh.Data() == TetSteps(old(mesh.Data()), cor, val, iso, tol, 5);
    PolygoniseTri(iso, mesh, Pick(cor, TetCorners(5)), Pick(val, TetCorners(5)), tol);
    assert mesh.Data() == TetSteps(old(mesh.Data()), cor, val, iso, tol, 6);
  }

  // ---------------------------------------------------------------------------
  // Slices

  /** The corner points and values of one cell, in BoxCorners order. */
  datatype CellData = CellData(cor: seq<Point3>, val: seq<real>)

  predicate CellShaped(c: CellData)
  {
    |c.cor| == 8 && |c.val| == 8
  }

  predicate CellsShaped(cells: seq<CellData>)
  {
    forall n :: 0 <= n < |cells| ==> CellShaped(cells[n])
  }

  /** What the selected polygonizer adds to mesh m for one cell. */
  function CellMesh(alg: Polygonizer, iso: real, tol: real, m: MeshData, c: CellData): MeshData
    requires PolygonizerOk(alg) && tol >= 0.0 && CellShaped(c)
  {
    match alg
    case CubeTables(edgeTable, triTable) => CubeStep(m, c.cor, c.val, iso, tol, edgeTable, triTable)
    case TetrahedraSplit => TetCell(m, c.cor, c.val, iso, tol)
  }

  /** `val` and `cor` of lines 228-230 and 260-262 for cell (i, j, k). */
  function CellOf(g: Grid, i: int, j: int, k: int): (c: CellData)
    requires GridOk(g) && CellIn(g, i, j, k)
    ensures CellShaped(c)
  {
    CellData(CellPoints(g, i, j, k), CellValues(g, i, j, k))
  }

  /** The cells of row j of slice i, in the order of the k loop. */
  function RowCells(g: Grid, i: int, j: int): (row: seq<CellData>)
    requires GridOk(g) && 0 <= i < g.x - 1 && 0 <= j < g.y - 1
    ensures |row| == Span(g.z - 1) && CellsShaped(row)
    ensures forall k :: 0 <= k < |row| ==> row[k] == CellOf(g, i, j, k)
  {
    seq(Span(g.z - 1), k requires 0 <= k < Span(g.z - 1) => CellOf(g, i, j, k))
  }

  /** The rows of slice i, in the order of the j loop. */
  function SliceCells(g: Grid, i: int): (rows: seq<seq<CellData>>)
    requires GridOk(g) && 0 <= i < g.x - 1
    ensures |rows| == Span(g.y - 1)
    ensures forall j :: 0 <= j < |rows| ==> rows[j] == RowCells(g, i, j)
  {
    seq(Span(g.y - 1), j requires 0 <= j < Span(g.y - 1) => RowCells(g, i, j))
  }

  predicate RowsShaped(rows: seq<seq<CellData>>)
  {
    forall j :: 0 <= j < |rows| ==> CellsShaped(rows[j])
  }

  /** A cell transformer: the mesh after one more cell. */
  type Step = (MeshData, CellData) -> MeshData

  /** step does what the selected polygonizer does, on every cell of the right shape. */
  ghost predicate Performs(step: Step, alg: Polygonizer, iso: real, tol: real)
  {
    PolygonizerOk(alg) && tol >= 0.0 &&
    forall m: MeshData, c: CellData {:trigger CellMesh(alg, iso, tol, m, c)} ::
      CellShaped(c) ==> step(m, c) == CellMesh(alg, iso, tol, m, c)
  }

  /** The selected polygonizer as a cell transformer. */
  function Polygonise(alg: Polygonizer, iso: real, tol: real): (step: Step)
    requires PolygonizerOk(alg) && tol >= 0.0
    ensures Performs(step, alg, iso, tol)
  {
    (m: MeshData, c: CellData) => if CellShaped(c) then CellMesh(alg, iso, tol, m, c) else m
  }

  /** The mesh after the first k cells of a row, starting from m. */
  function RowFold(step: Step, m: MeshData, row: seq<CellData>, k: nat): MeshData
    requires k <= |row|
  {
    if k == 0 then m else step(RowFold(step, m, row, k - 1), row[k - 1])
  }

  /** The mesh after the first j rows, starting from an empty mesh. */
  function SliceFold(step: Step, rows: seq<seq<CellData>>, j: nat): MeshData
    requires j <= |rows|
  {
    if j == 0 then EmptyMesh
    else RowFold(step, SliceFold(step, rows, j - 1), rows[j - 1], |rows[j - 1]|)
  }

  /** The finished mesh of slice i. */
  function Slice(alg: Polygonizer, g: Grid, iso: real, tol: real, i: int): MeshData
    requires PolygonizerOk(alg) && GridOk(g) && tol >= 0.0
    requires 0 <= i < g.x - 1
  {
    var rows := SliceCells(g, i);
    SliceFold(Polygonise(alg, iso, tol), rows, |rows|)
  }

  /** One cell, by the selected polygonizer. */
  method Cell(alg: Polygonizer, g: Grid, iso: real, tol: real, mesh: Mesh, i: int, j: int, k: int)
    requires PolygonizerOk(alg) && GridOk(g) && CellIn(g, i, j, k) && tol >= 0.0
    modifies mesh
    ensures mesh.Data() == CellMesh(alg, iso, tol, old(mesh.Data()), CellOf(g, i, j, k))
  {
    var val := CellValues(g, i, j, k);
    var cor := CellPoints(g, i, j, k);
    match alg
    case CubeTables(edgeTable, triTable) =>
      CubeCell(mesh, cor, val, iso, tol, edgeTable, triTable);
    case TetrahedraSplit =>
      TetCellMethod(mesh, cor, val, iso, tol);
  }

  /** One step of the k loop. */
  method RowStep(alg: Polygonizer, g: Grid, iso: real, tol: real, mesh: Mesh, i: int, j: int, k: int,
                 ghost step: Step, ghost start: MeshData)
    requires Performs(step, alg, iso, tol) && GridOk(g) && CellIn(g, i, j, k)
    requires mesh.Data() == RowFold(step, start, RowCells(g, i, j), k)
    modifies mesh
    ensures mesh.Data() == RowFold(step, start, RowCells(g, i, j), k + 1)
  {
    assert RowCells(g, i, j)[k] == CellOf(g, i, j, k);
    Cell(alg, g, iso, tol, mesh, i, j, k);
  }

  /** The k loop of row j: the cells of the row in k order, appended to the mesh. */
  method Row(alg: Polygonizer, g: Grid, iso: real, tol: real, mesh: Mesh, i: int, j: int, ghost step: Step)
    requires Performs(step, alg, iso, tol) && GridOk(g)
    requires 0 <= i < g.x - 1 && 0 <= j < g.y - 1
    modifies mesh
    ensures mesh.Data() == RowFold(step, old(mesh.Data()), RowCells(g, i, j), Span(g.z - 1))
  {
    ghost var start := mesh.Data();
    var k := 0;
    while k < g.z - 1
      invariant 0 <= k <= Span(g.z - 1)
      invariant mesh.Data() == RowFold(step, start, RowCells(g, i, j), k)
    {
      RowStep(alg, g, iso, tol, mesh, i, j, k, step, start);
      k := k + 1;
    }
  }

  /** One step of the j loop: row j appended to the first j rows of slice i. */
  method NextRow(alg: Polygonizer, g: Grid, iso: real, tol: real, mesh: Mesh, i: int, j: int, ghost step: Step)
    requires Performs(step, alg, iso, tol) && GridOk(g)
    requires 0 <= i < g.x - 1 && 0 <= j < g.y - 1
    requires mesh.Data() == SliceFold(step, SliceCells(g, i), j)
    modifies mesh
    ensures mesh.Data() == SliceFold(step, SliceCells(g, i), j + 1)
  {
    assert SliceCells(g, i)[j] == RowCells(g, i, j);
    Row(alg, g, iso, tol, mesh, i, j, step);
  }

  /** The body of the parallel loop: a new mesh for slice i, filled row by row. */
  method SliceMesh(alg: Polygonizer, g: Grid, iso: real, tol: real, i: int) returns (mesh: Mesh)
    requires PolygonizerOk(alg) && GridOk(g) && tol >= 0.0
    requires 0 <= i < g.x - 1
    ensures fresh(mesh)
    ensures mesh.Data() == Slice(alg, g, iso, tol, i)
  {
    ghost var step := Polygonise(alg, iso, tol);
    mesh := new Mesh();
    var j := 0;
    while j < g.y - 1
      invariant fresh(mesh)
      invariant 0 <= j <= Span(g.y - 1)
      invariant mesh.Data() == SliceFold(step, SliceCells(g, i), j)
    {
      NextRow(alg, g, iso, tol, mesh, i, j, step);
      j := j + 1;
    }
  }

  /**
   * MarchingCube / MarchingTetrahedra: x - 1 slices, each a distinct new
   * mesh holding exactly the cells of its layer.
   */
  method MarchSlices(alg: Polygonizer, g: Grid, iso: real, tol: real) returns (slices: seq<Mesh>)
    requires PolygonizerOk(alg) && GridOk(g) && tol >= 0.0
    requires g.x >= 1
    ensures |slices| == g.x - 1
    ensures forall i :: 0 <= i < |slices| ==> fresh(slices[i])
    ensures forall i, i' :: 0 <= i < i' < |slices| ==> slices[i] != slices[i']
    ensures forall i :: 0 <= i < |slices| ==> slices[i].Data() == Slice(alg, g, iso, tol, i)
  {
    slices := [];
    var i := 0;
    while i < g.x - 1
      invariant 0 <= i <= g.x - 1 && |slices| == i
      invariant forall n :: 0 <= n < i ==> fresh(slices[n])
      invariant forall n, n' :: 0 <= n < n' < i ==> slices[n] != slices[n']
      invariant forall n :: 0 <= n < i ==> slices[n].Data() == Slice(alg, g, iso, tol, n)
    {
      var mesh := SliceMesh(alg, g, iso, tol, i);
      assert forall n :: 0 <= n < i ==> slices[n] != mesh;
      slices := slices + [mesh];
      i := i + 1;
    }
  }

  // ---------------------------------------------------------------------------
  // What every slice satisfies

  /** The invariant a slice mesh keeps under the selected polygonizer. */
  predicate SliceShape(alg: Polygonizer, m: MeshData)
  {
    if alg.CubeTables? then Triangulated(m) else WellFormed(m)
  }

  lemma CellMeshKeepsShape(alg: Polygonizer, iso: real, tol: real, m: MeshData, c: CellData)
    requires PolygonizerOk(alg) && tol >= 0.0 && CellShaped(c)
    requires SliceShape(alg, m)
    ensures SliceShape(alg, CellMesh(alg, iso, tol, m, c))
  {
    match alg
    case CubeTables(edgeTable, triTable) =>
      CubeStepKeepsShape(m, c.cor, c.val, iso, tol, edgeTable, triTable);
    case TetrahedraSplit =>
      if !AllAgree(c.val, iso) {
        TetStepsPreserve(m, c.cor, c.val, iso, tol, 6);
      }
  }

  lemma {:induction false} RowFoldKeepsShape(alg: Polygonizer, iso: real, tol: real, step: Step,
                                              m: MeshData, row: seq<CellData>, k: nat)
    requires Performs(step, alg, iso, tol) && CellsShaped(row) && k <= |row|
    requires SliceShape(alg, m)
    ensures SliceShape(alg, RowFold(step, m, row, k))
  {
    if k > 0 {
      RowFoldKeepsShape(alg, iso, tol, step, m, row, k - 1);
      CellMeshKeepsShape(alg, iso, tol, RowFold(step, m, row, k - 1), row[k - 1]);
    }
  }

  lemma {:induction false} SliceFoldKeepsShape(alg: Polygonizer, iso: real, tol: real, step: Step,
                                                rows: seq<seq<CellData>>, j: nat)
    requires Performs(step, alg, iso, tol) && RowsShaped(rows) && j <= |rows|
    ensures SliceShape(alg, SliceFold(step, rows, j))
  {
    if j > 0 {
      SliceFoldKeepsShape(alg, iso, tol, step, rows, j - 1);
      RowFoldKeepsShape(alg, iso, tol, step, SliceFold(step, rows, j - 1), rows[j - 1], |rows[j - 1]|);
    }
  }

  /**
   * Every slice is a well-formed mesh. A cube slice has three vertices per
   * face and face f uses vertices 3f, 3f+1, 3f+2, which is what makes the
   * index `first = Faces.Count * 3` of line 305 name the vertices just added.
   */
  lemma SliceIsWellFormed(alg: Polygonizer, g: Grid, iso: real, tol: real, i: int)
    requires PolygonizerOk(alg) && GridOk(g) && tol >= 0.0
    requires 0 <= i < g.x - 1
    ensures WellFormed(Slice(alg, g, iso, tol, i))
    ensures alg.CubeTables? ==> Triangulated(Slice(alg, g, iso, tol, i))
  {
    var rows := SliceCells(g, i);
    SliceFoldKeepsShape(alg, iso, tol, Polygonise(alg, iso, tol), rows, |rows|);
    if alg.CubeTables? {
      TriangulatedIsWellFormed(Slice(alg, g, iso, tol, i));
    }
  }

  /** Every sampled value lies on the same side of iso. */
  predicate Uniform(g: Grid, iso: real)
  {
    (forall s :: 0 <= s < |g.values| ==> g.values[s] < iso) ||
    (forall s :: 0 <= s < |g.values| ==> !(g.values[s] < iso))
  }

  /** The polygonizer emits nothing for the two uniform cases (the edge table's entries 0 and 255 are zero). */
  predicate QuietOnUniform(alg: Polygonizer)
  {
    alg.CubeTables? ==> |alg.edgeTable| == 256 && alg.edgeTable[0] == 0 && alg.edgeTable[255] == 0
  }

  /** All corners of the cell on one side of iso. */
  predicate CellUniform(c: CellData, iso: real)
    requires CellShaped(c)
  {
    AllAgree(c.val, iso)
  }

  lemma UniformCellMesh(alg: Polygonizer, iso: real, tol: real, m: MeshData, c: CellData)
    requires PolygonizerOk(alg) && tol >= 0.0 && CellShaped(c)
    requires CellUniform(c, iso) && QuietOnUniform(alg)
    ensures CellMesh(alg, iso, tol, m, c) == m
  {
    AllAgreeIsUniformCase(c.val, iso);
  }

  lemma {:induction false} UniformRowFold(alg: Polygonizer, iso: real, tol: real, step: Step,
                                           m: MeshData, row: seq<CellData>, k: nat)
    requires Performs(step, alg, iso, tol) && CellsShaped(row) && k <= |row|
    requires QuietOnUniform(alg) && forall n :: 0 <= n < |row| ==> CellUniform(row[n], iso)
    ensures RowFold(step, m, row, k) == m
  {
    if k > 0 {
      UniformRowFold(alg, iso, tol, step, m, row, k - 1);
      UniformCellMesh(alg, iso, tol, m, row[k - 1]);
    }
  }

  lemma {:induction false} UniformSliceFold(alg: Polygonizer, iso: real, tol: real, step: Step,
                                             rows: seq<seq<CellData>>, j: nat)
    requires Performs(step, alg, iso, tol) && RowsShaped(rows) && j <= |rows|
    requires QuietOnUniform(alg)
    requires forall r, n :: 0 <= r < |rows| && 0 <= n < |rows[r]| ==> CellUniform(rows[r][n], iso)
    ensures SliceFold(step, rows, j) == EmptyMesh
  {
    if j > 0 {
      UniformSliceFold(alg, iso, tol, step, rows, j - 1);
      var row := rows[j - 1];
      assert forall n :: 0 <= n < |row| ==> CellUniform(row[n], iso);
      UniformRowFold(alg, iso, tol, step, EmptyMesh, row, |row|);
    }
  }

  /** A field that never crosses iso yields only empty slices, by either polygonizer. */
  lemma UniformGivesEmptySlices(alg: Polygonizer, g: Grid, iso: real, tol: real, i: int)
    requires PolygonizerOk(alg) && GridOk(g) && tol >= 0.0
    requires 0 <= i < g.x - 1
    requires Uniform(g, iso) && QuietOnUniform(alg)
    ensures Slice(alg, g, iso, tol, i) == EmptyMesh
  {
    var rows := SliceCells(g, i);
    forall r, n | 0 <= r < |rows| && 0 <= n < |rows[r]| ensures CellUniform(rows[r][n], iso) {
      assert rows[r][n] == CellOf(g, i, r, n);
      var val := CellValues(g, i, r, n);
      assert AllAgree(val, iso);
    }
    UniformSliceFold(alg, iso, tol, Polygonise(alg, iso, tol), rows, |rows|);
  }

  /** Two well-formed grids with the same counts. */
  predicate SameCounts(g: Grid, g': Grid)
  {
    GridOk(g) && GridOk(g') && g.x == g'.x && g.y == g'.y && g.z == g'.z
  }

  /** Their samples agree on the layers i and i + 1. */
  ghost predicate SameLayers(g: Grid, g': Grid, i: int)
    requires SameCounts(g, g')
  {
    forall a, b, c ::
      ((a == i || a == i + 1) && InLattice(a, b, c, g.x, g.y, g.z) &&
       0 <= Slot(a, b, c, g.x, g.y) < g.x * g.y * g.z) ==>
        g.values[Slot(a, b, c, g.x, g.y)] == g'.values[Slot(a, b, c, g.x, g.y)] &&
        g.pts[Slot(a, b, c, g.x, g.y)] == g'.pts[Slot(a, b, c, g.x, g.y)]
  }

  lemma SameLayersSameCell(g: Grid, g': Grid, i: int, j: int, k: int)
    requires SameCounts(g, g') && SameLayers(g, g', i) && CellIn(g, i, j, k)
    ensures CellOf(g, i, j, k) == CellOf(g', i, j, k)
  {
    BoxCornersAreCellCorners(i, j, k, g.x, g.y, g.z);
    forall c | 0 <= c < 8
      ensures CellValues(g, i, j, k)[c] == CellValues(g', i, j, k)[c]
      ensures CellPoints(g, i, j, k)[c] == CellPoints(g', i, j, k)[c]
    {
      var d := CornerOffset(c);
      assert InLattice(i + d.0, j + d.1, k + d.2, g.x, g.y, g.z);
    }
  }

  /**
   * Slice i reads only the samples of the layers i and i + 1, and writes
   * only its own mesh, so the slices of the parallel loop are independent.
   */
  lemma SliceDependsOnItsLayers(alg: Polygonizer, g: Grid, g': Grid, iso: real, tol: real, i: int)
    requires PolygonizerOk(alg) && SameCounts(g, g') && SameLayers(g, g', i) && tol >= 0.0
    requires 0 <= i < g.x - 1
    ensures Slice(alg, g, iso, tol, i) == Slice(alg, g', iso, tol, i)
  {
    var rows, rows' := SliceCells(g, i), SliceCells(g', i);
    forall j | 0 <= j < |rows| ensures rows[j] == rows'[j] {
      var row, row' := RowCells(g, i, j), RowCells(g', i, j);
      forall k | 0 <= k < |row| ensures row[k] == row'[k] {
        SameLayersSameCell(g, g', i, j, k);
      }
    }
    assert rows == rows';
  }
}
