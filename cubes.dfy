/**
 * One cell of the cube polygonizer (the body of the j/k loops of
 * MarchingCube, MarchingCubesComponent.cs:260-307): its 8-bit case, the
 * edge vertices the edge table selects and the triangles the triangle table
 * lists. Both tables are parameters of the model.
 */
module Cubes {
  import opened Geometry
  import opened CaseIndex
  import opened Interpolation
  import opened Lattice

  /** The tests `val[b] < iso` of the eight corners. */
  function Below8(val: seq<real>, iso: real): (r: seq<bool>)
    requires |val| == 8
    ensures |r| == 8 && forall b :: 0 <= b < 8 ==> r[b] == (val[b] < iso)
  {
    seq(8, b requires 0 <= b < 8 => val[b] < iso)
  }

  /** `cubeIndex` of MarchingCubesComponent.cs:263-271. */
  function CubeIndex(val: seq<real>, iso: real): (c: nat)
    requires |val| == 8
    ensures c < 256
    ensures forall b :: 0 <= b < 8 ==> (Bit(c, b) <==> val[b] < iso)
  {
    var c := Index(Below8(val, iso));
    forall b | 0 <= b < 8 ensures Bit(c, b) <==> val[b] < iso {
      IndexBit(Below8(val, iso), b);
    }
    c
  }

  /** The case index is 0 exactly when no corner is below iso and 255 exactly when all are. */
  lemma CubeIndexExtremes(val: seq<real>, iso: real)
    requires |val| == 8
    ensures CubeIndex(val, iso) == 0 <==> forall b :: 0 <= b < 8 ==> !(val[b] < iso)
    ensures CubeIndex(val, iso) == 255 <==> forall b :: 0 <= b < 8 ==> val[b] < iso
  {
    IndexExtremes(Below8(val, iso));
    assert Pow2(8) == 256;
  }

  /** Values that classify alike always give the same case index, and no others do. */
  lemma CubeIndexBySigns(val: seq<real>, val': seq<real>, iso: real, iso': real)
    requires |val| == 8 && |val'| == 8
    ensures CubeIndex(val, iso) == CubeIndex(val', iso') <==>
      forall b :: 0 <= b < 8 ==> (val[b] < iso <==> val'[b] < iso')
  {
    IndexInjective(Below8(val, iso), Below8(val', iso'));
    if forall b :: 0 <= b < 8 ==> (val[b] < iso <==> val'[b] < iso') {
      assert Below8(val, iso) == Below8(val', iso');
    }
  }

  /**
   * What the 12-slot `vertices` buffer holds after lines 275-298: the
   * interpolated crossing on edge e when bit e of the mask is set, the
   * buffer's zero default otherwise.
   */
  function EdgeBuffer(mask: nat, cor: seq<Point3>, val: seq<real>, iso: real, tol: real): (buf: seq<Point3>)
    requires |cor| == 8 && |val| == 8 && tol >= 0.0
    ensures |buf| == 12
  {
    seq(12, e requires 0 <= e < 12 =>
      var ab := EdgeCorners(e);
      if Bit(mask, e) then Interpolate(iso, cor[ab.0], cor[ab.1], val[ab.0], val[ab.1], tol) else Origin)
  }

  /**
   * A triangle-table row read from position m: a run of edge-index triples,
   * each below 12, closed by -1 at a position that is a multiple of three
   * from the start; the loop at line 300 relies on this.
   */
  predicate RowFrom(row: seq<int>, m: nat)
    decreases |row| - m
  {
    m < |row| &&
    (row[m] == -1 ||
     (m + 3 <= |row| && 0 <= row[m] < 12 && 0 <= row[m + 1] < 12 && 0 <= row[m + 2] < 12 &&
      RowFrom(row, m + 3)))
  }

  /** The edge indices of the row from position m up to its terminator. */
  function RowEdges(row: seq<int>, m: nat): (edges: seq<nat>)
    requires RowFrom(row, m)
    ensures |edges| % 3 == 0 && forall q :: 0 <= q < |edges| ==> edges[q] < 12
    decreases |row| - m
  {
    if row[m] == -1 then [] else [row[m] as nat, row[m + 1] as nat, row[m + 2] as nat] + RowEdges(row, m + 3)
  }

  /** The edge table has 256 masks and the triangle table 256 well-formed rows. */
  predicate TablesOk(edgeTable: seq<int>, triTable: seq<seq<int>>)
  {
    |edgeTable| == 256 && |triTable| == 256 &&
    (forall c :: 0 <= c < 256 ==> edgeTable[c] >= 0) &&
    (forall c :: 0 <= c < 256 ==> RowFrom(triTable[c], 0))
  }

  /** One triangle: three new vertices and the face (first, first+1, first+2) with first = 3 * Faces.Count. */
  function AppendTriangle(m: MeshData, a: Point3, b: Point3, c: Point3): MeshData
  {
    var first := |m.faces| * 3;
    MeshData(m.vertices + [a, b, c], m.faces + [Face([first, first + 1, first + 2])])
  }

  /** The triangles of the row from position pos on (the loop of lines 300-307), appended to m. */
  function AppendRowFrom(m: MeshData, buf: seq<Point3>, row: seq<int>, pos: nat): MeshData
    requires |buf| == 12 && RowFrom(row, pos)
    decreases |row| - pos
  {
    if row[pos] == -1 then m
    else AppendRowFrom(AppendTriangle(m, buf[row[pos]], buf[row[pos + 1]], buf[row[pos + 2]]), buf, row, pos + 3)
  }

  /** The mesh after processing one cube cell with corner points cor and values val. */
  function CubeStep(m: MeshData, cor: seq<Point3>, val: seq<real>, iso: real, tol: real,
                    edgeTable: seq<int>, triTable: seq<seq<int>>): MeshData
    requires |cor| == 8 && |val| == 8 && tol >= 0.0 && TablesOk(edgeTable, triTable)
  {
    var c := CubeIndex(val, iso);
    if edgeTable[c] == 0 then m
    else AppendRowFrom(m, EdgeBuffer(edgeTable[c] as nat, cor, val, iso, tol), triTable[c], 0)
  }

  /**
   * The shape every slice mesh of the cube polygonizer keeps: three vertices
   * per face and face f made of vertices 3f, 3f+1, 3f+2.
   */
  predicate Triangulated(m: MeshData)
  {
    |m.vertices| == 3 * |m.faces| &&
    forall f :: 0 <= f < |m.faces| ==> m.faces[f] == Face([3 * f, 3 * f + 1, 3 * f + 2])
  }

  lemma TriangulatedIsWellFormed(m: MeshData)
    requires Triangulated(m)
    ensures WellFormed(m)
  {
  }

  /**
   * Appending a row keeps the shape: the index `first = Faces.Count * 3`
   * computed at line 305 is the index of the first of the three vertices just
   * added, so each face refers exactly to its own three vertices; the new
   * vertices are the buffer slots the row names, in row order.
   */
  lemma {:induction false} AppendRowKeepsShape(m: MeshData, buf: seq<Point3>, row: seq<int>, pos: nat)
    requires |buf| == 12 && RowFrom(row, pos)
    requires Triangulated(m)
    ensures var r := AppendRowFrom(m, buf, row, pos);
      var edges := RowEdges(row, pos);
      Triangulated(r) && |r.faces| == |m.faces| + |edges| / 3 &&
      r.vertices == m.vertices + seq(|edges|, q requires 0 <= q < |edges| => buf[edges[q]]) &&
      r.faces[..|m.faces|] == m.faces
    decreases |row| - pos
  {
    if row[pos] != -1 {
      var m' := AppendTriangle(m, buf[row[pos]], buf[row[pos + 1]], buf[row[pos + 2]]);
      assert Triangulated(m');
      AppendRowKeepsShape(m', buf, row, pos + 3);
      var r := AppendRowFrom(m', buf, row, pos + 3);
      assert r.faces[..|m.faces|] == m'.faces[..|m'.faces|][..|m.faces|];
      var edges, rest := RowEdges(row, pos), RowEdges(row, pos + 3);
      var all := seq(|edges|, q requires 0 <= q < |edges| => buf[edges[q]]);
      var tail := seq(|rest|, q requires 0 <= q < |rest| => buf[rest[q]]);
      assert all == [buf[row[pos]], buf[row[pos + 1]], buf[row[pos + 2]]] + tail;
    }
  }

  /** A cell keeps the slice mesh triangulated. */
  lemma CubeStepKeepsShape(m: MeshData, cor: seq<Point3>, val: seq<real>, iso: real, tol: real,
                           edgeTable: seq<int>, triTable: seq<seq<int>>)
    requires |cor| == 8 && |val| == 8 && tol >= 0.0 && TablesOk(edgeTable, triTable)
    requires Triangulated(m)
    ensures Triangulated(CubeStep(m, cor, val, iso, tol, edgeTable, triTable))
  {
    var c := CubeIndex(val, iso);
    if edgeTable[c] != 0 {
      AppendRowKeepsShape(m, EdgeBuffer(edgeTable[c] as nat, cor, val, iso, tol), triTable[c], 0);
    }
  }

  /** The first n slots of v hold those of buf, the others the zero default. */
  predicate FilledUpTo(v: seq<Point3>, buf: seq<Point3>, n: nat)
  {
    |v| == 12 && |buf| == 12 && n <= 12 &&
    (forall q :: 0 <= q < n ==> v[q] == buf[q]) &&
    (forall q :: n <= q < 12 ==> v[q] == Origin)
  }

  /** One of lines 275-298: when bit e of the mask is set, slot e gets the crossing on edge (a, b). */
  method SetEdge(vertices: array<Point3>, mask: nat, e: nat, a: nat, b: nat,
                 cor: seq<Point3>, val: seq<real>, iso: real, tol: real, ghost buf: seq<Point3>)
    requires |cor| == 8 && |val| == 8 && tol >= 0.0
    requires e < 12 && EdgeCorners(e) == (a, b)
    requires buf == EdgeBuffer(mask, cor, val, iso, tol)
    requires FilledUpTo(vertices[..], buf, e)
    modifies vertices
    ensures FilledUpTo(vertices[..], buf, e + 1)
  {
    if Bit(mask, e) {
      vertices[e] := Interpolate(iso, cor[a], cor[b], val[a], val[b], tol);
    }
  }

  /** Lines 275-298: interpolate on every edge whose bit the mask sets; the other slots keep the zero default. */
  method EdgeVertices(vertices: array<Point3>, mask: nat, cor: seq<Point3>, val: seq<real>, iso: real, tol: real)
    requires vertices.Length == 12 && |cor| == 8 && |val| == 8 && tol >= 0.0
    requires forall q :: 0 <= q < 12 ==> vertices[q] == Origin
    modifies vertices
    ensures vertices[..] == EdgeBuffer(mask, cor, val, iso, tol)
  {
    ghost var buf := EdgeBuffer(mask, cor, val, iso, tol);
    SetEdge(vertices, mask, 0, 0, 1, cor, val, iso, tol, buf);
    SetEdge(vertices, mask, 1, 1, 2, cor, val, iso, tol, buf);
    SetEdge(vertices, mask, 2, 2, 3, cor, val, iso, tol, buf);
    SetEdge(vertices, mask, 3, 3, 0, cor, val, iso, tol, buf);
    SetEdge(vertices, mask, 4, 4, 5, cor, val, iso, tol, buf);
    SetEdge(vertices, mask, 5, 5, 6, cor, val, iso, tol, buf);
    SetEdge(vertices, mask, 6, 6, 7, cor, val, iso, tol, buf);
    SetEdge(vertices, mask, 7, 7, 4, cor, val, iso, tol, buf);
    SetEdge(vertices, mask, 8, 0, 4, cor, val, iso, tol, buf);
    SetEdge(vertices, mask, 9, 1, 5, cor, val, iso, tol, buf);
    SetEdge(vertices, mask, 10, 2, 6, cor, val, iso, tol, buf);
    SetEdge(vertices, mask, 11, 3, 7, cor, val, iso, tol, buf);
  }

  /** Lines 300-307: one triangle per triple of the row, until its terminator. */
  method AppendRow(mesh: Mesh, vertices: array<Point3>, triRow: seq<int>)
    requires vertices.Length == 12 && RowFrom(triRow, 0)
    modifies mesh
    ensures mesh.Data() == AppendRowFrom(old(mesh.Data()), vertices[..], triRow, 0)
  {
    ghost var buf := vertices[..];
    ghost var target := AppendRowFrom(mesh.Data(), buf, triRow, 0);
    var m := 0;
    while triRow[m] != -1
      invariant RowFrom(triRow, m)
      invariant target == AppendRowFrom(mesh.Data(), buf, triRow, m)
      invariant vertices[..] == buf
      decreases |triRow| - m
    {
      mesh.vertices := mesh.vertices + [vertices[triRow[m]], vertices[triRow[m + 1]], vertices[triRow[m + 2]]];
      var first := |mesh.faces| * 3;
      mesh.faces := mesh.faces + [Face([first, first + 1, first + 2])];
      m := m + 3;
    }
  }

  /**
   * The loop of MarchingCube for a single cell, on a slice mesh: classify,
   * fill the edge buffer, append one triangle per table triple.
   */
  method CubeCell(mesh: Mesh, cor: seq<Point3>, val: seq<real>, iso: real, tol: real,
                  edgeTable: seq<int>, triTable: seq<seq<int>>)
    requires |cor| == 8 && |val| == 8 && tol >= 0.0 && TablesOk(edgeTable, triTable)
    modifies mesh
    ensures mesh.Data() == CubeStep(old(mesh.Data()), cor, val, iso, tol, edgeTable, triTable)
  {
    var cubeIndex := CubeIndex(val, iso);
    var vertices := new Point3[12](_ => Origin);
    if edgeTable[cubeIndex] == 0 {
      return;
    }
    var mask: nat := edgeTable[cubeIndex];
    EdgeVertices(vertices, mask, cor, val, iso, tol);
    AppendRow(mesh, vertices, triTable[cubeIndex]);
  }
}
