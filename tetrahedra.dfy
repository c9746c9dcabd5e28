/**
 * One tetrahedron of the tetrahedral polygonizer: its 4-bit case and the
 * hand-written case switch of PolygoniseTri (MarchingCubesComponent.cs:116-217).
 */
module Tetrahedra {
  import opened Geometry
  import opened CaseIndex
  import opened Interpolation

  /** The tests `v[b] < iso` of the four corners. */
  function Below4(v: seq<real>, iso: real): (r: seq<bool>)
    requires |v| == 4
    ensures |r| == 4 && forall b :: 0 <= b < 4 ==> r[b] == (v[b] < iso)
  {
    [v[0] < iso, v[1] < iso, v[2] < iso, v[3] < iso]
  }

  /** `ti` of MarchingCubesComponent.cs:119-123. */
  function TetCase(v: seq<real>, iso: real): (ti: nat)
    requires |v| == 4
    ensures ti < 16
    ensures forall b :: 0 <= b < 4 ==> (Bit(ti, b) <==> v[b] < iso)
  {
    var ti := Index(Below4(v, iso));
    forall b | 0 <= b < 4 ensures Bit(ti, b) <==> v[b] < iso {
      IndexBit(Below4(v, iso), b);
    }
    ti
  }

  /**
   * What one case of the switch emits: the corner pairs to interpolate, in
   * the order their vertices are added, and the face as offsets from the
   * vertex count read on entry.
   */
  datatype Plan = Plan(pairs: seq<(nat, nat)>, face: seq<nat>)

  /** The switch of MarchingCubesComponent.cs:124-216, one entry per case. */
  function TetPlan(ti: nat): (r: Plan)
    requires ti < 16
    ensures PairsOk(r.pairs)
  {
    match ti
    case 0x01 => Plan([(0, 1), (0, 2), (0, 3)], [2, 1, 0])
    case 0x02 => Plan([(1, 0), (1, 3), (1, 2)], [2, 1, 0])
    case 0x03 => Plan([(0, 3), (0, 2), (1, 3), (1, 2)], [0, 1, 3, 2])
    case 0x04 => Plan([(2, 0), (2, 1), (2, 3)], [2, 1, 0])
    case 0x05 => Plan([(0, 1), (2, 3), (0, 3), (1, 2)], [0, 2, 1, 3])
    case 0x06 => Plan([(0, 1), (1, 3), (2, 3), (0, 2)], [3, 2, 1, 0])
    case 0x07 => Plan([(3, 0), (3, 2), (3, 1)], [0, 1, 2])
    case 0x08 => Plan([(3, 0), (3, 2), (3, 1)], [2, 1, 0])
    case 0x09 => Plan([(0, 1), (1, 3), (2, 3), (0, 2)], [0, 1, 2, 3])
    case 0x0A => Plan([(0, 1), (2, 3), (0, 3), (1, 2)], [3, 1, 2, 0])
    case 0x0B => Plan([(2, 0), (2, 1), (2, 3)], [0, 1, 2])
    case 0x0C => Plan([(0, 3), (0, 2), (1, 3), (1, 2)], [2, 3, 1, 0])
    case 0x0D => Plan([(1, 0), (1, 3), (1, 2)], [0, 1, 2])
    case 0x0E => Plan([(0, 1), (0, 2), (0, 3)], [0, 1, 2])
    case _ => Plan([], [])
  }

  /** Number of corners below iso in case ti, by table. */
  function BelowCount(ti: nat): (n: nat)
    requires ti < 16
    ensures n <= 4
  {
    [0, 1, 1, 2, 1, 2, 2, 3, 1, 2, 2, 3, 2, 3, 3, 4][ti]
  }

  /** The table counts the set bits of the case. */
  lemma BelowCountCountsBits(ti: nat)
    requires ti < 16
    ensures BelowCount(ti) ==
      (if Bit(ti, 0) then 1 else 0) + (if Bit(ti, 1) then 1 else 0) +
      (if Bit(ti, 2) then 1 else 0) + (if Bit(ti, 3) then 1 else 0)
  {
    if ti == 0 {} else if ti == 1 {} else if ti == 2 {} else if ti == 3 {} else if ti == 4 {} else if ti == 5 {} else if ti == 6 {} else if ti == 7 {} else if ti == 8 {} else if ti == 9 {} else if ti == 10 {} else if ti == 11 {} else if ti == 12 {} else if ti == 13 {} else if ti == 14 {} else { assert ti == 15; }
  }

  /** The face visits the added vertices 0 .. n-1 once each. */
  predicate IsPermutation(face: seq<nat>, n: nat)
  {
    |face| == n &&
    (forall a, b :: 0 <= a < b < n ==> face[a] != face[b]) &&
    (forall a :: 0 <= a < n ==> face[a] < n) &&
    (forall q :: 0 <= q < n ==> q in face)
  }

  /** The eight vertex orders the switch uses. */
  lemma TableFacesArePermutations()
    ensures IsPermutation([0, 1, 2], 3) && IsPermutation([2, 1, 0], 3)
    ensures IsPermutation([0, 1, 2, 3], 4) && IsPermutation([3, 2, 1, 0], 4)
    ensures IsPermutation([0, 1, 3, 2], 4) && IsPermutation([2, 3, 1, 0], 4)
    ensures IsPermutation([0, 2, 1, 3], 4) && IsPermutation([3, 1, 2, 0], 4)
  {
  }

  /**
   * Cases 0 and 15 emit nothing; with one or three corners below iso the
   * case adds three vertices and a triangle, with two it adds four vertices
   * and a quad.
   */
  lemma TetPlanShape(ti: nat)
    requires ti < 16
    ensures var plan := TetPlan(ti);
      (plan.pairs == [] <==> ti == 0 || ti == 15) &&
      (BelowCount(ti) == 1 || BelowCount(ti) == 3 ==> |plan.pairs| == 3) &&
      (BelowCount(ti) == 2 ==> |plan.pairs| == 4) &&
      (plan.pairs == [] ==> plan.face == [])
  {
  }

  /** The face of a case uses each vertex the case adds exactly once. */
  lemma TetPlanFace(ti: nat)
    requires ti < 16
    ensures var plan := TetPlan(ti);
      plan.pairs != [] ==> IsPermutation(plan.face, |plan.pairs|)
  {
    TableFacesArePermutations();
    if ti == 0 {} else if ti == 1 {} else if ti == 2 {} else if ti == 3 {} else if ti == 4 {} else if ti == 5 {} else if ti == 6 {} else if ti == 7 {} else if ti == 8 {} else if ti == 9 {} else if ti == 10 {} else if ti == 11 {} else if ti == 12 {} else if ti == 13 {} else if ti == 14 {} else { assert ti == 15; }
  }

  /**
   * Every interpolated pair joins a corner below iso to one that is not, so
   * the vertex is placed on an edge the level set crosses.
   */
  lemma TetPlanStraddles(ti: nat)
    requires ti < 16
    ensures forall n :: 0 <= n < |TetPlan(ti).pairs| ==>
      var e := TetPlan(ti).pairs[n];
      e.0 < 4 && e.1 < 4 && Bit(ti, e.0) != Bit(ti, e.1)
  {
    if ti == 0 {} else if ti == 1 {} else if ti == 2 {} else if ti == 3 {} else if ti == 4 {} else if ti == 5 {} else if ti == 6 {} else if ti == 7 {} else if ti == 8 {} else if ti == 9 {} else if ti == 10 {} else if ti == 11 {} else if ti == 12 {} else if ti == 13 {} else if ti == 14 {} else { assert ti == 15; }
  }

  /** The two pairs name the same tetrahedron edge, in either direction. */
  predicate SameEdge(e: (nat, nat), e': (nat, nat))
  {
    (e.0 == e'.0 && e.1 == e'.1) || (e.0 == e'.1 && e.1 == e'.0)
  }

  /** The two pairs share a tetrahedron corner. */
  predicate ShareCorner(e: (nat, nat), e': (nat, nat))
  {
    e.0 == e'.0 || e.0 == e'.1 || e.1 == e'.0 || e.1 == e'.1
  }

  /**
   * Conversely every crossed edge of the tetrahedron is interpolated exactly
   * once: the pairs are pairwise different edges and there are as many as
   * there are crossed edges (BelowCount * (4 - BelowCount)).
   */
  lemma TetPlanCoversCrossedEdges(ti: nat)
    requires ti < 16
    ensures var pairs := TetPlan(ti).pairs;
      |pairs| == BelowCount(ti) * (4 - BelowCount(ti)) &&
      forall n, n' :: 0 <= n < n' < |pairs| ==> !SameEdge(pairs[n], pairs[n'])
  {
    TetPlanShape(ti);
    assert BelowCount(0) == 0 && BelowCount(15) == 4;
    assert DistinctEdges(TetPlan(ti).pairs) by {
      if ti == 0 {} else if ti == 1 {} else if ti == 2 {} else if ti == 3 {} else if ti == 4 {} else if ti == 5 {} else if ti == 6 {} else if ti == 7 {} else if ti == 8 {} else if ti == 9 {} else if ti == 10 {} else if ti == 11 {} else if ti == 12 {} else if ti == 13 {} else if ti == 14 {} else { assert ti == 15; }
    }
    DistinctEdgesMeans(TetPlan(ti).pairs);
  }

  /** No two pairs of the list name the same edge, checked pair by pair. */
  predicate DistinctEdges(pairs: seq<(nat, nat)>)
  {
    pairs == [] || (EdgeAbsent(pairs[0], pairs[1..]) && DistinctEdges(pairs[1..]))
  }

  predicate EdgeAbsent(e: (nat, nat), pairs: seq<(nat, nat)>)
  {
    pairs == [] || (!SameEdge(e, pairs[0]) && EdgeAbsent(e, pairs[1..]))
  }

  lemma {:induction false} EdgeAbsentMeans(e: (nat, nat), pairs: seq<(nat, nat)>)
    requires EdgeAbsent(e, pairs)
    ensures forall n :: 0 <= n < |pairs| ==> !SameEdge(e, pairs[n])
  {
    if pairs != [] {
      EdgeAbsentMeans(e, pairs[1..]);
      assert forall n :: 1 <= n < |pairs| ==> pairs[n] == pairs[1..][n - 1];
    }
  }

  lemma {:induction false} DistinctEdgesMeans(pairs: seq<(nat, nat)>)
    requires DistinctEdges(pairs)
    ensures forall n, n' :: 0 <= n < n' < |pairs| ==> !SameEdge(pairs[n], pairs[n'])
  {
    if pairs != [] {
      DistinctEdgesMeans(pairs[1..]);
      EdgeAbsentMeans(pairs[0], pairs[1..]);
      forall n, n' | 0 <= n < n' < |pairs| ensures !SameEdge(pairs[n], pairs[n']) {
        assert pairs[n'] == pairs[1..][n' - 1];
        if n > 0 {
          assert pairs[n] == pairs[1..][n - 1];
        }
      }
    }
  }

  /** b lists the elements of a in reverse order. */
  predicate Reversed(a: seq<nat>, b: seq<nat>)
  {
    |b| == |a| && forall n :: 0 <= n < |a| ==> b[n] == a[|a| - 1 - n]
  }

  /**
   * Complement symmetry: case 15 - ti interpolates the same pairs in the same
   * order as ti and emits the same face with its vertex order reversed.
   */
  lemma TetPlanComplement(ti: nat)
    requires ti < 16
    ensures TetPlan(15 - ti).pairs == TetPlan(ti).pairs
    ensures Reversed(TetPlan(ti).face, TetPlan(15 - ti).face)
  {
  }

  /** Consecutive corners of a quad share a tetrahedron corner: the quad is not a bow-tie. */
  lemma TetQuadsAreCycles(ti: nat)
    requires ti < 16
    ensures |TetPlan(ti).face| == 4 ==>
      Adjacent(TetPlan(ti), 0, 1) && Adjacent(TetPlan(ti), 1, 2) &&
      Adjacent(TetPlan(ti), 2, 3) && Adjacent(TetPlan(ti), 3, 0)
  {
    if ti == 0 {} else if ti == 1 {} else if ti == 2 {} else if ti == 3 {} else if ti == 4 {} else if ti == 5 {} else if ti == 6 {} else if ti == 7 {} else if ti == 8 {} else if ti == 9 {} else if ti == 10 {} else if ti == 11 {} else if ti == 12 {} else if ti == 13 {} else if ti == 14 {} else { assert ti == 15; }
  }

  /** Face corners a and b of a plan interpolate edges that share a tetrahedron corner. */
  predicate Adjacent(plan: Plan, a: nat, b: nat)
  {
    a < |plan.face| && b < |plan.face| &&
    plan.face[a] < |plan.pairs| && plan.face[b] < |plan.pairs| &&
    ShareCorner(plan.pairs[plan.face[a]], plan.pairs[plan.face[b]])
  }

  /** The vertices the pairs of a plan interpolate to. */
  function Interps(pairs: seq<(nat, nat)>, p: seq<Point3>, v: seq<real>, iso: real, tol: real): (r: seq<Point3>)
    requires |p| == 4 && |v| == 4 && tol >= 0.0
    requires forall n :: 0 <= n < |pairs| ==> pairs[n].0 < 4 && pairs[n].1 < 4
    ensures |r| == |pairs|
  {
    seq(|pairs|, n requires 0 <= n < |pairs| =>
      Interpolate(iso, p[pairs[n].0], p[pairs[n].1], v[pairs[n].0], v[pairs[n].1], tol))
  }

  function Shift(face: seq<nat>, count: nat): (r: seq<nat>)
    ensures |r| == |face| && forall a :: 0 <= a < |face| ==> r[a] == face[a] + count
  {
    seq(|face|, a requires 0 <= a < |face| => face[a] + count)
  }

  /** Every pair names two corners of the tetrahedron. */
  predicate PairsOk(pairs: seq<(nat, nat)>)
  {
    forall n :: 0 <= n < |pairs| ==> pairs[n].0 < 4 && pairs[n].1 < 4
  }

  /** The mesh after one case of the switch: its vertices added in order, then its face. */
  function ApplyPlan(m: MeshData, plan: Plan, p: seq<Point3>, v: seq<real>, iso: real, tol: real): MeshData
    requires |p| == 4 && |v| == 4 && tol >= 0.0 && PairsOk(plan.pairs)
  {
    if plan.pairs == [] then m
    else MeshData(m.vertices + Interps(plan.pairs, p, v, iso, tol),
                  m.faces + [Face(Shift(plan.face, |m.vertices|))])
  }

  /** The mesh after PolygoniseTri on a tetrahedron with corner points p and values v. */
  function TetStep(m: MeshData, p: seq<Point3>, v: seq<real>, iso: real, tol: real): MeshData
    requires |p| == 4 && |v| == 4 && tol >= 0.0
  {
    ApplyPlan(m, TetPlan(TetCase(v, iso)), p, v, iso, tol)
  }

  /**
   * A plan whose face is a permutation of its added vertices keeps a mesh
   * well formed: it only appends, the new face uses exactly the new
   * vertices, and new vertex n interpolates pair n.
   */
  lemma ApplyPlanAppends(m: MeshData, plan: Plan, p: seq<Point3>, v: seq<real>, iso: real, tol: real)
    requires |p| == 4 && |v| == 4 && tol >= 0.0 && PairsOk(plan.pairs)
    requires WellFormed(m)
    requires plan.pairs == [] ==> plan.face == []
    requires plan.pairs != [] ==> (|plan.pairs| == 3 || |plan.pairs| == 4) && IsPermutation(plan.face, |plan.pairs|)
    ensures var r, count := ApplyPlan(m, plan, p, v, iso, tol), |m.vertices|;
      WellFormed(r) && |r.vertices| == count + |plan.pairs| &&
      r.vertices[..count] == m.vertices && r.faces[..|m.faces|] == m.faces &&
      (r == m <==> plan.pairs == []) &&
      (plan.pairs != [] ==>
        |r.faces| == |m.faces| + 1 &&
        (forall a :: 0 <= a < |r.faces[|m.faces|].corners| ==>
          count <= r.faces[|m.faces|].corners[a] < count + |plan.pairs|) &&
        (forall q :: count <= q < count + |plan.pairs| ==> q in r.faces[|m.faces|].corners)) &&
      (forall n :: 0 <= n < |plan.pairs| ==>
        r.vertices[count + n] ==
          Interpolate(iso, p[plan.pairs[n].0], p[plan.pairs[n].1], v[plan.pairs[n].0], v[plan.pairs[n].1], tol))
  {
    var count := |m.vertices|;
    var r := ApplyPlan(m, plan, p, v, iso, tol);
    if plan.pairs != [] {
      var f := Face(Shift(plan.face, count));
      assert r.faces[|m.faces|] == f;
      assert |r.vertices| > |m.vertices|;
      forall q | count <= q < count + |plan.pairs| ensures q in f.corners {
        assert q - count in plan.face;
        var a :| 0 <= a < |plan.face| && plan.face[a] == q - count;
        assert f.corners[a] == q;
      }
      forall n | 0 <= n < |plan.pairs|
        ensures r.vertices[count + n] == Interps(plan.pairs, p, v, iso, tol)[n]
      {
      }
    }
  }

  /**
   * PolygoniseTri keeps a mesh well formed. It adds nothing when the four
   * corners agree, and otherwise 3 or 4 vertices (by the number of corners
   * below iso) and one face whose indices are exactly the added vertices
   * [count, count + added).
   */
  lemma TetStepAppends(m: MeshData, p: seq<Point3>, v: seq<real>, iso: real, tol: real)
    requires |p| == 4 && |v| == 4 && tol >= 0.0
    requires WellFormed(m)
    ensures var r, ti, count := TetStep(m, p, v, iso, tol), TetCase(v, iso), |m.vertices|;
      var added := |r.vertices| - count;
      WellFormed(r) && r.vertices[..count] == m.vertices && r.faces[..|m.faces|] == m.faces &&
      (ti == 0 || ti == 15 <==> r == m) &&
      (BelowCount(ti) == 1 || BelowCount(ti) == 3 ==> added == 3 && |r.faces| == |m.faces| + 1) &&
      (BelowCount(ti) == 2 ==> added == 4 && |r.faces| == |m.faces| + 1) &&
      (r != m ==>
        (forall a :: 0 <= a < |r.faces[|m.faces|].corners| ==>
          count <= r.faces[|m.faces|].corners[a] < count + added) &&
        (forall q :: count <= q < count + added ==> q in r.faces[|m.faces|].corners))
  {
    var ti := TetCase(v, iso);
    var plan := TetPlan(ti);
    TetPlanShape(ti);
    TetPlanFace(ti);
    TetPlanStraddles(ti);
    ApplyPlanAppends(m, plan, p, v, iso, tol);
  }

  /** PolygoniseTri keeps a mesh well formed and only appends to it. */
  lemma TetStepExtends(m: MeshData, p: seq<Point3>, v: seq<real>, iso: real, tol: real)
    requires |p| == 4 && |v| == 4 && tol >= 0.0
    requires WellFormed(m)
    ensures WellFormed(TetStep(m, p, v, iso, tol)) && Extends(m, TetStep(m, p, v, iso, tol))
  {
    var ti := TetCase(v, iso);
    TetPlanShape(ti);
    TetPlanFace(ti);
    TetPlanStraddles(ti);
    ApplyPlanAppends(m, TetPlan(ti), p, v, iso, tol);
  }

  /** Each vertex PolygoniseTri adds lies on an edge joining a corner below iso to one that is not. */
  lemma TetStepVertices(m: MeshData, p: seq<Point3>, v: seq<real>, iso: real, tol: real)
    requires |p| == 4 && |v| == 4 && tol >= 0.0
    ensures var r := TetStep(m, p, v, iso, tol);
      forall q :: |m.vertices| <= q < |r.vertices| ==>
        exists a, b :: 0 <= a < 4 && 0 <= b < 4 && (v[a] < iso) != (v[b] < iso) &&
          r.vertices[q] == Interpolate(iso, p[a], p[b], v[a], v[b], tol)
  {
    var ti := TetCase(v, iso);
    var plan := TetPlan(ti);
    TetPlanStraddles(ti);
    var count := |m.vertices|;
    var r := ApplyPlan(m, plan, p, v, iso, tol);
    forall q | count <= q < |r.vertices|
      ensures exists a, b ::
        0 <= a < 4 && 0 <= b < 4 && (v[a] < iso) != (v[b] < iso) &&
        r.vertices[q] == Interpolate(iso, p[a], p[b], v[a], v[b], tol)
    {
      var e := plan.pairs[q - count];
      assert r.vertices[q] == Interps(plan.pairs, p, v, iso, tol)[q - count];
      assert (v[e.0] < iso) != (v[e.1] < iso);
    }
  }

  /**
   * PolygoniseTri on a slice mesh: the vertices the case lists are added in
   * order and then the one face, all in a single update of the mesh.
   */
  method PolygoniseTri(iso: real, m: Mesh, p: seq<Point3>, v: seq<real>, tol: real)
    requires |p| == 4 && |v| == 4 && tol >= 0.0
    modifies m
    ensures m.Data() == TetStep(old(m.Data()), p, v, iso, tol)
  {
    var count := |m.vertices|;
    var ti := TetCase(v, iso);
    var plan := TetPlan(ti);
    TetPlanStraddles(ti);
    assert PairsOk(plan.pairs);
    if plan.pairs != [] {
      m.vertices := m.vertices + Interps(plan.pairs, p, v, iso, tol);
      m.faces := m.faces + [Face(Shift(plan.face, count))];
    }
  }
}
