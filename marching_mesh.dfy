/**
 * MarchingMesh.Process (MarchingMesh.cs:37-69): the iso-contour of a field
 * over an existing mesh. Each face gets a sign state from its corners, the
 * state selects a table entry of four-index records, and each record gives
 * one line segment between two face edges. The parallel loop over faces is
 * run sequentially and the concurrent bag of lines is a multiset; joining
 * the lines into polylines is not modelled.
 */
module MarchingMesh {
  import opened Wrappers
  import opened Geometry
  import opened CaseIndex
  import opened Interpolation
  import opened Range

  /** A face of the input mesh: three corner vertex indices, or four for a quad. */
  datatype MeshFace = MeshFace(corners: seq<nat>)

  datatype InputMesh = InputMesh(vertices: seq<Point3>, faces: seq<MeshFace>)

  predicate IsQuad(f: MeshFace)
  {
    |f.corners| == 4
  }

  predicate FaceOk(f: MeshFace, n: nat)
  {
    (|f.corners| == 3 || |f.corners| == 4) && forall c :: 0 <= c < |f.corners| ==> f.corners[c] < n
  }

  /** Every face of a mesh names existing vertices. */
  predicate MeshOk(mesh: InputMesh)
  {
    FacesOk(mesh.faces, |mesh.vertices|)
  }

  /** The field evaluated once per vertex, in vertex order (line 44). */
  function VertexValues(vertices: seq<Point3>, field: Point3 -> real): (values: seq<real>)
    ensures |values| == |vertices|
    ensures forall v :: 0 <= v < |vertices| ==> values[v] == field(vertices[v])
  {
    seq(|vertices|, v requires 0 <= v < |vertices| => field(vertices[v]))
  }

  /** The tests `values[mf[i]] > iso` of the face's corners, in corner order. */
  function Above(values: seq<real>, f: MeshFace, iso: real): (r: seq<bool>)
    requires FaceOk(f, |values|)
    ensures |r| == |f.corners|
    ensures forall i :: 0 <= i < |f.corners| ==> r[i] == (values[f.corners[i]] > iso)
  {
    seq(|f.corners|, i requires 0 <= i < |f.corners| => values[f.corners[i]] > iso)
  }

  /** The state of a face (lines 49-51). */
  function State(values: seq<real>, f: MeshFace, iso: real): (state: nat)
    requires FaceOk(f, |values|)
    ensures state < (if IsQuad(f) then 16 else 8)
  {
    assert Pow2(3) == 8 && Pow2(4) == 16;
    Index(Above(values, f, iso))
  }

  /**
   * Bit i of the state is set exactly when corner i is strictly above iso
   * (the opposite sense to the `<` of the cube code), and no bit beyond the
   * corners is set.
   */
  lemma StateBits(values: seq<real>, f: MeshFace, iso: real)
    requires FaceOk(f, |values|)
    ensures forall i :: 0 <= i < |f.corners| ==> (Bit(State(values, f, iso), i) <==> values[f.corners[i]] > iso)
    ensures forall i: nat :: i >= |f.corners| ==> !Bit(State(values, f, iso), i)
  {
    var bs := Above(values, f, iso);
    forall i: nat ensures Bit(Index(bs), i) <==> (i < |bs| && bs[i]) {
      IndexBit(bs, i);
    }
  }

  /** The `state +=` loop of lines 49-51, adding 1 << i for each corner above iso. */
  method FaceState(values: seq<real>, f: MeshFace, iso: real) returns (state: nat)
    requires FaceOk(f, |values|)
    ensures state == State(values, f, iso)
  {
    ghost var bs := Above(values, f, iso);
    state := 0;
    var n := if IsQuad(f) then 4 else 3;
    var i := 0;
    while i < n
      invariant 0 <= i <= n == |bs|
      invariant state == Index(bs[..i])
    {
      var t := values[f.corners[i]] > iso;
      IndexSnoc(bs[..i], t);
      assert bs[..i + 1] == bs[..i] + [t];
      state := state + (if t then Pow2(i) else 0);
      i := i + 1;
    }
    assert bs[..n] == bs;
  }

  /** Corners a and b of a face lie on opposite sides of iso under the state's bits. */
  predicate Crosses(state: nat, a: nat, b: nat)
  {
    Bit(state, a) != Bit(state, b)
  }

  /**
   * A table entry for a face of n corners and the given state: records of
   * four local corner indices below n, each naming two edges whose ends lie
   * on opposite sides of iso.
   */
  predicate EntryOk(lut: seq<nat>, n: nat, state: nat)
  {
    |lut| % 4 == 0 &&
    (forall q :: 0 <= q < |lut| ==> lut[q] < n) &&
    forall p :: 0 <= p < |lut| && p % 4 == 0 ==> p + 3 < |lut| && RecordCrosses(state, lut, p)
  }

  /** Both edges of the record at position p cross iso under the state's bits. */
  predicate RecordCrosses(state: nat, lut: seq<nat>, p: nat)
    requires p + 3 < |lut|
  {
    Crosses(state, lut[p], lut[p + 1]) && Crosses(state, lut[p + 2], lut[p + 3])
  }

  /** Corners a and b of the face carry values on opposite sides of iso. */
  predicate Apart(values: seq<real>, f: MeshFace, iso: real, a: nat, b: nat)
    requires FaceOk(f, |values|) && a < |f.corners| && b < |f.corners|
  {
    (values[f.corners[a]] > iso) != (values[f.corners[b]] > iso)
  }

  /** An entry the face can walk: records of local corners, each edge crossing iso. */
  predicate Separated(values: seq<real>, f: MeshFace, iso: real, lut: seq<nat>)
  {
    FaceOk(f, |values|) && |lut| % 4 == 0 &&
    (forall q :: 0 <= q < |lut| ==> lut[q] < |f.corners|) &&
    forall p :: 0 <= p < |lut| && p % 4 == 0 ==> p + 3 < |lut| && RecordApart(values, f, iso, lut, p)
  }

  /** Both edges of the record at position p have one end above iso and the other not. */
  predicate RecordApart(values: seq<real>, f: MeshFace, iso: real, lut: seq<nat>, p: nat)
    requires FaceOk(f, |values|) && p + 3 < |lut|
    requires forall q :: 0 <= q < |lut| ==> lut[q] < |f.corners|
  {
    Apart(values, f, iso, lut[p], lut[p + 1]) && Apart(values, f, iso, lut[p + 2], lut[p + 3])
  }

  /** The Triangles table has an entry per triangle state, Quadrangles one per quad state. */
  predicate TablesOk(triangles: seq<seq<nat>>, quadrangles: seq<seq<nat>>)
  {
    |triangles| == 8 && |quadrangles| == 16 &&
    (forall s :: 0 <= s < 8 ==> EntryOk(triangles[s], 3, s)) &&
    (forall s :: 0 <= s < 16 ==> EntryOk(quadrangles[s], 4, s))
  }

  /**
   * The table entry of a face (line 52): the quad table for a quad, the
   * triangle table otherwise; each of its edges has one end above iso and
   * the other not, so the divisions of lines 59-60 are by non-zero numbers.
   */
  function Lut(triangles: seq<seq<nat>>, quadrangles: seq<seq<nat>>, values: seq<real>, f: MeshFace, iso: real): (lut: seq<nat>)
    requires TablesOk(triangles, quadrangles) && FaceOk(f, |values|)
    ensures Separated(values, f, iso, lut)
  {
    var state := State(values, f, iso);
    var lut := if IsQuad(f) then quadrangles[state] else triangles[state];
    EntrySeparated(values, f, iso, lut);
    lut
  }

  /** An entry that is well formed for the face's state has all its edges crossing iso. */
  lemma EntrySeparated(values: seq<real>, f: MeshFace, iso: real, lut: seq<nat>)
    requires FaceOk(f, |values|) && EntryOk(lut, |f.corners|, State(values, f, iso))
    ensures Separated(values, f, iso, lut)
  {
    StateBits(values, f, iso);
    forall p | 0 <= p < |lut| && p % 4 == 0 ensures p + 3 < |lut| && RecordApart(values, f, iso, lut, p) {
      assert RecordCrosses(State(values, f, iso), lut, p);
    }
  }

  /** The point `p0 * (1 - t) + p1 * t` (lines 61-62). */
  function Blend(p0: Point3, p1: Point3, t: real): Point3
  {
    Add(Scale(p0, 1.0 - t), Scale(p1, t))
  }

  /** The fraction along an edge `(iso - v0) / (v1 - v0)` (lines 59-60). */
  function Fraction(iso: real, v0: real, v1: real): real
    requires v0 != v1
  {
    (iso - v0) / (v1 - v0)
  }

  /**
   * On an edge whose ends lie on opposite sides of iso the division is
   * defined, the fraction is in [0, 1], the linear field reaches iso there,
   * and the point is the first end when iso is its value and the second end
   * when iso is the other value.
   */
  lemma EdgePointFacts(p0: Point3, p1: Point3, v0: real, v1: real, iso: real)
    requires (v0 > iso) != (v1 > iso)
    ensures v0 != v1
    ensures 0.0 <= Fraction(iso, v0, v1) <= 1.0
    ensures v0 + (v1 - v0) * Fraction(iso, v0, v1) == iso
    ensures iso == v0 ==> Blend(p0, p1, Fraction(iso, v0, v1)) == p0
    ensures iso == v1 ==> Blend(p0, p1, Fraction(iso, v0, v1)) == p1
  {
    FractionInUnit(iso, v0, v1);
    if iso == v1 {
      assert Fraction(iso, v0, v1) == 1.0;
    }
  }

  /** A line segment `new Line(s, e)`. */
  datatype Segment = Segment(s: Point3, e: Point3)

  /**
   * Everything the record walk needs of one face: one value per vertex of
   * the mesh and an entry whose edges cross iso.
   */
  predicate FaceReady(mesh: InputMesh, values: seq<real>, f: MeshFace, iso: real, lut: seq<nat>)
  {
    |values| == |mesh.vertices| && Separated(values, f, iso, lut)
  }

  /** The end of a segment on the face edge from local corner a to local corner b. */
  function EdgePoint(mesh: InputMesh, values: seq<real>, f: MeshFace, iso: real, a: nat, b: nat): Point3
    requires |values| == |mesh.vertices| && FaceOk(f, |values|)
    requires a < |f.corners| && b < |f.corners| && Apart(values, f, iso, a, b)
  {
    var i0, i1 := f.corners[a], f.corners[b];
    Blend(mesh.vertices[i0], mesh.vertices[i1], Fraction(iso, values[i0], values[i1]))
  }

  /** The segment of the record at position p of the entry (lines 55-63). */
  function Candidate(mesh: InputMesh, values: seq<real>, f: MeshFace, iso: real, lut: seq<nat>, p: nat): Segment
    requires FaceReady(mesh, values, f, iso, lut) && p < |lut| && p % 4 == 0
  {
    Segment(EdgePoint(mesh, values, f, iso, lut[p], lut[p + 1]),
            EdgePoint(mesh, values, f, iso, lut[p + 2], lut[p + 3]))
  }

  /** `line.Length < tolerance`, compared squared: both sides are non-negative. */
  predicate Short(seg: Segment, tol: real)
  {
    DistSq(seg.s, seg.e) < tol * tol
  }

  /** The segment of every record of the entry from position p on. */
  function CandidatesFrom(mesh: InputMesh, values: seq<real>, f: MeshFace, iso: real, lut: seq<nat>, p: nat): (r: seq<Segment>)
    requires FaceReady(mesh, values, f, iso, lut) && p <= |lut| && p % 4 == 0
    ensures |r| * 4 == |lut| - p
    decreases |lut| - p
  {
    if p == |lut| then []
    else
      assert RecordApart(values, f, iso, lut, p) && (p + 4) % 4 == 0;
      [Candidate(mesh, values, f, iso, lut, p)] + CandidatesFrom(mesh, values, f, iso, lut, p + 4)
  }

  /** The segment of every record of the entry. */
  function Candidates(mesh: InputMesh, values: seq<real>, f: MeshFace, iso: real, lut: seq<nat>): (r: seq<Segment>)
    requires FaceReady(mesh, values, f, iso, lut)
    ensures |r| * 4 == |lut|
  {
    CandidatesFrom(mesh, values, f, iso, lut, 0)
  }

  /** Candidate n counted from position p is the record at position p + 4n. */
  lemma {:induction false} CandidatesFromAt(mesh: InputMesh, values: seq<real>, f: MeshFace, iso: real, lut: seq<nat>, p: nat, n: nat)
    requires FaceReady(mesh, values, f, iso, lut) && p + 4 * n < |lut| && p % 4 == 0
    ensures (p + 4 * n) % 4 == 0
    ensures CandidatesFrom(mesh, values, f, iso, lut, p)[n] == Candidate(mesh, values, f, iso, lut, p + 4 * n)
    decreases n
  {
    if n > 0 {
      CandidatesFromAt(mesh, values, f, iso, lut, p + 4, n - 1);
    }
  }

  /** Candidate q of `all` is the segment of the record at position 4q. */
  ghost predicate RecordsAre(all: seq<Segment>, mesh: InputMesh, values: seq<real>, f: MeshFace, iso: real, lut: seq<nat>)
    requires FaceReady(mesh, values, f, iso, lut)
  {
    |all| * 4 == |lut| &&
    forall p {:trigger Candidate(mesh, values, f, iso, lut, p)} :: 0 <= p < |lut| && p % 4 == 0 ==>
      all[p / 4] == Candidate(mesh, values, f, iso, lut, p)
  }

  lemma CandidatesAreRecords(mesh: InputMesh, values: seq<real>, f: MeshFace, iso: real, lut: seq<nat>)
    requires FaceReady(mesh, values, f, iso, lut)
    ensures RecordsAre(Candidates(mesh, values, f, iso, lut), mesh, values, f, iso, lut)
  {
    forall p | 0 <= p < |lut| && p % 4 == 0
      ensures Candidates(mesh, values, f, iso, lut)[p / 4] == Candidate(mesh, values, f, iso, lut, p)
    {
      CandidatesFromAt(mesh, values, f, iso, lut, 0, p / 4);
    }
  }

  /**
   * The segments kept from candidate q on: the first short one ends the
   * face's work (the `return` of line 64), so it and every later one are
   * dropped.
   */
  function KeptFrom(all: seq<Segment>, tol: real, q: nat): seq<Segment>
    requires q <= |all|
    decreases |all| - q
  {
    if q == |all| || Short(all[q], tol) then [] else [all[q]] + KeptFrom(all, tol, q + 1)
  }

  /**
   * The kept segments are the longest run of candidates, from the first,
   * with no short segment: a prefix, none short, and when some are dropped
   * the first dropped one is short.
   */
  lemma {:induction false} KeptIsLongestPrefix(all: seq<Segment>, tol: real, q: nat)
    requires q <= |all|
    ensures var kept := KeptFrom(all, tol, q);
      q + |kept| <= |all| && kept == all[q..q + |kept|] &&
      (forall n :: 0 <= n < |kept| ==> !Short(kept[n], tol)) &&
      (q + |kept| < |all| ==> Short(all[q + |kept|], tol))
    decreases |all| - q
  {
    if q < |all| && !Short(all[q], tol) {
      KeptIsLongestPrefix(all, tol, q + 1);
      var rest := KeptFrom(all, tol, q + 1);
      assert all[q..q + 1 + |rest|] == [all[q]] + all[q + 1..q + 1 + |rest|];
    }
  }

  /** The lines one face adds. */
  function FaceLines(mesh: InputMesh, values: seq<real>, f: MeshFace, iso: real, tol: real, lut: seq<nat>): seq<Segment>
    requires FaceReady(mesh, values, f, iso, lut)
  {
    KeptFrom(Candidates(mesh, values, f, iso, lut), tol, 0)
  }

  /** The shared bag the faces add their lines to. */
  class LineBag {
    var lines: multiset<Segment>

    constructor ()
      ensures lines == multiset{}
    {
      lines := multiset{};
    }

    method Add(seg: Segment)
      modifies this
      ensures lines == old(lines) + multiset{seg}
    {
      lines := lines + multiset{seg};
    }
  }

  /** The body of the face loop (lines 48-66): the state, the entry, and the record walk. */
  method MarchFace(mesh: InputMesh, values: seq<real>, f: MeshFace, iso: real, tol: real,
                   triangles: seq<seq<nat>>, quadrangles: seq<seq<nat>>, bag: LineBag)
    requires TablesOk(triangles, quadrangles) && |values| == |mesh.vertices| && FaceOk(f, |values|)
    modifies bag
    ensures bag.lines == old(bag.lines) +
      multiset(FaceLines(mesh, values, f, iso, tol, Lut(triangles, quadrangles, values, f, iso)))
  {
    var state := FaceState(values, f, iso);
    var lut := if IsQuad(f) then quadrangles[state] else triangles[state];
    assert lut == Lut(triangles, quadrangles, values, f, iso);
    WalkEntry(mesh, values, f, iso, tol, lut, bag);
  }

  /** The facts about one record that the walk uses: local corners, and edges whose values differ. */
  lemma RecordAt(values: seq<real>, f: MeshFace, iso: real, lut: seq<nat>, i: nat)
    requires Separated(values, f, iso, lut) && i < |lut| && i % 4 == 0
    ensures i + 3 < |lut|
    ensures lut[i] < |f.corners| && lut[i + 1] < |f.corners| && lut[i + 2] < |f.corners| && lut[i + 3] < |f.corners|
    ensures values[f.corners[lut[i]]] != values[f.corners[lut[i + 1]]]
    ensures values[f.corners[lut[i + 2]]] != values[f.corners[lut[i + 3]]]
  {
    assert RecordApart(values, f, iso, lut, i);
  }

  /** The segment of the record at position i (lines 55-63). */
  method RecordSegment(mesh: InputMesh, values: seq<real>, f: MeshFace, iso: real, lut: seq<nat>, i: nat)
    returns (line: Segment)
    requires FaceReady(mesh, values, f, iso, lut) && i < |lut| && i % 4 == 0
    ensures line == Candidate(mesh, values, f, iso, lut, i)
  {
    RecordAt(values, f, iso, lut, i);
    var i0, i1, i2, i3 := f.corners[lut[i]], f.corners[lut[i + 1]], f.corners[lut[i + 2]], f.corners[lut[i + 3]];
    var t0 := (iso - values[i0]) / (values[i1] - values[i0]);
    var t1 := (iso - values[i2]) / (values[i3] - values[i2]);
    var s := Blend(mesh.vertices[i0], mesh.vertices[i1], t0);
    var e := Blend(mesh.vertices[i2], mesh.vertices[i3], t1);
    line := Segment(s, e);
  }

  /** The record loop of lines 53-66, consuming the entry four indices at a time. */
  method WalkEntry(mesh: InputMesh, values: seq<real>, f: MeshFace, iso: real, tol: real, lut: seq<nat>, bag: LineBag)
    requires FaceReady(mesh, values, f, iso, lut)
    modifies bag
    ensures bag.lines == old(bag.lines) + multiset(FaceLines(mesh, values, f, iso, tol, lut))
  {
    ghost var all := Candidates(mesh, values, f, iso, lut);
    CandidatesAreRecords(mesh, values, f, iso, lut);
    WalkRecords(mesh, values, f, iso, tol, lut, bag, all);
  }

  /** The record loop over the candidates `all` of the entry. */
  method WalkRecords(mesh: InputMesh, values: seq<real>, f: MeshFace, iso: real, tol: real, lut: seq<nat>, bag: LineBag,
                     ghost all: seq<Segment>)
    requires FaceReady(mesh, values, f, iso, lut) && RecordsAre(all, mesh, values, f, iso, lut)
    modifies bag
    ensures bag.lines == old(bag.lines) + multiset(KeptFrom(all, tol, 0))
  {
    var i := 0;
    ghost var q := 0;
    ghost var kept := [];
    while i < |lut|
      invariant 0 <= q <= |all| && i == 4 * q
      invariant bag.lines == old(bag.lines) + multiset(kept)
      invariant KeptFrom(all, tol, 0) == kept + KeptFrom(all, tol, q)
    {
      var stop := WalkRecord(mesh, values, f, iso, tol, lut, bag, i, all, q);
      KeptStep(all, tol, q, kept);
      if stop {
        return;
      }
      kept := kept + [all[q]];
      i := i + 4;
      q := q + 1;
    }
  }

  /**
   * One pass of the record loop: the record's segment, then either the
   * early return for a short one or its addition to the bag.
   */
  method WalkRecord(mesh: InputMesh, values: seq<real>, f: MeshFace, iso: real, tol: real, lut: seq<nat>, bag: LineBag,
                    i: nat, ghost all: seq<Segment>, ghost q: nat) returns (stop: bool)
    requires FaceReady(mesh, values, f, iso, lut) && RecordsAre(all, mesh, values, f, iso, lut)
    requires q < |all| && i == 4 * q
    modifies bag
    ensures stop == Short(all[q], tol)
    ensures stop ==> bag.lines == old(bag.lines)
    ensures !stop ==> bag.lines == old(bag.lines) + multiset{all[q]}
  {
    assert i % 4 == 0 && i / 4 == q;
    var line := RecordSegment(mesh, values, f, iso, lut, i);
    if Short(line, tol) {
      return true;
    }
    bag.Add(line);
    return false;
  }

  /** One step of the walk: the next candidate is dropped with the rest, or kept. */
  lemma KeptStep(all: seq<Segment>, tol: real, q: nat, kept: seq<Segment>)
    requires q < |all| && KeptFrom(all, tol, 0) == kept + KeptFrom(all, tol, q)
    ensures Short(all[q], tol) ==> KeptFrom(all, tol, 0) == kept
    ensures !Short(all[q], tol) ==> KeptFrom(all, tol, 0) == (kept + [all[q]]) + KeptFrom(all, tol, q + 1)
  {
    if !Short(all[q], tol) {
      assert kept + ([all[q]] + KeptFrom(all, tol, q + 1)) == (kept + [all[q]]) + KeptFrom(all, tol, q + 1);
    } else {
      assert kept + [] == kept;
    }
  }


  /** Everything the face loop shares: the mesh, its vertex values, iso, tolerance and the two tables. */
  datatype Sweep = Sweep(mesh: InputMesh, values: seq<real>, iso: real, tol: real,
                         triangles: seq<seq<nat>>, quadrangles: seq<seq<nat>>)

  predicate SweepOk(w: Sweep)
  {
    TablesOk(w.triangles, w.quadrangles) && |w.values| == |w.mesh.vertices|
  }

  /** Every face of the run names existing vertices. */
  predicate FacesOk(faces: seq<MeshFace>, n: nat)
  {
    forall i :: 0 <= i < |faces| ==> FaceOk(faces[i], n)
  }

  /** What one face adds to the bag. */
  function Contribution(w: Sweep, f: MeshFace): multiset<Segment>
    requires SweepOk(w) && FaceOk(f, |w.values|)
  {
    multiset(FaceLines(w.mesh, w.values, f, w.iso, w.tol, Lut(w.triangles, w.quadrangles, w.values, f, w.iso)))
  }

  /** The contribution of every face of the mesh; other faces contribute nothing. */
  function Contributions(w: Sweep): MeshFace -> multiset<Segment>
    requires SweepOk(w)
  {
    f => if FaceOk(f, |w.values|) then Contribution(w, f) else multiset{}
  }

  /** The bag after the given faces, each adding its contribution. */
  function Gather(contribution: MeshFace -> multiset<Segment>, faces: seq<MeshFace>): multiset<Segment>
  {
    if faces == [] then multiset{}
    else Gather(contribution, faces[..|faces| - 1]) + contribution(faces[|faces| - 1])
  }

  /** Taking any one face out of the run takes out exactly its contribution. */
  lemma {:induction false} GatherRemove(contribution: MeshFace -> multiset<Segment>, b: seq<MeshFace>, j: nat)
    requires j < |b|
    ensures Gather(contribution, b) == Gather(contribution, b[..j] + b[j + 1..]) + contribution(b[j])
    decreases |b|
  {
    var n := |b| - 1;
    if j == n {
      assert b[..j] + b[j + 1..] == b[..n];
    } else {
      var init := b[..n];
      GatherRemove(contribution, init, j);
      var removed := init[..j] + init[j + 1..];
      assert b[..j] + b[j + 1..] == removed + [b[n]];
      assert (removed + [b[n]])[..|removed|] == removed;
      var x, u, v := Gather(contribution, removed), contribution(b[j]), contribution(b[n]);
      assert x + u + v == x + v + u;
    }
  }

  /**
   * The bag does not depend on the order the faces are processed in: any
   * rearrangement of the faces gives the same multiset of lines.
   */
  lemma {:induction false} GatherIgnoresOrder(contribution: MeshFace -> multiset<Segment>, a: seq<MeshFace>, b: seq<MeshFace>)
    requires multiset(a) == multiset(b)
    ensures Gather(contribution, a) == Gather(contribution, b)
    decreases |a|
  {
    if a != [] {
      var last := a[|a| - 1];
      var init := a[..|a| - 1];
      assert a == init + [last];
      assert multiset(a) == multiset(init) + multiset{last};
      assert last in multiset(b);
      var j :| 0 <= j < |b| && b[j] == last;
      var rest := b[..j] + b[j + 1..];
      assert b == b[..j] + [last] + b[j + 1..];
      assert multiset(b) == multiset(b[..j]) + multiset{last} + multiset(b[j + 1..]);
      assert multiset(rest) == multiset(b[..j]) + multiset(b[j + 1..]);
      assert multiset(init) == multiset(a) - multiset{last};
      assert multiset(rest) == multiset(b) - multiset{last};
      GatherIgnoresOrder(contribution, init, rest);
      GatherRemove(contribution, b, j);
    } else {
      assert |multiset(b)| == 0;
    }
  }

  /** The iso value used and the lines gathered. */
  datatype Isocurves = Isocurves(iso: real, lines: multiset<Segment>)

  /**
   * What Process computes: nothing when no target is given and the mesh has
   * no vertex (values.Min() fails on an empty array), otherwise the iso
   * value and the lines of every face.
   */
  function Contour(mesh: InputMesh, field: Point3 -> real, target: Option<real>, tolerance: real,
                   triangles: seq<seq<nat>>, quadrangles: seq<seq<nat>>): (r: Option<Isocurves>)
    requires TablesOk(triangles, quadrangles) && MeshOk(mesh)
    ensures r.None? <==> target.None? && |mesh.vertices| == 0
    ensures r.Some? && target.Some? ==> r.value.iso == target.value
    ensures r.Some? && target.None? ==>
      var values := VertexValues(mesh.vertices, field);
      MinOf(values) <= r.value.iso <= MaxOf(values)
  {
    var values := VertexValues(mesh.vertices, field);
    if target.None? && |values| == 0 then None
    else
      var iso := if target.Some? then target.value else MidRange(values);
      Some(Isocurves(iso, Gather(Contributions(Sweep(mesh, values, iso, Rectify(tolerance), triangles, quadrangles)), mesh.faces)))
  }

  /** Process: evaluate the field per vertex, pick the iso value, and march every face into one bag. */
  method Process(mesh: InputMesh, field: Point3 -> real, target: Option<real>, tolerance: real,
                 triangles: seq<seq<nat>>, quadrangles: seq<seq<nat>>) returns (r: Option<Isocurves>)
    requires TablesOk(triangles, quadrangles) && MeshOk(mesh)
    ensures r == Contour(mesh, field, target, tolerance, triangles, quadrangles)
  {
    var tol := Rectify(tolerance);
    var values := VertexValues(mesh.vertices, field);
    var iso: real;
    if target.Some? {
      iso := target.value;
    } else {
      if |values| == 0 {
        return None;
      }
      iso := MidRange(values);
    }
    var lines := MarchFaces(Sweep(mesh, values, iso, tol, triangles, quadrangles));
    r := Some(Isocurves(iso, lines));
  }

  /** The face loop of lines 46-67: every face adds its lines to one fresh bag. */
  method MarchFaces(w: Sweep) returns (lines: multiset<Segment>)
    requires SweepOk(w) && MeshOk(w.mesh)
    ensures lines == Gather(Contributions(w), w.mesh.faces)
  {
    var bag := new LineBag();
    var faces := w.mesh.faces;
    var n := 0;
    while n < |faces|
      invariant 0 <= n <= |faces|
      invariant bag.lines == Gather(Contributions(w), faces[..n])
    {
      var f := faces[n];
      assert faces[..n + 1][..n] == faces[..n] && faces[..n + 1][n] == f;
      MarchFace(w.mesh, w.values, f, w.iso, w.tol, w.triangles, w.quadrangles, bag);
      n := n + 1;
    }
    assert faces[..n] == faces;
    lines := bag.lines;
  }

  /**
   * A face adds no more lines than its entry has records, and every line it
   * adds is at least as long as the tolerance.
   */
  lemma FaceLinesBounded(mesh: InputMesh, values: seq<real>, f: MeshFace, iso: real, tol: real,
                         triangles: seq<seq<nat>>, quadrangles: seq<seq<nat>>)
    requires TablesOk(triangles, quadrangles) && |values| == |mesh.vertices| && FaceOk(f, |values|)
    ensures var lut := Lut(triangles, quadrangles, values, f, iso);
      var kept := FaceLines(mesh, values, f, iso, tol, lut);
      |kept| * 4 <= |lut| && forall seg :: seg in kept ==> !Short(seg, tol)
  {
    var lut := Lut(triangles, quadrangles, values, f, iso);
    KeptIsLongestPrefix(Candidates(mesh, values, f, iso, lut), tol, 0);
  }
}
