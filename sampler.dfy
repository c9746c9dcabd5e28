/**
 * The sampling loop of MarchingCubesComponent.Process
 * (MarchingCubesComponent.cs:54-72), run sequentially: the parallel loop
 * over x-slices writes disjoint slots, so its effect is that of this loop.
 */
module Sampler {
  import opened Geometry
  import opened Lattice

  /**
   * The value stored for lattice point (i, j, k): zero on the outer layer
   * when `close` is set, otherwise the field at the sample point.
   */
  function SampleValue(i: int, j: int, k: int, x: int, y: int, z: int, close: bool,
                       pointAt: (int, int, int) -> Point3, field: Point3 -> real): real
  {
    if close && OnBoundary(i, j, k, x, y, z) then 0.0 else field(pointAt(i, j, k))
  }

  /** Lattice points (i', j', k') already visited when the loops stand at (i, j, k). */
  predicate Before(c: (int, int, int), i: int, j: int, k: int)
  {
    c.0 < i || (c.0 == i && (c.1 < j || (c.1 == j && c.2 < k)))
  }

  /** Every slot whose lattice point the loops have passed holds its sample. */
  predicate SampledBefore(pts: array<Point3>, values: array<real>, x: int, y: int, z: int, close: bool,
                          pointAt: (int, int, int) -> Point3, field: Point3 -> real, i: int, j: int, k: int)
    reads pts, values
  {
    x > 0 && y > 0 && z > 0 && pts.Length == x * y * z && values.Length == x * y * z &&
    forall s :: 0 <= s < x * y * z ==>
      var c := Coords(s, x, y, z);
      Before(c, i, j, k) ==>
        values[s] == SampleValue(c.0, c.1, c.2, x, y, z, close, pointAt, field) &&
        pts[s] == pointAt(c.0, c.1, c.2)
  }

  /** The body of the k loop (lines 62-70): sample lattice point (i, j, k) into its slot. */
  method SamplePoint(pts: array<Point3>, values: array<real>, x: int, y: int, z: int, close: bool,
                     pointAt: (int, int, int) -> Point3, field: Point3 -> real, i: int, j: int, k: int)
    requires SampledBefore(pts, values, x, y, z, close, pointAt, field, i, j, k)
    requires InLattice(i, j, k, x, y, z)
    modifies pts, values
    ensures SampledBefore(pts, values, x, y, z, close, pointAt, field, i, j, k + 1)
  {
    var index := i + j * x + k * x * y;
    SlotCoordsRoundTrip(i, j, k, x, y, z);
    var pt := pointAt(i, j, k);
    if close && (i == 0 || j == 0 || k == 0 || i == x - 1 || j == y - 1 || k == z - 1) {
      values[index] := 0.0;
    } else {
      values[index] := field(pt);
    }
    pts[index] := pt;
  }

  /** The k loop: the column (i, j, 0 .. z-1). */
  method SampleColumn(pts: array<Point3>, values: array<real>, x: int, y: int, z: int, close: bool,
                      pointAt: (int, int, int) -> Point3, field: Point3 -> real, i: int, j: int)
    requires SampledBefore(pts, values, x, y, z, close, pointAt, field, i, j, 0)
    requires 0 <= i < x && 0 <= j < y
    modifies pts, values
    ensures SampledBefore(pts, values, x, y, z, close, pointAt, field, i, j + 1, 0)
  {
    var k := 0;
    while k < z
      invariant 0 <= k <= z
      invariant SampledBefore(pts, values, x, y, z, close, pointAt, field, i, j, k)
    {
      SamplePoint(pts, values, x, y, z, close, pointAt, field, i, j, k);
      k := k + 1;
    }
  }

  /** The j loop: the layer (i, 0 .. y-1, 0 .. z-1). */
  method SampleLayer(pts: array<Point3>, values: array<real>, x: int, y: int, z: int, close: bool,
                     pointAt: (int, int, int) -> Point3, field: Point3 -> real, i: int)
    requires SampledBefore(pts, values, x, y, z, close, pointAt, field, i, 0, 0)
    requires 0 <= i < x
    modifies pts, values
    ensures SampledBefore(pts, values, x, y, z, close, pointAt, field, i + 1, 0, 0)
  {
    var j := 0;
    while j < y
      invariant 0 <= j <= y
      invariant SampledBefore(pts, values, x, y, z, close, pointAt, field, i, j, 0)
    {
      SampleColumn(pts, values, x, y, z, close, pointAt, field, i, j);
      j := j + 1;
    }
  }

  /**
   * Fill `pts` and `values` over the x*y*z lattice. `pointAt(i, j, k)` stands
   * for box.PointAt(i*width, j*length, k*height) and `field` for the field's
   * ScalarAt. With all three counts positive every slot s holds the sample of
   * the lattice point it belongs to; otherwise no iteration runs and the
   * arrays keep their default contents.
   */
  method Sample(x: int, y: int, z: int, close: bool,
                pointAt: (int, int, int) -> Point3, field: Point3 -> real)
    returns (pts: array<Point3>, values: array<real>)
    requires x * y * z >= 0
    ensures pts.Length == x * y * z && values.Length == x * y * z
    ensures x > 0 && y > 0 && z > 0 ==>
      forall s :: 0 <= s < x * y * z ==>
        var c := Coords(s, x, y, z);
        values[s] == SampleValue(c.0, c.1, c.2, x, y, z, close, pointAt, field) &&
        pts[s] == pointAt(c.0, c.1, c.2)
    ensures !(x > 0 && y > 0 && z > 0) ==>
      forall s :: 0 <= s < x * y * z ==> values[s] == 0.0 && pts[s] == Origin
  {
    var n := x * y * z;
    pts := new Point3[n](_ => Origin);
    values := new real[n](_ => 0.0);
    if !(x > 0 && y > 0 && z > 0) {
      return;
    }
    var i := 0;
    while i < x
      invariant 0 <= i <= x
      invariant SampledBefore(pts, values, x, y, z, close, pointAt, field, i, 0, 0)
    {
      SampleLayer(pts, values, x, y, z, close, pointAt, field, i);
      i := i + 1;
    }
  }

  /**
   * Read back per lattice point: with `close` set every point of the outer
   * layer holds 0 and every other point holds the field's sample.
   */
  lemma SampledAt(x: int, y: int, z: int, close: bool,
                  pointAt: (int, int, int) -> Point3, field: Point3 -> real,
                  values: seq<real>, i: int, j: int, k: int)
    requires InLattice(i, j, k, x, y, z) && |values| == x * y * z
    requires forall s :: 0 <= s < x * y * z ==>
        var c := Coords(s, x, y, z);
        values[s] == SampleValue(c.0, c.1, c.2, x, y, z, close, pointAt, field)
    ensures 0 <= Slot(i, j, k, x, y) < |values|
    ensures close && OnBoundary(i, j, k, x, y, z) ==> values[Slot(i, j, k, x, y)] == 0.0
    ensures !(close && OnBoundary(i, j, k, x, y, z)) ==> values[Slot(i, j, k, x, y)] == field(pointAt(i, j, k))
  {
    SlotCoordsRoundTrip(i, j, k, x, y, z);
  }
}
