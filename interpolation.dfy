/**
 * Edge interpolation (Interpolate, MarchingCubesComponent.cs:110-115): the
 * point on the edge p0-p1 where the linearly interpolated field reaches
 * `iso`, computed from the lesser endpoint under the point order, or that
 * endpoint itself when the two values are within `tol` of each other.
 */
module Interpolation {
  import opened Geometry

  function Abs(r: real): real
  {
    if r < 0.0 then -r else r
  }

  function Interpolate(iso: real, p0: Point3, p1: Point3, v0: real, v1: real, tol: real): Point3
    requires tol >= 0.0
  {
    var swap := Less(p1, p0);
    var q, o := if swap then p1 else p0, if swap then p0 else p1;
    var vq, vo := if swap then v1 else v0, if swap then v0 else v1;
    if Abs(vo - vq) > tol then Add(q, Scale(Sub(o, q), (iso - vq) / (vo - vq))) else q
  }

  /** The endpoint the interpolation starts from: the lesser one under the point order. */
  function Lesser(p0: Point3, p1: Point3): Point3
  {
    if Less(p1, p0) then p1 else p0
  }

  /**
   * Swapping the endpoints, values with them, does not change the result:
   * both calls start from the same lesser endpoint. So the two directions in
   * which one edge is met give one point.
   */
  lemma InterpolateSymmetric(iso: real, p0: Point3, p1: Point3, v0: real, v1: real, tol: real)
    requires tol >= 0.0
    ensures Interpolate(iso, p0, p1, v0, v1, tol) == Interpolate(iso, p1, p0, v1, v0, tol)
  {
    LessIsStrictTotalOrder();
    if p0 == p1 && v0 != v1 {
      SameEndpoints(p0, (iso - v0) / (v1 - v0));
      SameEndpoints(p0, (iso - v1) / (v0 - v1));
    }
  }

  lemma SameEndpoints(p: Point3, t: real)
    ensures Add(p, Scale(Sub(p, p), t)) == p
  {
  }

  /** Values within tolerance: the result is the lesser endpoint, with no division. */
  lemma InterpolateSnaps(iso: real, p0: Point3, p1: Point3, v0: real, v1: real, tol: real)
    requires tol >= 0.0 && Abs(v0 - v1) <= tol
    ensures Interpolate(iso, p0, p1, v0, v1, tol) == Lesser(p0, p1)
  {
  }

  /**
   * Values further apart than tolerance, iso between them: the result lies on
   * the segment between the endpoints and the linear field along the edge is
   * exactly `iso` there.
   */
  lemma InterpolateCrossing(iso: real, p0: Point3, p1: Point3, v0: real, v1: real, tol: real)
    requires tol >= 0.0 && Abs(v0 - v1) > tol
    requires v0 <= iso <= v1 || v1 <= iso <= v0
    ensures var r := Interpolate(iso, p0, p1, v0, v1, tol);
      var q, vq, vo := Lesser(p0, p1), (if Less(p1, p0) then v1 else v0), (if Less(p1, p0) then v0 else v1);
      var t := (iso - vq) / (vo - vq);
      0.0 <= t <= 1.0 && r == Lerp(q, if Less(p1, p0) then p0 else p1, t) && vq + (vo - vq) * t == iso
  {
    var vq, vo := (if Less(p1, p0) then v1 else v0), (if Less(p1, p0) then v0 else v1);
    FractionInUnit(iso, vq, vo);
  }

  lemma DivInUnit(n: real, d: real)
    requires 0.0 <= n <= d && d > 0.0
    ensures 0.0 <= n / d <= 1.0
  {
  }

  lemma FractionInUnit(iso: real, a: real, b: real)
    requires a != b && (a <= iso <= b || b <= iso <= a)
    ensures 0.0 <= (iso - a) / (b - a) <= 1.0
    ensures a + (b - a) * ((iso - a) / (b - a)) == iso
  {
    if a < b {
      DivInUnit(iso - a, b - a);
    } else {
      assert (iso - a) / (b - a) == (a - iso) / (a - b);
      DivInUnit(a - iso, a - b);
    }
  }
}
