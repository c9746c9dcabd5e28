/**
 * The small numeric helpers that both extraction components share: the
 * default iso value `(values.Min() + values.Max()) * 0.5`
 * (MarchingCubesComponent.cs:73, MarchingMesh.cs:45) and the tolerance
 * clamp applied before either one runs.
 */
module Range {

  /** The smallest value of a non-empty sequence (LINQ's Min). */
  function MinOf(s: seq<real>): (r: real)
    requires |s| > 0
    ensures r in s
    ensures forall v :: v in s ==> r <= v
  {
    if |s| == 1 then s[0]
    else
      var rest := MinOf(s[1..]);
      assert forall v :: v in s ==> v == s[0] || v in s[1..];
      if s[0] <= rest then s[0] else rest
  }

  /** The largest value of a non-empty sequence (LINQ's Max). */
  function MaxOf(s: seq<real>): (r: real)
    requires |s| > 0
    ensures r in s
    ensures forall v :: v in s ==> v <= r
  {
    if |s| == 1 then s[0]
    else
      var rest := MaxOf(s[1..]);
      assert forall v :: v in s ==> v == s[0] || v in s[1..];
      if s[0] >= rest then s[0] else rest
  }

  /** The centre of the sampled range: it lies between the smallest and the largest value. */
  function MidRange(s: seq<real>): (r: real)
    requires |s| > 0
    ensures MinOf(s) <= r <= MaxOf(s)
    ensures exists v :: v in s && v <= r
    ensures exists v :: v in s && r <= v
  {
    (MinOf(s) + MaxOf(s)) * 0.5
  }

  /**
   * The tolerance after RectifyNonNegative: a negative tolerance is taken as
   * zero, any other one is kept.
   */
  function Rectify(t: real): (r: real)
    ensures r >= 0.0
    ensures t >= 0.0 ==> r == t
    ensures t < 0.0 ==> r == 0.0
  {
    if t < 0.0 then 0.0 else t
  }
}
