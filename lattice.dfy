/**
 * The sampling lattice of MarchingCubesComponent: an x by y by z grid of
 * points stored in flat arrays at slot i + j*x + k*x*y, and the eight-corner
 * layout of one cell (BoxCorners, MarchingCubesComponent.cs:94-109).
 */
module Lattice {

  /** The flat slot of lattice point (i, j, k) (MarchingCubesComponent.cs:64 and 96). */
  function Slot(i: int, j: int, k: int, x: int, y: int): int
  {
    i + j * x + k * x * y
  }

  predicate InLattice(i: int, j: int, k: int, x: int, y: int, z: int)
  {
    0 <= i < x && 0 <= j < y && 0 <= k < z
  }

  /** A lattice point on the outer layer: some coordinate at 0 or at its maximum. */
  predicate OnBoundary(i: int, j: int, k: int, x: int, y: int, z: int)
  {
    i == 0 || j == 0 || k == 0 || i == x - 1 || j == y - 1 || k == z - 1
  }

  lemma DivModOf(a: int, b: int, q: int, r: int)
    requires b > 0 && 0 <= r < b && a == q * b + r
    ensures a / b == q && a % b == r
  {
    var q', r' := a / b, a % b;
    assert a == q' * b + r';
    MulSub(q, q', b);
    assert (q - q') * b == r' - r;
    if q > q' {
      MulAtLeast(q - q', b);
    } else if q < q' {
      MulAtLeast(q' - q, b);
      MulSub(q', q, b);
    }
  }

  lemma MulSub(a: int, c: int, b: int)
    ensures (a - c) * b == a * b - c * b
  {
  }

  lemma MulAtLeast(d: int, b: int)
    requires d >= 1 && b >= 0
    ensures d * b >= b
  {
  }

  lemma MulMono(a: int, a': int, b: int)
    requires a <= a' && b >= 0
    ensures a * b <= a' * b
  {
  }

  lemma MulAssoc(a: int, b: int, c: int)
    ensures a * b * c == a * (b * c) && a * (b * c) == b * c * a && b * c == c * b
  {
  }

  /** The slot written for (i, j, k) is i + x*(j + y*k). */
  lemma SlotNested(i: int, j: int, k: int, x: int, y: int)
    ensures Slot(i, j, k, x, y) == i + x * (j + y * k)
  {
    MulAssoc(k, x, y);
    assert k * x * y == x * (y * k);
  }

  /** a / b stays below c when a does below b * c. */
  lemma DivBelow(a: int, b: int, c: int)
    requires b > 0 && 0 <= a < b * c
    ensures a / b < c
  {
    var q := a / b;
    assert a == q * b + a % b;
    if q >= c {
      MulMono(c, q, b);
    }
  }

  /** The lattice point a slot belongs to. */
  function Coords(s: int, x: int, y: int, z: int): (c: (int, int, int))
    requires x > 0 && y > 0 && z > 0 && 0 <= s < x * y * z
    ensures InLattice(c.0, c.1, c.2, x, y, z)
    ensures Slot(c.0, c.1, c.2, x, y) == s
  {
    var i, r := s % x, s / x;
    var j, k := r % y, r / y;
    CoordsFacts(s, x, y, z);
    (i, j, k)
  }

  lemma CoordsFacts(s: int, x: int, y: int, z: int)
    requires x > 0 && y > 0 && z > 0 && 0 <= s < x * y * z
    ensures var r := s / x;
      0 <= s % x < x && 0 <= r % y < y && 0 <= r / y < z &&
      Slot(s % x, r % y, r / y, x, y) == s
  {
    var i, r := s % x, s / x;
    var j, k := r % y, r / y;
    assert s == r * x + i;
    assert r == k * y + j;
    MulAssoc(x, y, z);
    DivBelow(s, x, y * z);
    DivBelow(r, y, z);
    SlotNested(i, j, k, x, y);
    assert s == i + x * r;
    assert r == j + y * k;
  }

  /**
   * Every lattice point has a slot in [0, x*y*z), and the slot determines the
   * point: the sampling loop writes every slot of `pts` and `values` exactly
   * once (MarchingCubesComponent.cs:54-72).
   */
  lemma {:induction false} SlotCoordsRoundTrip(i: int, j: int, k: int, x: int, y: int, z: int)
    requires InLattice(i, j, k, x, y, z)
    ensures 0 <= Slot(i, j, k, x, y) < x * y * z
    ensures Coords(Slot(i, j, k, x, y), x, y, z) == (i, j, k)
  {
    var s := Slot(i, j, k, x, y);
    SlotNested(i, j, k, x, y);
    var r := j + y * k;
    SlotBelow(i, j, k, x, y, z);
    assert s == r * x + i;
    assert r == k * y + j;
    DivModOf(s, x, r, i);
    DivModOf(r, y, k, j);
  }

  lemma SlotBelow(i: int, j: int, k: int, x: int, y: int, z: int)
    requires InLattice(i, j, k, x, y, z)
    ensures 0 <= j + y * k < y * z
    ensures 0 <= i + x * (j + y * k) < x * y * z
  {
    var r := j + y * k;
    MulMono(0, k, y);
    MulMono(k, z - 1, y);
    MulSub(z, 1, y);
    assert k * y == y * k && (z - 1) * y == y * (z - 1);
    assert r < y * z;
    MulMono(0, r, x);
    MulMono(r, y * z - 1, x);
    MulSub(y * z, 1, x);
    MulAssoc(x, y, z);
    assert r * x == x * r && (y * z - 1) * x == x * (y * z - 1);
  }

  lemma SlotInjective(i: int, j: int, k: int, i': int, j': int, k': int, x: int, y: int, z: int)
    requires InLattice(i, j, k, x, y, z) && InLattice(i', j', k', x, y, z)
    requires Slot(i, j, k, x, y) == Slot(i', j', k', x, y)
    ensures i == i' && j == j' && k == k'
  {
    SlotCoordsRoundTrip(i, j, k, x, y, z);
    SlotCoordsRoundTrip(i', j', k', x, y, z);
  }

  /** Corner c of a cell as offsets (dx, dy, dz) from its first corner. */
  function CornerOffset(c: nat): (d: (int, int, int))
    requires c < 8
  {
    [(0, 0, 0), (1, 0, 0), (1, 1, 0), (0, 1, 0),
     (0, 0, 1), (1, 0, 1), (1, 1, 1), (0, 1, 1)][c]
  }

  /** The eight slots of cell (i, j, k) in the order of MarchingCubesComponent.cs:96-108. */
  function BoxCorners(i: int, j: int, k: int, x: int, y: int): (r: seq<int>)
    ensures |r| == 8
  {
    var first := Slot(i, j, k, x, y);
    var product := x * y;
    [first, first + 1, first + 1 + x, first + x,
     first + product, first + 1 + product, first + 1 + x + product, first + x + product]
  }

  /**
   * For a cell whose far corner is still in the lattice, corner c is the
   * slot of the lattice point at the c-th offset, so the eight slots are in
   * range and pairwise distinct.
   */
  lemma {:induction false} BoxCornersAreCellCorners(i: int, j: int, k: int, x: int, y: int, z: int)
    requires InLattice(i, j, k, x, y, z) && InLattice(i + 1, j + 1, k + 1, x, y, z)
    ensures forall c :: 0 <= c < 8 ==>
      BoxCorners(i, j, k, x, y)[c] ==
        Slot(i + CornerOffset(c).0, j + CornerOffset(c).1, k + CornerOffset(c).2, x, y)
    ensures forall c :: 0 <= c < 8 ==> 0 <= BoxCorners(i, j, k, x, y)[c] < x * y * z
    ensures forall c, c' :: 0 <= c < c' < 8 ==> BoxCorners(i, j, k, x, y)[c] != BoxCorners(i, j, k, x, y)[c']
  {
    var r := BoxCorners(i, j, k, x, y);
    var first, product := Slot(i, j, k, x, y), x * y;
    SlotSteps(i, j, k, x, y);
    MulMono(2, x, y);
    MulMono(2, y, x);
    assert product >= 2 * x;
    SlotBelow(i, j, k, x, y, z);
    SlotNested(i, j, k, x, y);
    SlotBelow(i + 1, j + 1, k + 1, x, y, z);
    SlotNested(i + 1, j + 1, k + 1, x, y);
    assert 0 <= first && first + 1 + x + product < x * y * z;
    assert r == [first, first + 1, first + x + 1, first + x,
                 first + product, first + product + 1, first + product + x + 1, first + product + x];
  }

  /** The eight corner slots of a cell lie in the lattice's storage. */
  lemma BoxCornersInRange(i: int, j: int, k: int, x: int, y: int, z: int)
    requires 0 <= i < x - 1 && 0 <= j < y - 1 && 0 <= k < z - 1
    ensures forall c :: 0 <= c < 8 ==> 0 <= BoxCorners(i, j, k, x, y)[c] < x * y * z
  {
    BoxCornersAreCellCorners(i, j, k, x, y, z);
  }

  /** One step along an axis moves the slot by 1, x or x*y. */
  lemma SlotSteps(i: int, j: int, k: int, x: int, y: int)
    ensures Slot(i + 1, j, k, x, y) == Slot(i, j, k, x, y) + 1
    ensures Slot(i, j + 1, k, x, y) == Slot(i, j, k, x, y) + x
    ensures Slot(i, j, k + 1, x, y) == Slot(i, j, k, x, y) + x * y
  {
    MulSub(j + 1, 1, x);
    MulSub(k + 1, 1, x);
    assert (k + 1) * x * y == k * x * y + x * y;
  }

  /** The twelve cube edges as corner pairs, in the order of MarchingCubesComponent.cs:275-298. */
  function EdgeCorners(e: nat): (r: (nat, nat))
    requires e < 12
    ensures r.0 < 8 && r.1 < 8
  {
    [(0, 1), (1, 2), (2, 3), (3, 0), (4, 5), (5, 6), (6, 7), (7, 4), (0, 4), (1, 5), (2, 6), (3, 7)][e]
  }

  function AbsInt(n: int): nat
  {
    if n < 0 then -n else n
  }

  /** Offsets of two corners that differ by one step along exactly one axis. */
  predicate UnitStep(d: (int, int, int), d': (int, int, int))
  {
    AbsInt(d.0 - d'.0) + AbsInt(d.1 - d'.1) + AbsInt(d.2 - d'.2) == 1
  }

  /** Every edge joins two corners one lattice step apart along exactly one axis. */
  lemma EdgesAreUnitSteps()
    ensures forall e :: 0 <= e < 12 ==> UnitStep(CornerOffset(EdgeCorners(e).0), CornerOffset(EdgeCorners(e).1))
  {
  }

  /** Hence the slots an edge joins differ by 1, x or x*y. */
  lemma {:induction false} EdgeSlotStep(i: int, j: int, k: int, x: int, y: int, z: int, e: nat)
    requires InLattice(i, j, k, x, y, z) && InLattice(i + 1, j + 1, k + 1, x, y, z)
    requires e < 12
    ensures var corners := BoxCorners(i, j, k, x, y);
      var d := AbsInt(corners[EdgeCorners(e).0] - corners[EdgeCorners(e).1]);
      d == 1 || d == x || d == x * y
  {
    MulMono(0, x, y);
    if e == 0 {} else if e == 1 {} else if e == 2 {} else if e == 3 {}
    else if e == 4 {} else if e == 5 {} else if e == 6 {} else if e == 7 {}
    else if e == 8 {} else if e == 9 {} else if e == 10 {} else { assert e == 11; }
  }
}
