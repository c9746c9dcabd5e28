/**
 * Case indices: a sequence of corner tests packed into an integer, test b
 * giving bit b (least significant first). The cube code sets the bits with
 * `|=` (MarchingCubesComponent.cs:263-271), the tetrahedron code likewise
 * (lines 119-123) and the mesh contour code with `+=` (MarchingMesh.cs:49-51);
 * with distinct bits all three build the same number.
 */
module CaseIndex {

  function Pow2(n: nat): (r: nat)
    ensures r >= 1
  {
    if n == 0 then 1 else 2 * Pow2(n - 1)
  }

  /** Bit b of a non-negative integer. */
  predicate Bit(m: nat, b: nat)
  {
    if b == 0 then m % 2 == 1 else Bit(m / 2, b - 1)
  }

  /** The integer whose bit b is set exactly when bs[b] holds. */
  function Index(bs: seq<bool>): (r: nat)
    ensures r < Pow2(|bs|)
  {
    if bs == [] then 0 else (if bs[0] then 1 else 0) + 2 * Index(bs[1..])
  }

  /** Bit b of the case index is the b-th test, and no bit beyond the tests is set. */
  lemma {:induction false} IndexBit(bs: seq<bool>, b: nat)
    ensures Bit(Index(bs), b) <==> (b < |bs| && bs[b])
  {
    if bs == [] {
      ZeroBit(b);
    } else if b > 0 {
      IndexBit(bs[1..], b - 1);
    }
  }

  lemma {:induction false} ZeroBit(b: nat)
    ensures !Bit(0, b)
  {
    if b > 0 {
      ZeroBit(b - 1);
    }
  }

  /** Two test sequences with the same outcome give the same index, and only they. */
  lemma {:induction false} IndexInjective(bs: seq<bool>, cs: seq<bool>)
    requires |bs| == |cs|
    ensures Index(bs) == Index(cs) <==> bs == cs
  {
    if bs != [] {
      IndexInjective(bs[1..], cs[1..]);
      if Index(bs) == Index(cs) {
        assert bs[0] == cs[0];
        assert bs == [bs[0]] + bs[1..];
        assert cs == [cs[0]] + cs[1..];
      }
    }
  }

  predicate AllSame(bs: seq<bool>, v: bool)
  {
    forall b :: 0 <= b < |bs| ==> bs[b] == v
  }

  /** The index is 0 exactly when no test holds and 2^n - 1 exactly when all hold. */
  lemma {:induction false} IndexExtremes(bs: seq<bool>)
    ensures Index(bs) == 0 <==> AllSame(bs, false)
    ensures Index(bs) == Pow2(|bs|) - 1 <==> AllSame(bs, true)
  {
    if bs != [] {
      IndexExtremes(bs[1..]);
      assert AllSame(bs, false) <==> !bs[0] && AllSame(bs[1..], false) by {
        if !bs[0] && AllSame(bs[1..], false) {
          forall b | 0 <= b < |bs| ensures !bs[b] {
            if b > 0 { assert bs[b] == bs[1..][b - 1]; }
          }
        }
      }
      assert AllSame(bs, true) <==> bs[0] && AllSame(bs[1..], true) by {
        if bs[0] && AllSame(bs[1..], true) {
          forall b | 0 <= b < |bs| ensures bs[b] {
            if b > 0 { assert bs[b] == bs[1..][b - 1]; }
          }
        }
      }
    }
  }

  function Negate(bs: seq<bool>): (r: seq<bool>)
    ensures |r| == |bs|
    ensures forall b :: 0 <= b < |bs| ==> r[b] == !bs[b]
  {
    seq(|bs|, b requires 0 <= b < |bs| => !bs[b])
  }

  /** Flipping every test complements the index: case c becomes 2^n - 1 - c. */
  lemma {:induction false} IndexComplement(bs: seq<bool>)
    ensures Index(Negate(bs)) == Pow2(|bs|) - 1 - Index(bs)
  {
    if bs != [] {
      IndexComplement(bs[1..]);
      assert Negate(bs)[1..] == Negate(bs[1..]);
    }
  }

  /** Appending one more test adds its weight: the running `state +=` loop of the mesh code. */
  lemma {:induction false} IndexSnoc(bs: seq<bool>, t: bool)
    ensures Index(bs + [t]) == Index(bs) + (if t then Pow2(|bs|) else 0)
  {
    if bs == [] {
      assert [t][1..] == [];
    } else {
      assert (bs + [t])[1..] == bs[1..] + [t];
      IndexSnoc(bs[1..], t);
    }
  }
}
