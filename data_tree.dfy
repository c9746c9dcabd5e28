/**
 * Data trees as the loop components pass them on: a list of branches, each
 * an integer path with the items stored there. Recording a loop pass puts
 * the pass number in front of every path (`ModifyPaths` with
 * `PrependElement`, LoopEndComponent.cs:195 and 206) and adds the branches to
 * the recorded tree one by one (`Tree.Add`, lines 207-208).
 */
module DataTree {

  /** A data item; the model only needs to tell items apart. */
  datatype Item = Item(id: nat)

  datatype Branch = Branch(path: seq<int>, twig: seq<Item>)

  datatype Tree = Tree(branches: seq<Branch>)

  /** No two branches of the tree share a path, as in every tree the host builds. */
  predicate Distinct(t: Tree)
  {
    forall j, k :: 0 <= j < k < |t.branches| ==> t.branches[j].path != t.branches[k].path
  }

  predicate Holds(t: Tree, path: seq<int>)
  {
    exists j :: 0 <= j < |t.branches| && t.branches[j].path == path
  }

  /** Every path starts with a pass number between lo and hi. */
  predicate Labelled(t: Tree, lo: int, hi: int)
  {
    forall j :: 0 <= j < |t.branches| ==> |t.branches[j].path| >= 1 && lo <= t.branches[j].path[0] <= hi
  }

  /** `ModifyPaths(null, path => path.PrependElement(c))`. */
  function Prefixed(t: Tree, c: int): (r: Tree)
    ensures |r.branches| == |t.branches| && Labelled(r, c, c)
    ensures forall j :: 0 <= j < |t.branches| ==>
      r.branches[j].path[1..] == t.branches[j].path && r.branches[j].twig == t.branches[j].twig
    ensures Distinct(t) ==> Distinct(r)
  {
    var r := Tree(seq(|t.branches|, j requires 0 <= j < |t.branches| => Branch([c] + t.branches[j].path, t.branches[j].twig)));
    assert forall j :: 0 <= j < |t.branches| ==> r.branches[j].path[1..] == t.branches[j].path;
    r
  }

  /** `t.Add(path, twig)` for a path the tree does not hold yet: the branch goes last. */
  function Add(t: Tree, b: Branch): (r: Tree)
    requires !Holds(t, b.path)
    ensures Holds(r, b.path) && |r.branches| == |t.branches| + 1
    ensures Distinct(t) ==> Distinct(r)
  {
    var r := Tree(t.branches + [b]);
    assert r.branches[|t.branches|] == b;
    r
  }

  /** The branches of t followed by those of u. */
  function Graft(t: Tree, u: Tree): Tree
  {
    Tree(t.branches + u.branches)
  }

  /**
   * Grafting after a tree whose pass numbers are all below c the branches
   * of one pass c keeps the paths distinct and the labels in range.
   */
  lemma GraftLabelled(t: Tree, u: Tree, lo: int, c: int)
    requires lo <= c && Distinct(t) && Distinct(u) && Labelled(t, lo, c - 1) && Labelled(u, c, c)
    ensures Distinct(Graft(t, u)) && Labelled(Graft(t, u), lo, c)
  {
    var r := Graft(t, u);
    forall j, k | 0 <= j < k < |r.branches|
      ensures r.branches[j].path != r.branches[k].path
    {
      if k >= |t.branches| && j < |t.branches| {
        assert r.branches[j].path[0] < c == r.branches[k].path[0];
      }
    }
  }

  /**
   * Lines 207-208: add the branches of u to t one at a time. With the pass
   * numbers apart no path is added twice, so no `Add` meets a path it
   * already holds.
   */
  method AddAll(t: Tree, u: Tree, lo: int, c: int) returns (r: Tree)
    requires Distinct(t) && Distinct(u) && Labelled(t, lo, c - 1) && Labelled(u, c, c)
    ensures r == Graft(t, u)
  {
    r := t;
    var j := 0;
    while j < |u.branches|
      invariant 0 <= j <= |u.branches|
      invariant r == Tree(t.branches + u.branches[..j])
      invariant Distinct(r)
    {
      var b := u.branches[j];
      forall k | 0 <= k < |r.branches|
        ensures r.branches[k].path != b.path
      {
        if k < |t.branches| {
          assert r.branches[k].path[0] < c;
        } else {
          assert r.branches[k] == u.branches[k - |t.branches|];
        }
      }
      r := Add(r, b);
      assert u.branches[..j + 1] == u.branches[..j] + [b];
      j := j + 1;
    }
    assert u.branches[..j] == u.branches;
  }
}
