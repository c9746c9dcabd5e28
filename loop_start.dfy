/**
 * LoopStartComponent (LoopStartComponent.cs): inputs Iterations, then the
 * data streams D0, D1, ...; outputs ">" (the link to the loop end), Counter,
 * then the same data streams. Input k >= 1 and output k + 1 carry one stream:
 * creating, removing and renaming a port acts on both ports of its stream.
 */
module LoopStart {
  import opened Wrappers
  import opened Ports
  import opened DataTree

  /** The lists AddInputs and AddOutputs build (lines 40-52). */
  function Initial(): (l: Params)
    ensures Paired(l)
  {
    Params([Port("Iterations", "", "I", false), Port("Data", "", "D0", true)],
           [Port(">", "", ">", false), Port("Counter", "", "C", false), Port("Data", "", "D0", false)])
  }

  /** One output more than inputs, and at least one data stream. */
  predicate Paired(l: Params)
  {
    |l.inputs| >= 2 && |l.outputs| == |l.inputs| + 1
  }

  /** CanCreateParameter (lines 53-57): Iterations, ">" and Counter stay first. */
  predicate CanCreate(at: Slot)
  {
    if at.side == Input then at.index > 0 else at.index > 2
  }

  /** CanRemoveParameter (lines 59-64): the last data stream stays. */
  predicate CanRemove(l: Params, at: Slot)
  {
    if at.side == Input then |l.inputs| > 2 && at.index > 0 else |l.outputs| > 3 && at.index > 1
  }

  /** The input of the stream an operation at `at` acts on (lines 68 and 75); its output is the next index. */
  function InputIndex(at: Slot): int
  {
    if at.side == Input then at.index else at.index - 1
  }

  /**
   * DoCreateParameter (lines 66-72): a blank stream is inserted, and every
   * old stream, Iterations/Counter included, moves as a pair: input k and
   * output k + 1 go to Shift(k, i) and Shift(k + 1, i + 1), which are again
   * one apart.
   */
  function Created(l: Params, at: Slot): (r: Params)
    requires Paired(l) && Insertable(l, at) && CanCreate(at)
    ensures Paired(r) && |r.inputs| == |l.inputs| + 1
    ensures var i := InputIndex(at); 1 <= i && r.inputs[i] == Blank && r.outputs[i + 1] == Blank
    ensures r.outputs[0] == l.outputs[0]
    ensures forall k :: 0 <= k < |l.inputs| ==> r.inputs[Shift(k, InputIndex(at))] == l.inputs[k]
    ensures forall k :: 0 <= k < |l.outputs| ==> r.outputs[Shift(k, InputIndex(at) + 1)] == l.outputs[k]
  {
    var i := InputIndex(at);
    Params(Insert(l.inputs, i, Blank), Insert(l.outputs, i + 1, Blank))
  }

  /**
   * DoRemoveParameter (lines 73-79): one data stream goes, both of its
   * ports, and the others close up as pairs.
   */
  function Removed(l: Params, at: Slot): (r: Params)
    requires Paired(l) && Exists(l, at) && CanRemove(l, at)
    ensures Paired(r) && |r.inputs| == |l.inputs| - 1
    ensures 1 <= InputIndex(at) < |l.inputs|
    ensures r.outputs[0] == l.outputs[0]
    ensures forall k :: 0 <= k < |r.inputs| ==> r.inputs[k] == l.inputs[Shift(k, InputIndex(at))]
    ensures forall k :: 0 <= k < |r.outputs| ==> r.outputs[k] == l.outputs[Shift(k, InputIndex(at) + 1)]
  {
    var i := InputIndex(at);
    Params(Remove(l.inputs, i), Remove(l.outputs, i + 1))
  }

  /** A stream just created may be removed again, which restores the lists. */
  lemma CreateThenRemove(l: Params, at: Slot)
    requires Paired(l) && Insertable(l, at) && CanCreate(at)
    ensures Exists(Created(l, at), at) && CanRemove(Created(l, at), at)
    ensures Removed(Created(l, at), at) == l
  {
    var i := InputIndex(at);
    RemoveInsert(l.inputs, i, Blank);
    RemoveInsert(l.outputs, i + 1, Blank);
  }

  /**
   * Creating a stream where one was removed gives the old lists back, with
   * that stream's two ports blank.
   */
  lemma RemoveThenCreate(l: Params, at: Slot)
    requires Paired(l) && Exists(l, at) && CanRemove(l, at) && CanCreate(at)
    ensures Insertable(Removed(l, at), at)
    ensures var i := InputIndex(at);
      Created(Removed(l, at), at) == Params(l.inputs[i := Blank], l.outputs[i + 1 := Blank])
  {
    var i := InputIndex(at);
    InsertRemove(l.inputs, i, Blank);
    InsertRemove(l.outputs, i + 1, Blank);
  }

  /**
   * The removal guards of the two ports of a stream agree. The creation
   * guards agree except at the first data stream: a stream may be inserted
   * before D0 from the input side (input 1) but not from the output side
   * (output 2).
   */
  lemma GuardsOfPartners(l: Params, k: int)
    requires Paired(l)
    ensures CanRemove(l, Slot(Input, k)) <==> CanRemove(l, Slot(Output, k + 1))
    ensures CanCreate(Slot(Output, k + 1)) ==> CanCreate(Slot(Input, k))
    ensures CanCreate(Slot(Input, k)) && !CanCreate(Slot(Output, k + 1)) <==> k == 1
  {
  }

  /** ParametersOnParameterRenamed (lines 27-38): the port whose user name is copied to. */
  function Partner(at: Slot): (r: Option<Slot>)
    ensures r.Some? ==> r.value.side != at.side
  {
    if at.side == Input && at.index > 0 then Some(Slot(Output, at.index + 1))
    else if at.side == Output && at.index > 1 then Some(Slot(Input, at.index - 1))
    else None
  }

  /** The two maps are inverse on the data streams; Iterations, ">" and Counter have no partner. */
  lemma PartnerInverse(at: Slot)
    ensures Partner(at).Some? ==> Partner(Partner(at).value) == Some(at)
    ensures Partner(at).None? <==> at.index <= (if at.side == Input then 0 else 1)
  {
  }

  /** The lists after the rename handler ran for the port at `at`. */
  function Renamed(l: Params, at: Slot): Result<Params, Slot>
    requires Exists(l, at)
  {
    Mirror(l, at, Partner(at))
  }

  /**
   * On paired lists the handler never asks for a port that is not there,
   * and a rename event for the partner it renamed changes nothing more.
   */
  lemma RenameSettles(l: Params, at: Slot)
    requires Paired(l) && Exists(l, at)
    ensures Renamed(l, at).Ok?
    ensures var r := Renamed(l, at).value;
      Partner(at).Some? ==> Exists(r, Partner(at).value) && Renamed(r, Partner(at).value) == Ok(r)
  {
    var r := Renamed(l, at).value;
    if Partner(at).Some? {
      var p := Partner(at).value;
      PartnerInverse(at);
      assert PortAt(r, at) == PortAt(l, at);
      assert WithUserName(r, at, PortAt(r, p).userName) == r;
    }
  }

  /** A data input named for stream n: "Data", fallback `D{n}`, may be missing (lines 84-88). */
  function DataInput(p: Port, n: nat): Port
  {
    p.(name := "Data", fallbackName := Numbered('D', n), optional := true)
  }

  /** A data output named for stream n (lines 92-95). */
  function DataOutput(p: Port, n: nat): Port
  {
    p.(name := "Data", fallbackName := Numbered('D', n))
  }

  /**
   * VariableParameterMaintenance as written (lines 80-97): the loops start
   * at input 2 and output 3, past the first data stream.
   */
  function MaintainedAsWritten(l: Params): (r: Params)
    ensures |r.inputs| == |l.inputs| && |r.outputs| == |l.outputs|
    ensures Paired(l) ==> Paired(r)
    ensures forall k :: 0 <= k < 2 && k < |l.inputs| ==> r.inputs[k] == l.inputs[k]
    ensures forall k :: 2 <= k < |l.inputs| ==> r.inputs[k] == DataInput(l.inputs[k], k - 1)
    ensures forall k :: 0 <= k < 3 && k < |l.outputs| ==> r.outputs[k] == l.outputs[k]
    ensures forall k :: 3 <= k < |l.outputs| ==> r.outputs[k] == DataOutput(l.outputs[k], k - 2)
  {
    Params(seq(|l.inputs|, k requires 0 <= k < |l.inputs| => if k >= 2 then DataInput(l.inputs[k], k - 1) else l.inputs[k]),
           seq(|l.outputs|, k requires 0 <= k < |l.outputs| => if k >= 3 then DataOutput(l.outputs[k], k - 2) else l.outputs[k]))
  }

  /**
   * A stream inserted before D0 from the input side is never named by the
   * maintenance as written: its input keeps an empty fallback name and is
   * not marked as one that may be missing.
   */
  lemma MaintenanceSkipsFirstStream()
    ensures Insertable(Initial(), Slot(Input, 1)) && CanCreate(Slot(Input, 1))
    ensures var r := MaintainedAsWritten(Created(Initial(), Slot(Input, 1)));
      |r.inputs| == 3 && r.inputs[1].fallbackName == "" && !r.inputs[1].optional
  {
  }

  /** The maintenance with loops from input 1 and output 2, the first data stream. */
  function Maintained(l: Params): (r: Params)
    requires Paired(l)
    ensures Paired(r) && |r.inputs| == |l.inputs|
    ensures r.inputs[0] == l.inputs[0] && r.outputs[..2] == l.outputs[..2]
    ensures forall k :: 1 <= k < |l.inputs| ==>
      r.inputs[k] == DataInput(l.inputs[k], k - 1) && r.outputs[k + 1] == DataOutput(l.outputs[k + 1], k - 1)
  {
    Params(seq(|l.inputs|, k requires 0 <= k < |l.inputs| => if k >= 1 then DataInput(l.inputs[k], k - 1) else l.inputs[k]),
           seq(|l.outputs|, k requires 0 <= k < |l.outputs| => if k >= 2 then DataOutput(l.outputs[k], k - 2) else l.outputs[k]))
  }

  /**
   * The maintenance as written does what the corrected one does, except on
   * the first data stream (input 1, output 2), whose ports it leaves as they
   * were.
   */
  lemma AsWrittenSkipsOnlyFirstStream(l: Params)
    requires Paired(l)
    ensures var m := Maintained(l);
      MaintainedAsWritten(l) == Params(m.inputs[1 := l.inputs[1]], m.outputs[2 := l.outputs[2]])
  {
    var m, r := Maintained(l), MaintainedAsWritten(l);
    assert r.inputs == m.inputs[1 := l.inputs[1]];
    assert r.outputs == m.outputs[2 := l.outputs[2]];
  }

  /**
   * After maintenance both ports of a stream show its number, keep their
   * user names, no two streams share a fallback name, and running it again
   * changes nothing.
   */
  lemma MaintainedNamesStreams(l: Params)
    requires Paired(l)
    ensures var r := Maintained(l);
      (forall k :: 1 <= k < |l.inputs| ==>
        r.inputs[k].fallbackName == r.outputs[k + 1].fallbackName == Numbered('D', k - 1) &&
        r.inputs[k].userName == l.inputs[k].userName && r.outputs[k + 1].userName == l.outputs[k + 1].userName &&
        r.inputs[k].optional) &&
      (forall j, k :: 1 <= j < k < |l.inputs| ==> r.inputs[j].fallbackName != r.inputs[k].fallbackName) &&
      Maintained(r) == r
  {
    var r := Maintained(l);
    forall j, k | 1 <= j < k < |l.inputs|
      ensures r.inputs[j].fallbackName != r.inputs[k].fallbackName
    {
      NumberedInjective('D', j - 1, k - 1);
    }
    assert Maintained(r).inputs == r.inputs;
    assert Maintained(r).outputs == r.outputs;
  }

  /** What Process writes: the counter to output 1 and stream k to output k + 2. */
  datatype Written = Written(counter: int, trees: seq<Tree>)

  /**
   * The writing part of Process (lines 107-109): `Trees[i - 2]` to each
   * output i >= 2, then Count. Trees never assigned (null) or shorter than the
   * streams make the loop throw, reported as None.
   */
  function Forwarded(trees: Option<seq<Tree>>, count: int, outputs: nat): (r: Option<Written>)
    ensures r.Some? <==> outputs <= 2 || (trees.Some? && outputs - 2 <= |trees.value|)
    ensures r.Some? ==> r.value.counter == count && |r.value.trees| == if outputs <= 2 then 0 else outputs - 2
    ensures r.Some? ==> forall k :: 0 <= k < |r.value.trees| ==> r.value.trees[k] == trees.value[k]
  {
    if outputs <= 2 then Some(Written(count, []))
    else if trees.Some? && outputs - 2 <= |trees.value| then Some(Written(count, trees.value[..outputs - 2]))
    else None
  }

  /** When the trees were just read from the inputs, output k + 1 passes on the tree of its partner input k. */
  lemma ActiveForwardsStreams(l: Params, data: seq<Tree>, count: int)
    requires Paired(l) && |data| == |l.inputs| - 1
    ensures Forwarded(Some(data), count, |l.outputs|) == Some(Written(count, data))
  {
    assert data[..|l.outputs| - 2] == data;
  }

  class LoopStartComponent {
    var inputs: seq<Port>
    var outputs: seq<Port>
    /** I: the Iterations input of the latest solution. */
    var iterations: int
    /** Count: the passes made so far; the loop end advances it. */
    var count: int
    /** Trees: the data the loop starts from, None until first assigned. */
    var trees: Option<seq<Tree>>

    function Params(): Params
      reads this
    {
      Ports.Params(inputs, outputs)
    }

    constructor ()
      ensures Params() == Initial() && iterations == 0 && count == 0 && trees == None
    {
      inputs, outputs := Initial().inputs, Initial().outputs;
      iterations, count, trees := 0, 0, None;
    }

    method DoCreateParameter(at: Slot)
      requires Paired(Params()) && Insertable(Params(), at) && CanCreate(at)
      modifies this
      ensures Params() == Created(old(Params()), at)
      ensures iterations == old(iterations) && count == old(count) && trees == old(trees)
    {
      var i := InputIndex(at);
      inputs := Insert(inputs, i, Blank);
      outputs := Insert(outputs, i + 1, Blank);
    }

    method DoRemoveParameter(at: Slot)
      requires Paired(Params()) && Exists(Params(), at) && CanRemove(Params(), at)
      modifies this
      ensures Params() == Removed(old(Params()), at)
      ensures iterations == old(iterations) && count == old(count) && trees == old(trees)
    {
      var i := InputIndex(at);
      inputs := Remove(inputs, i);
      outputs := Remove(outputs, i + 1);
    }

    /** The rename handler; Some(slot) when it asks for a port that is not there. */
    method ParametersOnParameterRenamed(at: Slot) returns (failure: Option<Slot>)
      requires Exists(Params(), at)
      modifies this
      ensures Renamed(old(Params()), at).Ok? ==> failure == None && Params() == Renamed(old(Params()), at).value
      ensures Renamed(old(Params()), at).Err? ==> failure == Some(Renamed(old(Params()), at).error) && Params() == old(Params())
      ensures iterations == old(iterations) && count == old(count) && trees == old(trees)
    {
      var name := PortAt(Params(), at).userName;
      failure := None;
      if at.side == Input && at.index > 0 {
        if at.index + 1 < |outputs| {
          outputs := outputs[at.index + 1 := outputs[at.index + 1].(userName := name)];
        } else {
          failure := Some(Slot(Output, at.index + 1));
        }
      } else if at.side == Output && at.index > 1 {
        if at.index - 1 < |inputs| {
          inputs := inputs[at.index - 1 := inputs[at.index - 1].(userName := name)];
        } else {
          failure := Some(Slot(Input, at.index - 1));
        }
      }
    }

    /**
     * VariableParameterMaintenance as the component runs it (lines 80-97):
     * the input loop from 2, the output loop from 3.
     */
    method VariableParameterMaintenance()
      requires Paired(Params())
      modifies this
      ensures Params() == MaintainedAsWritten(old(Params()))
      ensures iterations == old(iterations) && count == old(count) && trees == old(trees)
    {
      ghost var l := Params();
      var i := 2;
      while i < |inputs|
        invariant 2 <= i <= |inputs| == |l.inputs| && outputs == l.outputs
        invariant iterations == old(iterations) && count == old(count) && trees == old(trees)
        invariant forall k :: 0 <= k < |inputs| ==> inputs[k] == if 2 <= k < i then DataInput(l.inputs[k], k - 1) else l.inputs[k]
      {
        inputs := inputs[i := DataInput(inputs[i], i - 1)];
        i := i + 1;
      }
      i := 3;
      while i < |outputs|
        invariant 3 <= i <= |outputs| == |l.outputs| && inputs == MaintainedAsWritten(l).inputs
        invariant iterations == old(iterations) && count == old(count) && trees == old(trees)
        invariant forall k :: 0 <= k < |outputs| ==> outputs[k] == if 3 <= k < i then DataOutput(l.outputs[k], k - 2) else l.outputs[k]
      {
        outputs := outputs[i := DataOutput(outputs[i], i - 2)];
        i := i + 1;
      }
    }

    /**
     * Process (lines 98-110): read I; in the active document read the trees
     * of the data inputs (`data[k]` is input k + 1); then forward.
     */
    method Process(iterationsIn: int, data: seq<Tree>, active: bool) returns (r: Option<Written>)
      requires Paired(Params()) && |data| == |inputs| - 1
      modifies this
      ensures iterations == iterationsIn
      ensures trees == if active then Some(data) else old(trees)
      ensures r == Forwarded(trees, count, |outputs|)
      ensures Params() == old(Params()) && count == old(count)
    {
      iterations := iterationsIn;
      if active {
        var read: seq<Tree> := [];
        var i := 1;
        while i < |inputs|
          invariant 1 <= i <= |inputs| && read == data[..i - 1]
        {
          read := read + [data[i - 1]];
          i := i + 1;
        }
        assert read == data;
        trees := Some(read);
      }
      var written: seq<Tree> := [];
      var i := 2;
      while i < |outputs|
        invariant 2 <= i <= |outputs| && |written| == i - 2 && |outputs| >= 3
        invariant |written| > 0 ==> trees.Some? && |written| <= |trees.value|
        invariant forall k :: 0 <= k < |written| ==> trees.Some? && k < |trees.value| && written[k] == trees.value[k]
      {
        if trees.None? || i - 2 >= |trees.value| {
          return None;
        }
        written := written + [trees.value[i - 2]];
        i := i + 1;
      }
      assert written == trees.value[..|outputs| - 2];
      r := Some(Written(count, written));
    }
  }
}
