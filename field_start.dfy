/**
 * FieldStartComponent (FieldStartComponent.cs): inputs Point, then the
 * values V1, V2, ...; outputs ">" (the link to the field end), Point, then the
 * same values. Input k and output k + 1 carry one stream, Point included.
 */
module FieldStart {
  import opened Wrappers
  import opened Ports
  import opened DataTree
  import Geometry

  /** The lists AddInputs and AddOutputs build (lines 36-44). */
  function Initial(): (l: Params)
    ensures Paired(l)
  {
    Params([Port("Point", "", "Pt", true)],
           [Port(">", "", ">", false), Port("Point", "", "Pt", false)])
  }

  /** One output more than inputs, and the Point stream. */
  predicate Paired(l: Params)
  {
    |l.inputs| >= 1 && |l.outputs| == |l.inputs| + 1
  }

  /** CanCreateParameter (lines 46-50): Point, ">" and the Point output stay first. */
  predicate CanCreate(at: Slot)
  {
    if at.side == Input then at.index > 0 else at.index > 1
  }

  /** CanRemoveParameter (lines 52-57): the Point stream stays. */
  predicate CanRemove(l: Params, at: Slot)
  {
    if at.side == Input then |l.inputs| >= 2 && at.index > 0 else |l.outputs| >= 3 && at.index > 1
  }

  /** The input of the stream an operation at `at` acts on (lines 61 and 68); its output is the next index. */
  function InputIndex(at: Slot): int
  {
    if at.side == Input then at.index else at.index - 1
  }

  /**
   * DoCreateParameter (lines 59-65): a blank stream is inserted and the old
   * streams move as pairs: input k and output k + 1 go to Shift(k, i) and
   * Shift(k + 1, i + 1), which are again one apart.
   */
  function Created(l: Params, at: Slot): (r: Params)
    requires Paired(l) && Insertable(l, at) && CanCreate(at)
    ensures Paired(r) && |r.inputs| == |l.inputs| + 1
    ensures var i := InputIndex(at); 1 <= i && r.inputs[i] == Blank && r.outputs[i + 1] == Blank
    ensures r.outputs[0] == l.outputs[0]
    ensures forall k :: 0 <= k < |l.inputs| ==> r.inputs[Shift(k, InputIndex(at))] == l.inputs[k]
    ensures forall k :: 0 <= k < |l.outputs| ==> r.outputs[Shift(k, InputIndex(at) + 1)] == l.outputs[k]
  {
    var i := InputIndex(at);
    Params(Insert(l.inputs, i, Blank), Insert(l.outputs, i + 1, Blank))
  }

  /** DoRemoveParameter (lines 66-72): one value stream goes, both of its ports. */
  function Removed(l: Params, at: Slot): (r: Params)
    requires Paired(l) && Exists(l, at) && CanRemove(l, at)
    ensures Paired(r) && |r.inputs| == |l.inputs| - 1
    ensures 1 <= InputIndex(at) < |l.inputs|
    ensures r.outputs[0] == l.outputs[0]
    ensures forall k :: 0 <= k < |r.inputs| ==> r.inputs[k] == l.inputs[Shift(k, InputIndex(at))]
    ensures forall k :: 0 <= k < |r.outputs| ==> r.outputs[k] == l.outputs[Shift(k, InputIndex(at) + 1)]
  {
    var i := InputIndex(at);
    Params(Remove(l.inputs, i), Remove(l.outputs, i + 1))
  }

  /** A stream just created may be removed again, which restores the lists. */
  lemma CreateThenRemove(l: Params, at: Slot)
    requires Paired(l) && Insertable(l, at) && CanCreate(at)
    ensures Exists(Created(l, at), at) && CanRemove(Created(l, at), at)
    ensures Removed(Created(l, at), at) == l
  {
    var i := InputIndex(at);
    RemoveInsert(l.inputs, i, Blank);
    RemoveInsert(l.outputs, i + 1, Blank);
  }

  /** Both guards agree on the two ports of a stream. */
  lemma GuardsOfPartners(l: Params, k: int)
    requires Paired(l)
    ensures CanRemove(l, Slot(Input, k)) <==> CanRemove(l, Slot(Output, k + 1))
    ensures CanCreate(Slot(Input, k)) <==> CanCreate(Slot(Output, k + 1))
  {
  }

  /**
   * ParametersOnParameterRenamed as written (lines 29-35): every output
   * copies to input index - 1, the ">" output at index 0 included.
   */
  function PartnerAsWritten(at: Slot): Option<Slot>
  {
    if at.side == Input then Some(Slot(Output, at.index + 1)) else Some(Slot(Input, at.index - 1))
  }

  /** The lists after the rename handler as written ran for the port at `at`. */
  function RenamedAsWritten(l: Params, at: Slot): Result<Params, Slot>
    requires Exists(l, at)
  {
    Mirror(l, at, PartnerAsWritten(at))
  }

  /** Renaming the ">" output makes the handler ask for input -1, and `Parameters.Input(-1)` throws. */
  lemma RenamingLinkFails(l: Params)
    requires Paired(l)
    ensures Exists(l, Slot(Output, 0))
    ensures RenamedAsWritten(l, Slot(Output, 0)) == Err(Slot(Input, -1))
  {
  }

  /** The handler with the output side guarded by index > 0: ">" has no partner. */
  function Partner(at: Slot): (r: Option<Slot>)
    ensures r.Some? ==> r.value.side != at.side
  {
    if at.side == Input then Some(Slot(Output, at.index + 1))
    else if at.index > 0 then Some(Slot(Input, at.index - 1))
    else None
  }

  /** The two maps are inverse on the streams; it differs from the handler as written only at ">". */
  lemma PartnerInverse(at: Slot)
    ensures at.index >= 0 && Partner(at).Some? ==> Partner(Partner(at).value) == Some(at)
    ensures Partner(at).None? <==> at.side == Output && at.index <= 0
    ensures at != Slot(Output, 0) && at.index >= 0 ==> Partner(at) == PartnerAsWritten(at)
  {
  }

  /** The lists after the rename handler ran for the port at `at`. */
  function Renamed(l: Params, at: Slot): Result<Params, Slot>
    requires Exists(l, at)
  {
    Mirror(l, at, Partner(at))
  }

  /**
   * On paired lists the handler never asks for a port that is not there,
   * and a rename event for the partner it renamed changes nothing more.
   */
  lemma RenameSettles(l: Params, at: Slot)
    requires Paired(l) && Exists(l, at)
    ensures Renamed(l, at).Ok?
    ensures var r := Renamed(l, at).value;
      Partner(at).Some? ==> Exists(r, Partner(at).value) && Renamed(r, Partner(at).value) == Ok(r)
  {
    var r := Renamed(l, at).value;
    if Partner(at).Some? {
      var p := Partner(at).value;
      PartnerInverse(at);
      assert PortAt(r, at) == PortAt(l, at);
      assert WithUserName(r, at, PortAt(r, p).userName) == r;
    }
  }

  /**
   * On paired lists the handler as written fails only for the ">" output;
   * for every other port it does what the guarded handler does.
   */
  lemma AsWrittenFailsOnlyAtLink(l: Params, at: Slot)
    requires Paired(l) && Exists(l, at)
    ensures RenamedAsWritten(l, at).Err? <==> at == Slot(Output, 0)
    ensures at != Slot(Output, 0) ==> RenamedAsWritten(l, at) == Renamed(l, at)
  {
    PartnerInverse(at);
    RenameSettles(l, at);
  }

  /** A value input named for stream n: "Value", fallback `V{n}`, may be missing (lines 77-81). */
  function ValueInput(p: Port, n: nat): Port
  {
    p.(name := "Value", fallbackName := Numbered('V', n), optional := true)
  }

  /** A value output named for stream n (lines 85-88). */
  function ValueOutput(p: Port, n: nat): Port
  {
    p.(name := "Values", fallbackName := Numbered('V', n))
  }

  /** VariableParameterMaintenance (lines 73-90): inputs from 1, outputs from 2. */
  function Maintained(l: Params): (r: Params)
    requires Paired(l)
    ensures Paired(r) && |r.inputs| == |l.inputs|
    ensures r.inputs[0] == l.inputs[0] && r.outputs[..2] == l.outputs[..2]
    ensures forall k :: 1 <= k < |l.inputs| ==>
      r.inputs[k] == ValueInput(l.inputs[k], k) && r.outputs[k + 1] == ValueOutput(l.outputs[k + 1], k)
  {
    Params(seq(|l.inputs|, k requires 0 <= k < |l.inputs| => if k >= 1 then ValueInput(l.inputs[k], k) else l.inputs[k]),
           seq(|l.outputs|, k requires 0 <= k < |l.outputs| => if k >= 2 then ValueOutput(l.outputs[k], k - 1) else l.outputs[k]))
  }

  /**
   * After maintenance both ports of a value stream show its number, keep
   * their user names, no two streams share a fallback name, and running it
   * again changes nothing.
   */
  lemma MaintainedNamesStreams(l: Params)
    requires Paired(l)
    ensures var r := Maintained(l);
      (forall k :: 1 <= k < |l.inputs| ==>
        r.inputs[k].fallbackName == r.outputs[k + 1].fallbackName == Numbered('V', k) &&
        r.inputs[k].userName == l.inputs[k].userName && r.outputs[k + 1].userName == l.outputs[k + 1].userName &&
        r.inputs[k].optional) &&
      (forall j, k :: 1 <= j < k < |l.inputs| ==> r.inputs[j].fallbackName != r.inputs[k].fallbackName) &&
      Maintained(r) == r
  {
    var r := Maintained(l);
    forall j, k | 1 <= j < k < |l.inputs|
      ensures r.inputs[j].fallbackName != r.inputs[k].fallbackName
    {
      NumberedInjective('V', j, k);
    }
    assert Maintained(r).inputs == r.inputs;
    assert Maintained(r).outputs == r.outputs;
  }

  /** What Process writes: the point to output 1 and the tree of input k + 1 to output k + 2. */
  datatype Fed = Fed(point: Geometry.Point3, trees: seq<Tree>)

  class FieldStartComponent {
    var inputs: seq<Port>
    var outputs: seq<Port>
    /** Point: the sampling location, the origin until an active solution reads one. */
    var point: Geometry.Point3

    function Params(): Params
      reads this
    {
      Ports.Params(inputs, outputs)
    }

    constructor ()
      ensures Params() == Initial() && point == Geometry.Origin
    {
      inputs, outputs := Initial().inputs, Initial().outputs;
      point := Geometry.Origin;
    }

    method DoCreateParameter(at: Slot)
      requires Paired(Params()) && Insertable(Params(), at) && CanCreate(at)
      modifies this
      ensures Params() == Created(old(Params()), at) && point == old(point)
    {
      var i, l := InputIndex(at), Params();
      inputs := Insert(inputs, i, Blank);
      outputs := Insert(outputs, i + 1, Blank);
      assert Params() == Created(l, at);
    }

    method DoRemoveParameter(at: Slot)
      requires Paired(Params()) && Exists(Params(), at) && CanRemove(Params(), at)
      modifies this
      ensures Params() == Removed(old(Params()), at) && point == old(point)
    {
      var i := InputIndex(at);
      inputs := Remove(inputs, i);
      outputs := Remove(outputs, i + 1);
    }

    /**
     * The rename handler as written (lines 29-35), with no guard on either
     * side; Some(slot) when it asks for a port that is not there.
     */
    method ParametersOnParameterRenamed(at: Slot) returns (failure: Option<Slot>)
      requires Exists(Params(), at)
      modifies this
      ensures RenamedAsWritten(old(Params()), at).Ok? ==>
        failure == None && Params() == RenamedAsWritten(old(Params()), at).value
      ensures RenamedAsWritten(old(Params()), at).Err? ==>
        failure == Some(RenamedAsWritten(old(Params()), at).error) && Params() == old(Params())
      ensures point == old(point)
    {
      var name := PortAt(Params(), at).userName;
      failure := None;
      if at.side == Input {
        if at.index + 1 < |outputs| {
          outputs := outputs[at.index + 1 := outputs[at.index + 1].(userName := name)];
        } else {
          failure := Some(Slot(Output, at.index + 1));
        }
      } else {
        if 0 <= at.index - 1 < |inputs| {
          inputs := inputs[at.index - 1 := inputs[at.index - 1].(userName := name)];
        } else {
          failure := Some(Slot(Input, at.index - 1));
        }
      }
    }

    method VariableParameterMaintenance()
      requires Paired(Params())
      modifies this
      ensures Params() == Maintained(old(Params())) && point == old(point)
    {
      ghost var l := Params();
      var i := 1;
      while i < |inputs|
        invariant 1 <= i <= |inputs| == |l.inputs| && outputs == l.outputs && point == old(point)
        invariant forall k :: 0 <= k < |inputs| ==> inputs[k] == if 1 <= k < i then ValueInput(l.inputs[k], k) else l.inputs[k]
      {
        inputs := inputs[i := ValueInput(inputs[i], i)];
        i := i + 1;
      }
      i := 2;
      while i < |outputs|
        invariant 2 <= i <= |outputs| == |l.outputs| && inputs == Maintained(l).inputs && point == old(point)
        invariant forall k :: 0 <= k < |outputs| ==> outputs[k] == if 2 <= k < i then ValueOutput(l.outputs[k], k - 1) else l.outputs[k]
      {
        outputs := outputs[i := ValueOutput(outputs[i], i - 1)];
        i := i + 1;
      }
    }

    /**
     * Process (lines 91-101): in the active document read the point; write
     * it to output 1 and pass the tree of each value input k (`data[k - 1]`)
     * to its partner output k + 1.
     */
    method Process(pointIn: Geometry.Point3, data: seq<Tree>, active: bool) returns (r: Fed)
      requires Paired(Params()) && |data| == |inputs| - 1
      modifies this
      ensures point == if active then pointIn else old(point)
      ensures r.point == point && r.trees == data && |r.trees| == |outputs| - 2
      ensures Params() == old(Params())
    {
      if active {
        point := pointIn;
      }
      var written: seq<Tree> := [];
      var i := 1;
      while i < |inputs|
        invariant 1 <= i <= |inputs| && written == data[..i - 1]
      {
        written := written + [data[i - 1]];
        i := i + 1;
      }
      r := Fed(point, written);
    }
  }
}
