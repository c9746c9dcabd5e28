/**
 * LoopEndComponent (LoopEndComponent.cs): inputs "<" (the link from the
 * loop start), Exit, then the data streams D0, D1, ...; outputs the same data
 * streams. Input k + 2 and output k carry stream k.
 *
 * Process runs the loop: after checking that exactly one loop start with as
 * many streams is connected, it copies the document and re-solves the copy
 * once per pass, feeding each pass's results back into the loop start, until
 * the Exit input is set or the counter reaches the iteration count. The
 * re-solution of the copy is the function parameter `solve`: given the loop
 * start's trees and Count it yields the trees and Exit flag the copied loop
 * end then holds.
 */
module LoopEnd {
  import opened Wrappers
  import opened Ports
  import opened DataTree

  /** The lists AddInputs and AddOutputs build (lines 75-86). */
  function Initial(): (l: Params)
    ensures Paired(l)
  {
    Params([Port("<", "", "<", false), Port("Exit", "", "E", false), Port("Data", "", "D0", true)],
           [Port("Data", "", "D0", false)])
  }

  /** Two inputs more than outputs: what creation and removal keep. */
  predicate Streams(l: Params)
  {
    |l.inputs| == |l.outputs| + 2
  }

  /** ... and at least one data stream. */
  predicate Paired(l: Params)
  {
    Streams(l) && |l.outputs| >= 1
  }

  /** CanCreateParameter (lines 87-91): "<" and Exit stay first; outputs anywhere. */
  predicate CanCreate(at: Slot)
  {
    if at.side == Input then at.index > 1 else true
  }

  /**
   * CanRemoveParameter as written (lines 93-98): on the output side it
   * tests the input count against 0, which always holds.
   */
  predicate CanRemoveAsWritten(l: Params, at: Slot)
  {
    if at.side == Input then |l.inputs| > 3 && at.index > 1 else |l.inputs| > 0
  }

  /** CanRemoveParameter with the output side keeping the last stream, as the input side does. */
  predicate CanRemove(l: Params, at: Slot)
  {
    if at.side == Input then |l.inputs| > 3 && at.index > 1 else |l.outputs| > 1
  }

  /** The input of the stream an operation at `at` acts on (lines 100-125); its output is two before. */
  function InputIndex(at: Slot): int
  {
    if at.side == Input then at.index else at.index + 2
  }

  /**
   * DoCreateParameter (lines 100-112): a blank stream is inserted; "<" and
   * Exit stay and the old streams move as pairs: input k + 2 and output k go
   * to Shift(k + 2, i) and Shift(k, i - 2), which are again two apart.
   */
  function Created(l: Params, at: Slot): (r: Params)
    requires Streams(l) && Insertable(l, at) && CanCreate(at)
    ensures Paired(r) && |r.inputs| == |l.inputs| + 1
    ensures var i := InputIndex(at); 2 <= i && r.inputs[i] == Blank && r.outputs[i - 2] == Blank
    ensures r.inputs[0] == l.inputs[0] && r.inputs[1] == l.inputs[1]
    ensures forall k :: 2 <= k < |l.inputs| ==> r.inputs[Shift(k, InputIndex(at))] == l.inputs[k]
    ensures forall k :: 0 <= k < |l.outputs| ==> r.outputs[Shift(k, InputIndex(at) - 2)] == l.outputs[k]
  {
    var i := InputIndex(at);
    var ins := Insert(l.inputs, i, Blank);
    var outs := Insert(l.outputs, i - 2, Blank);
    Params(ins, outs)
  }

  /**
   * DoRemoveParameter (lines 113-125): one data stream goes, both of its
   * ports, and the others close up as pairs. It needs only that an input-side index is past Exit; the guard
   * decides whether the last stream may go.
   */
  function Removed(l: Params, at: Slot): (r: Params)
    requires Streams(l) && Exists(l, at) && (at.side == Input ==> at.index > 1)
    ensures Streams(r) && |r.inputs| == |l.inputs| - 1
    ensures 2 <= InputIndex(at) < |l.inputs|
    ensures r.inputs[0] == l.inputs[0] && r.inputs[1] == l.inputs[1]
    ensures forall k :: 2 <= k < |r.inputs| ==> r.inputs[k] == l.inputs[Shift(k, InputIndex(at))]
    ensures forall k :: 0 <= k < |r.outputs| ==> r.outputs[k] == l.outputs[Shift(k, InputIndex(at) - 2)]
  {
    var i := InputIndex(at);
    Params(Remove(l.inputs, i), Remove(l.outputs, i - 2))
  }

  /** With the guard, a removal always leaves a stream. */
  lemma RemovalKeepsAStream(l: Params, at: Slot)
    requires Paired(l) && Exists(l, at) && CanRemove(l, at)
    ensures Paired(Removed(l, at))
  {
  }

  /** A stream just created may be removed again, which restores the lists. */
  lemma CreateThenRemove(l: Params, at: Slot)
    requires Paired(l) && Insertable(l, at) && CanCreate(at)
    ensures Exists(Created(l, at), at) && CanRemove(Created(l, at), at)
    ensures Removed(Created(l, at), at) == l
  {
    var i := InputIndex(at);
    RemoveInsert(l.inputs, i, Blank);
    RemoveInsert(l.outputs, i - 2, Blank);
  }

  /**
   * Creating a stream where one was removed gives the old lists back, with
   * that stream's two ports blank.
   */
  lemma RemoveThenCreate(l: Params, at: Slot)
    requires Paired(l) && Exists(l, at) && CanRemove(l, at)
    ensures Insertable(Removed(l, at), at) && CanCreate(at)
    ensures var i := InputIndex(at);
      Created(Removed(l, at), at) == Params(l.inputs[i := Blank], l.outputs[i - 2 := Blank])
  {
    var i := InputIndex(at);
    InsertRemove(l.inputs, i, Blank);
    InsertRemove(l.outputs, i - 2, Blank);
  }

  /** The guards agree on the two ports of a stream. */
  lemma GuardsOfPartners(l: Params, k: int)
    requires Paired(l) && k >= 0
    ensures CanRemove(l, Slot(Input, k + 2)) <==> CanRemove(l, Slot(Output, k))
    ensures CanCreate(Slot(Input, k + 2)) <==> CanCreate(Slot(Output, k))
  {
  }

  /** ParametersOnParameterRenamed (lines 63-74): the port whose user name is copied to. */
  function Partner(at: Slot): (r: Option<Slot>)
    ensures r.Some? ==> r.value.side != at.side
  {
    if at.side == Input then (if at.index > 1 then Some(Slot(Output, at.index - 2)) else None)
    else Some(Slot(Input, at.index + 2))
  }

  /** The two maps are inverse on the streams; "<" and Exit have no partner. */
  lemma PartnerInverse(at: Slot)
    ensures at.index >= 0 && Partner(at).Some? ==> Partner(Partner(at).value) == Some(at)
    ensures Partner(at).None? <==> at.side == Input && at.index <= 1
  {
  }

  /** The lists after the rename handler ran for the port at `at`. */
  function Renamed(l: Params, at: Slot): Result<Params, Slot>
    requires Exists(l, at)
  {
    Mirror(l, at, Partner(at))
  }

  /**
   * On lists with two inputs more than outputs the handler never asks for a
   * port that is not there, and a rename event for the partner it renamed
   * changes nothing more.
   */
  lemma RenameSettles(l: Params, at: Slot)
    requires Streams(l) && Exists(l, at)
    ensures Renamed(l, at).Ok?
    ensures var r := Renamed(l, at).value;
      Partner(at).Some? ==> Exists(r, Partner(at).value) && Renamed(r, Partner(at).value) == Ok(r)
  {
    var r := Renamed(l, at).value;
    if Partner(at).Some? {
      var p := Partner(at).value;
      PartnerInverse(at);
      assert PortAt(r, at) == PortAt(l, at);
      assert WithUserName(r, at, PortAt(r, p).userName) == r;
    }
  }

  /** A port of stream n: "Data", fallback `D{n}`, may be missing (lines 128-143). */
  function DataPort(p: Port, n: nat): Port
  {
    p.(name := "Data", fallbackName := Numbered('D', n), optional := true)
  }

  /**
   * VariableParameterMaintenance (lines 126-144): inputs from 2, every
   * output; on lists left with no stream it changes nothing.
   */
  function Maintained(l: Params): (r: Params)
    requires Streams(l)
    ensures Streams(r) && |r.inputs| == |l.inputs| && |r.outputs| == |l.outputs|
    ensures r.inputs[..2] == l.inputs[..2]
    ensures forall k :: 0 <= k < |l.outputs| ==>
      r.inputs[k + 2] == DataPort(l.inputs[k + 2], k) && r.outputs[k] == DataPort(l.outputs[k], k)
  {
    Params(seq(|l.inputs|, k requires 0 <= k < |l.inputs| => if k >= 2 then DataPort(l.inputs[k], k - 2) else l.inputs[k]),
           seq(|l.outputs|, k requires 0 <= k < |l.outputs| => DataPort(l.outputs[k], k)))
  }

  /**
   * After maintenance both ports of a stream show its number, keep their
   * user names, no two streams share a fallback name, and running it again
   * changes nothing.
   */
  lemma MaintainedNamesStreams(l: Params)
    requires Streams(l)
    ensures var r := Maintained(l);
      (forall k :: 0 <= k < |l.outputs| ==>
        r.inputs[k + 2].fallbackName == r.outputs[k].fallbackName == Numbered('D', k) &&
        r.inputs[k + 2].userName == l.inputs[k + 2].userName && r.outputs[k].userName == l.outputs[k].userName &&
        r.inputs[k + 2].optional) &&
      (forall j, k :: 0 <= j < k < |l.outputs| ==> r.outputs[j].fallbackName != r.outputs[k].fallbackName) &&
      Maintained(r) == r
  {
    var r := Maintained(l);
    forall j, k | 0 <= j < k < |l.outputs|
      ensures r.outputs[j].fallbackName != r.outputs[k].fallbackName
    {
      NumberedInjective('D', j, k);
    }
    assert Maintained(r).inputs == r.inputs;
    assert Maintained(r).outputs == r.outputs;
  }

  /** An object the "<" input may be connected to. */
  datatype Node =
    | LoopStartNode(inputCount: nat, trees: seq<Tree>)   // a LoopStartComponent: its input count and Trees
    | OtherObject

  /** The warnings of lines 154-180. */
  datatype Warning =
    | NoLoopStart         // nothing connected
    | MultipleLoopStarts  // more than one connection
    | NotALoopStart       // the connected object is no loop start
    | StreamMismatch      // the loop start has another number of data streams

  /** The connection checks (lines 153-180): the loop start's trees, or the warning given. */
  function Connect(connected: seq<Node>, outputs: nat): (r: Result<seq<Tree>, Warning>)
    ensures r.Ok? <==> |connected| == 1 && connected[0].LoopStartNode? && connected[0].inputCount == outputs + 1
    ensures r.Ok? ==> r.value == connected[0].trees
    ensures r == Err(NoLoopStart) <==> |connected| == 0
    ensures r == Err(MultipleLoopStarts) <==> |connected| > 1
  {
    if |connected| == 0 then Err(NoLoopStart)
    else if |connected| > 1 then Err(MultipleLoopStarts)
    else if !connected[0].LoopStartNode? then Err(NotALoopStart)
    else if connected[0].inputCount != outputs + 1 then Err(StreamMismatch)
    else Ok(connected[0].trees)
  }

  /**
   * With the output-side guard as written the last stream may be removed
   * from the output side, while the input side refuses; afterwards no loop
   * start, which always has at least two inputs, passes the stream check.
   */
  lemma LastStreamRemovable(trees: seq<Tree>, n: nat)
    requires n >= 2
    ensures CanRemoveAsWritten(Initial(), Slot(Output, 0)) && !CanRemoveAsWritten(Initial(), Slot(Input, 2))
    ensures |Removed(Initial(), Slot(Output, 0)).outputs| == 0
    ensures Connect([LoopStartNode(n, trees)], |Removed(Initial(), Slot(Output, 0)).outputs|) == Err(StreamMismatch)
    ensures !CanRemove(Initial(), Slot(Output, 0))
  {
  }

  /** The copied loop end after a solution: its trees and its Exit flag. */
  datatype Pass = Pass(trees: seq<Tree>, exit: bool)

  /** Every solution yields n trees. */
  ghost predicate Sized(solve: (seq<Tree>, int) -> Pass, n: nat)
  {
    forall ts, c :: |solve(ts, c).trees| == n
  }

  /** Every solution yields n trees, none with a path twice. */
  ghost predicate SolveOk(solve: (seq<Tree>, int) -> Pass, n: nat)
  {
    Sized(solve, n) && forall ts, c, i :: 0 <= i < n ==> Distinct(solve(ts, c).trees[i])
  }

  /** The loop's state: the copied loop end's latest pass, the loop start's Count, the recorded trees. */
  datatype Run = Run(pass: Pass, count: int, recorded: seq<Tree>)

  /** Recording one pass: every stream's trees, prefixed by the count, added after what was kept. */
  function Recorded(recorded: seq<Tree>, trees: seq<Tree>, c: int): (r: seq<Tree>)
    requires |trees| == |recorded|
    ensures |r| == |recorded|
    ensures forall i :: 0 <= i < |r| ==> r[i] == Graft(recorded[i], Prefixed(trees[i], c))
  {
    seq(|recorded|, i requires 0 <= i < |recorded| => Graft(recorded[i], Prefixed(trees[i], c)))
  }

  /**
   * The loop of lines 197-210: while Exit is unset and Count is below I,
   * feed the loop end's trees to the loop start, re-solve, count the pass
   * and, when recording, store the pass's trees under the new count.
   */
  function Iterate(solve: (seq<Tree>, int) -> Pass, iterations: int, record: bool, n: nat, s: Run): (r: Run)
    requires Sized(solve, n) && |s.pass.trees| == n && |s.recorded| == n
    ensures |r.pass.trees| == n && |r.recorded| == n
    ensures s.count <= r.count && (r.count <= iterations || r.count == s.count)
    ensures r.pass.exit || r.count >= iterations
    ensures !record ==> r.recorded == s.recorded
    decreases iterations - s.count
  {
    if s.pass.exit || s.count >= iterations then s
    else
      var p := solve(s.pass.trees, s.count);
      var c := s.count + 1;
      Iterate(solve, iterations, record, n, Run(p, c, if record then Recorded(s.recorded, p.trees, c) else s.recorded))
  }

  /** The passes the loop makes from a state, in order. */
  function History(solve: (seq<Tree>, int) -> Pass, n: nat, iterations: int, pass: Pass, count: int): (h: seq<Pass>)
    requires Sized(solve, n)
    ensures forall k :: 0 <= k < |h| ==> |h[k].trees| == n
    decreases iterations - count
  {
    if pass.exit || count >= iterations then []
    else
      var p := solve(pass.trees, count);
      [p] + History(solve, n, iterations, p, count + 1)
  }

  /** Stream i of the passes, each prefixed by its count from c on, added after t. */
  function Appended(t: Tree, passes: seq<Pass>, i: nat, c: int): Tree
    requires forall k :: 0 <= k < |passes| ==> i < |passes[k].trees|
    decreases |passes|
  {
    if passes == [] then t
    else Appended(Graft(t, Prefixed(passes[0].trees[i], c)), passes[1..], i, c + 1)
  }

  /** The loop counts one step per pass. */
  lemma {:induction false} IterateCountsPasses(solve: (seq<Tree>, int) -> Pass, iterations: int, record: bool, n: nat, s: Run)
    requires Sized(solve, n) && |s.pass.trees| == n && |s.recorded| == n
    ensures Iterate(solve, iterations, record, n, s).count == s.count + |History(solve, n, iterations, s.pass, s.count)|
    decreases iterations - s.count
  {
    if !(s.pass.exit || s.count >= iterations) {
      var p := solve(s.pass.trees, s.count);
      var c := s.count + 1;
      var next := Run(p, c, if record then Recorded(s.recorded, p.trees, c) else s.recorded);
      assert History(solve, n, iterations, s.pass, s.count) == [p] + History(solve, n, iterations, p, c);
      IterateCountsPasses(solve, iterations, record, n, next);
    }
  }

  /** The pass after p and then the passes h. */
  function Final(p: Pass, h: seq<Pass>): Pass
    decreases |h|
  {
    if h == [] then p else Final(h[0], h[1..])
  }

  /** That is the last of h, or p when there is none. */
  lemma {:induction false} FinalIsLast(p: Pass, h: seq<Pass>)
    ensures Final(p, h) == if h == [] then p else h[|h| - 1]
    decreases |h|
  {
    if h != [] {
      FinalIsLast(h[0], h[1..]);
    }
  }

  /** The loop ends with the trees and Exit flag of its last pass. */
  lemma {:induction false} IterateEndsWithLastPass(solve: (seq<Tree>, int) -> Pass, iterations: int, record: bool, n: nat, s: Run)
    requires Sized(solve, n) && |s.pass.trees| == n && |s.recorded| == n
    ensures Iterate(solve, iterations, record, n, s).pass == Final(s.pass, History(solve, n, iterations, s.pass, s.count))
    decreases iterations - s.count
  {
    if !(s.pass.exit || s.count >= iterations) {
      var p := solve(s.pass.trees, s.count);
      var c := s.count + 1;
      var rest := History(solve, n, iterations, p, c);
      var h := [p] + rest;
      assert History(solve, n, iterations, s.pass, s.count) == h;
      assert h[0] == p && h[1..] == rest;
      var next := Run(p, c, if record then Recorded(s.recorded, p.trees, c) else s.recorded);
      IterateEndsWithLastPass(solve, iterations, record, n, next);
    }
  }

  /** Recording the passes one after another, from count c on. */
  function Replayed(recorded: seq<Tree>, passes: seq<Pass>, c: int): (r: seq<Tree>)
    requires forall k :: 0 <= k < |passes| ==> |passes[k].trees| == |recorded|
    ensures |r| == |recorded|
    decreases |passes|
  {
    if passes == [] then recorded
    else Replayed(Recorded(recorded, passes[0].trees, c), passes[1..], c + 1)
  }

  /** Replaying the passes appends each stream's trees on its own. */
  lemma {:induction false} ReplayedStream(recorded: seq<Tree>, passes: seq<Pass>, c: int, i: nat)
    requires forall k :: 0 <= k < |passes| ==> |passes[k].trees| == |recorded|
    requires i < |recorded|
    ensures Replayed(recorded, passes, c)[i] == Appended(recorded[i], passes, i, c)
    decreases |passes|
  {
    if passes != [] {
      var next := Recorded(recorded, passes[0].trees, c);
      assert next[i] == Graft(recorded[i], Prefixed(passes[0].trees[i], c));
      ReplayedStream(next, passes[1..], c + 1, i);
    }
  }

  /** When recording, the loop replays its passes over what was recorded before. */
  lemma {:induction false} IterateReplaysHistory(solve: (seq<Tree>, int) -> Pass, iterations: int, n: nat, s: Run)
    requires Sized(solve, n) && |s.pass.trees| == n && |s.recorded| == n
    ensures Iterate(solve, iterations, true, n, s).recorded ==
      Replayed(s.recorded, History(solve, n, iterations, s.pass, s.count), s.count + 1)
    decreases iterations - s.count
  {
    if !(s.pass.exit || s.count >= iterations) {
      var p := solve(s.pass.trees, s.count);
      var c := s.count + 1;
      var next := Run(p, c, Recorded(s.recorded, p.trees, c));
      var rest := History(solve, n, iterations, p, c);
      var h := [p] + rest;
      assert History(solve, n, iterations, s.pass, s.count) == h;
      assert h[0] == p && h[1..] == rest;
      IterateReplaysHistory(solve, iterations, n, next);
    }
  }

  /**
   * When recording, the loop stores each stream's trees of every pass under
   * its own count, after what was stored before and in the order of the
   * passes.
   */
  lemma IterateRecordsHistory(solve: (seq<Tree>, int) -> Pass, iterations: int, n: nat, s: Run, i: nat)
    requires Sized(solve, n) && |s.pass.trees| == n && |s.recorded| == n && i < n
    ensures Iterate(solve, iterations, true, n, s).recorded[i] ==
      Appended(s.recorded[i], History(solve, n, iterations, s.pass, s.count), i, s.count + 1)
  {
    IterateReplaysHistory(solve, iterations, n, s);
    ReplayedStream(s.recorded, History(solve, n, iterations, s.pass, s.count), s.count + 1, i);
  }

  /** When Exit is never set the loop makes max(0, I - Count) passes and ends at max(Count, I). */
  lemma {:induction false} NoExitRunsToIterations(solve: (seq<Tree>, int) -> Pass, n: nat, iterations: int, pass: Pass, count: int)
    requires Sized(solve, n) && !pass.exit && forall ts, c :: !solve(ts, c).exit
    ensures |History(solve, n, iterations, pass, count)| == if count < iterations then iterations - count else 0
    decreases iterations - count
  {
    if count < iterations {
      NoExitRunsToIterations(solve, n, iterations, solve(pass.trees, count), count + 1);
    }
  }

  /** The trees of n streams, none with a path twice, all labelled by counts in [0, hi]. */
  predicate Stored(recorded: seq<Tree>, hi: int)
  {
    forall i :: 0 <= i < |recorded| ==> Distinct(recorded[i]) && Labelled(recorded[i], 0, hi)
  }

  /** What Process leaves on its outputs, when it gets that far. */
  datatype Outcome =
    | Inactive                 // the copied document: only the trees and Exit were read
    | Warned(warning: Warning)
    | ShortStartTrees          // recording into fewer slots than streams (`_recorded[i]` out of range)
    | Solved(outputs: seq<Tree>)

  /**
   * Process (lines 146-218). The copy's loop start is freshly read from the
   * stored document, so its Count starts at 0 (LoopStartComponent.cs:22-26
   * reads no count).
   */
  function Solution(n: nat, active: bool, connected: seq<Node>, iterations: int,
                    solve: (seq<Tree>, int) -> Pass, record: bool): (r: Outcome)
    requires SolveOk(solve, n)
    ensures r.Solved? <==> active && Connect(connected, n).Ok? && !(record && |Connect(connected, n).value| < n)
    ensures r.Solved? ==> |r.outputs| == n
  {
    if !active then Inactive
    else match Connect(connected, n)
      case Err(w) => Warned(w)
      case Ok(start) =>
        if record && |start| < n then ShortStartTrees
        else
          var first := solve(start, 0);
          var init := if record then seq(n, i requires 0 <= i < n => Prefixed(first.trees[i], 0))
                      else seq(n, i => Tree([]));
          var r := Iterate(solve, iterations, record, n, Run(first, 0, init));
          Solved(if record then r.recorded else r.pass.trees)
  }

  class LoopEndComponent {
    var inputs: seq<Port>
    var outputs: seq<Port>
    /** _trees: the data inputs of the latest solution. */
    var trees: seq<Tree>
    /** _exit: the Exit input of the latest solution. */
    var exit: bool
    /** _record: whether every pass's data is kept. */
    var record: bool

    function Params(): Params
      reads this
    {
      Ports.Params(inputs, outputs)
    }

    constructor ()
      ensures Params() == Initial() && trees == [] && !exit && !record
    {
      inputs, outputs := Initial().inputs, Initial().outputs;
      trees, exit, record := [], false, false;
    }

    method DoCreateParameter(at: Slot)
      requires Streams(Params()) && Insertable(Params(), at) && CanCreate(at)
      modifies this
      ensures Params() == Created(old(Params()), at)
      ensures trees == old(trees) && exit == old(exit) && record == old(record)
    {
      if at.side == Input {
        inputs := Insert(inputs, at.index, Blank);
        outputs := Insert(outputs, at.index - 2, Blank);
      } else {
        inputs := Insert(inputs, at.index + 2, Blank);
        outputs := Insert(outputs, at.index, Blank);
      }
    }

    /** DoRemoveParameter, called whenever CanRemoveParameter as written allows it, the last stream included. */
    method DoRemoveParameter(at: Slot)
      requires Streams(Params()) && Exists(Params(), at) && CanRemoveAsWritten(Params(), at)
      modifies this
      ensures Params() == Removed(old(Params()), at)
      ensures trees == old(trees) && exit == old(exit) && record == old(record)
    {
      if at.side == Input {
        inputs := Remove(inputs, at.index);
        outputs := Remove(outputs, at.index - 2);
      } else {
        inputs := Remove(inputs, at.index + 2);
        outputs := Remove(outputs, at.index);
      }
    }

    /** The rename handler; Some(slot) when it asks for a port that is not there. */
    method ParametersOnParameterRenamed(at: Slot) returns (failure: Option<Slot>)
      requires Exists(Params(), at)
      modifies this
      ensures Renamed(old(Params()), at).Ok? ==> failure == None && Params() == Renamed(old(Params()), at).value
      ensures Renamed(old(Params()), at).Err? ==> failure == Some(Renamed(old(Params()), at).error) && Params() == old(Params())
      ensures trees == old(trees) && exit == old(exit) && record == old(record)
    {
      var name := PortAt(Params(), at).userName;
      failure := None;
      if at.side == Input {
        if at.index > 1 {
          if at.index - 2 < |outputs| {
            outputs := outputs[at.index - 2 := outputs[at.index - 2].(userName := name)];
          } else {
            failure := Some(Slot(Output, at.index - 2));
          }
        }
      } else if at.index + 2 < |inputs| {
        inputs := inputs[at.index + 2 := inputs[at.index + 2].(userName := name)];
      } else {
        failure := Some(Slot(Input, at.index + 2));
      }
    }

    method VariableParameterMaintenance()
      requires Streams(Params())
      modifies this
      ensures Params() == Maintained(old(Params()))
      ensures trees == old(trees) && exit == old(exit) && record == old(record)
    {
      ghost var l := Params();
      var i := 2;
      while i < |inputs|
        invariant 2 <= i <= |inputs| == |l.inputs| && outputs == l.outputs
        invariant trees == old(trees) && exit == old(exit) && record == old(record)
        invariant forall k :: 0 <= k < |inputs| ==> inputs[k] == if 2 <= k < i then DataPort(l.inputs[k], k - 2) else l.inputs[k]
      {
        inputs := inputs[i := DataPort(inputs[i], i - 2)];
        i := i + 1;
      }
      i := 0;
      while i < |outputs|
        invariant 0 <= i <= |outputs| == |l.outputs| && inputs == Maintained(l).inputs
        invariant trees == old(trees) && exit == old(exit) && record == old(record)
        invariant forall k :: 0 <= k < |outputs| ==> outputs[k] == if k < i then DataPort(l.outputs[k], k) else l.outputs[k]
      {
        outputs := outputs[i := DataPort(outputs[i], i)];
        i := i + 1;
      }
    }

    /**
     * Process: read the data inputs (`data[k]` is input k + 2) and Exit;
     * in the active document check the connection and run the loop on a
     * copy.
     */
    method Process(data: seq<Tree>, exitIn: bool, active: bool, connected: seq<Node>, iterations: int,
                   solve: (seq<Tree>, int) -> Pass) returns (r: Outcome)
      requires Streams(Params()) && |data| == |inputs| - 2 && SolveOk(solve, |outputs|)
      modifies this
      ensures Params() == old(Params()) && record == old(record)
      ensures trees == data && exit == exitIn
      ensures r == Solution(|outputs|, active, connected, iterations, solve, record)
    {
      var read: seq<Tree> := [];
      var i := 2;
      while i < |inputs|
        invariant 2 <= i <= |inputs| && read == data[..i - 2]
      {
        read := read + [data[i - 2]];
        i := i + 1;
      }
      assert read == data;
      trees, exit := read, exitIn;
      if !active {
        return Inactive;
      }
      var link := Connect(connected, |outputs|);
      if link.Err? {
        return Warned(link.error);
      }
      var start := link.value;
      var n := |outputs|;
      if record && |start| < n {
        return ShortStartTrees;
      }
      var out := RunCopy(start, iterations, solve, record, n);
      r := Solved(out);
    }
  }

  /**
   * Lines 182-216 on the copy: the first solution, the initial record under
   * count 0, the loop, and the trees put on the outputs.
   */
  method RunCopy(start: seq<Tree>, iterations: int, solve: (seq<Tree>, int) -> Pass, record: bool, n: nat)
    returns (out: seq<Tree>)
    requires SolveOk(solve, n) && (record ==> n <= |start|)
    ensures var first := solve(start, 0);
      var init := if record then seq(n, i requires 0 <= i < n => Prefixed(first.trees[i], 0))
                  else seq(n, i => Tree([]));
      var r := Iterate(solve, iterations, record, n, Run(first, 0, init));
      out == if record then r.recorded else r.pass.trees
  {
    var first := solve(start, 0);
    var recorded := new Tree[n](i => Tree([]));
    if record {
      var i := 0;
      while i < n
        invariant 0 <= i <= n
        invariant forall k :: 0 <= k < n ==> recorded[k] == if k < i then Prefixed(first.trees[k], 0) else Tree([])
      {
        recorded[i] := Prefixed(first.trees[i], 0);
        i := i + 1;
      }
    }
    ghost var init := recorded[..];
    assert init == if record then seq(n, i requires 0 <= i < n => Prefixed(first.trees[i], 0)) else seq(n, i => Tree([]));
    var trees, exit, count := first.trees, first.exit, 0;
    while !exit && count < iterations
      invariant |trees| == n && 0 <= count
      invariant record ==> Stored(recorded[..], count)
      invariant Iterate(solve, iterations, record, n, Run(Pass(trees, exit), count, recorded[..])) ==
                Iterate(solve, iterations, record, n, Run(first, 0, init))
      decreases iterations - count
    {
      var p := solve(trees, count);
      trees, exit := p.trees, p.exit;
      count := count + 1;
      if record {
        RecordPass(recorded, trees, count);
      }
    }
    out := if record then recorded[..] else trees;
  }

  /** Lines 204-209: every stream's trees of this pass, prefixed by the count, added to its record. */
  method RecordPass(recorded: array<Tree>, trees: seq<Tree>, c: int)
    requires |trees| == recorded.Length && c >= 1 && Stored(recorded[..], c - 1)
    requires forall i :: 0 <= i < |trees| ==> Distinct(trees[i])
    modifies recorded
    ensures recorded[..] == Recorded(old(recorded[..]), trees, c)
    ensures Stored(recorded[..], c)
  {
    ghost var before := recorded[..];
    var i := 0;
    while i < recorded.Length
      invariant 0 <= i <= recorded.Length
      invariant forall k :: 0 <= k < recorded.Length ==>
        recorded[k] == if k < i then Graft(before[k], Prefixed(trees[k], c)) else before[k]
      invariant Stored(recorded[..], c)
    {
      var u := Prefixed(trees[i], c);
      GraftLabelled(recorded[i], u, 0, c);
      var t := AddAll(recorded[i], u, 0, c);
      recorded[i] := t;
      i := i + 1;
    }
  }
}
