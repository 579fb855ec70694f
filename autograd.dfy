/**
 * A gradient collector scope restricted to the one backward rule the arithmetic
 * exercises: array + number, whose output gradient flows unchanged to the array.
 */
module Autograd {
  import opened Results
  import opened Arith
  import opened Tensors
  import opened NDArrays

  /** A recorded `output := input + n`. */
  datatype AddRecord = AddRecord(input: NDArray, output: NDArray)

  /** Each record relates an input and an output of one shape. */
  predicate ShapesMatch(tape: seq<AddRecord>) {
    forall i :: 0 <= i < |tape| ==> tape[i].input.shape == tape[i].output.shape
  }

  /** Every gradient in the map has its own array's shape. */
  predicate GradientsFit(grads: map<NDArray, Tensor>) {
    forall x :: x in grads ==> grads[x].shape == x.shape
  }

  /** The arrays the tape has recorded as inputs. */
  function Inputs(tape: seq<AddRecord>): set<NDArray> {
    set i | 0 <= i < |tape| :: tape[i].input
  }

  /** The backward rule of one add record: the output's gradient is added into the input's. */
  function Route(e: AddRecord, grads: map<NDArray, Tensor>): (r: map<NDArray, Tensor>)
    requires e.input.shape == e.output.shape && GradientsFit(grads)
    ensures GradientsFit(r)
  {
    if e.output !in grads then grads
    else if e.input in grads then grads[e.input := Pointwise(Add, grads[e.input], grads[e.output])]
    else grads[e.input := grads[e.output]]
  }

  /** Replays the tape in reverse recording order, from its last record to its first. */
  function Replay(tape: seq<AddRecord>, grads: map<NDArray, Tensor>): (r: map<NDArray, Tensor>)
    requires ShapesMatch(tape) && GradientsFit(grads)
    ensures GradientsFit(r)
    decreases |tape|
  {
    if |tape| == 0 then grads
    else Replay(tape[..|tape| - 1], Route(tape[|tape| - 1], grads))
  }

  /** The gradients a backward pass from `loss` produces: seeded with ones shaped like the loss. */
  function Gradients(tape: seq<AddRecord>, loss: NDArray): (r: map<NDArray, Tensor>)
    requires ShapesMatch(tape)
    ensures GradientsFit(r)
  {
    Replay(tape, map[loss := Filled(loss.shape, 1.0)])
  }

  /** A tracked array's gradient slot after a backward pass; untracked or unreached arrays keep theirs. */
  function Accumulate(slot: Option<Tensor>, x: NDArray, grads: map<NDArray, Tensor>): Option<Tensor> {
    if slot.Some? && x in grads && slot.value.shape == grads[x].shape
    then Some(Pointwise(Add, slot.value, grads[x]))
    else slot
  }

  /** A recording scope: created on entry, `Close`d on exit. */
  class GradientCollector {
    var recording: bool
    var tape: seq<AddRecord>

    ghost predicate Valid()
      reads this
    {
      ShapesMatch(tape) &&
      forall i :: 0 <= i < |tape| ==> tape[i].input.Valid() && tape[i].output.Valid()
    }

    /** Some recorded operation produced a. */
    predicate Produced(a: NDArray)
      reads this
    {
      exists i :: 0 <= i < |tape| && tape[i].output == a
    }

    /** Entering the scope: recording, with an empty tape. */
    constructor ()
      ensures Valid() && recording && tape == []
    {
      recording := true;
      tape := [];
    }

    /** Leaving the scope: the tape is discarded and recording stops. */
    method Close()
      modifies this
      ensures Valid() && !recording && tape == []
    {
      recording := false;
      tape := [];
    }

    /**
     * NDArrays.add(a, n) inside the scope: the allocating result, recorded
     * when a is tracked or was itself produced on the tape.
     */
    method AddNumber(a: NDArray, n: real) returns (r: NDArray)
      requires Valid() && a.Valid()
      modifies this
      ensures Valid() && recording == old(recording)
      ensures fresh(r) && fresh(r.data) && r.Valid() && r.gradient == None
      ensures r.Value() == WithNumber(Add, a.Value(), n)
      ensures tape == if old(recording) && (a.gradient.Some? || old(Produced(a)))
                      then old(tape) + [AddRecord(a, r)] else old(tape)
    {
      r := NumberOp(Add, a, n);
      if recording && (a.gradient.Some? || Produced(a)) {
        tape := tape + [AddRecord(a, r)];
      }
    }

    /**
     * backward(loss): replays the tape from a ones-seeded loss gradient and
     * adds each tracked input's gradient into its slot. Fails outside an open
     * scope, and for an array no recorded operation produced.
     */
    method Backward(loss: NDArray) returns (o: Outcome)
      requires Valid()
      requires forall i :: 0 <= i < |tape| ==> tape[i].input.GradientFits()
      modifies Inputs(tape)
      ensures !recording ==> o == Fail(NotRecording)
      ensures recording && !Produced(loss) ==> o == Fail(NotOnTape)
      ensures recording && Produced(loss) ==> o == Pass
      ensures forall x :: x in Inputs(tape) ==> x.GradientFits()
      ensures forall x :: x in Inputs(tape) ==>
        x.gradient == if o.Pass? then Accumulate(old(x.gradient), x, Gradients(tape, loss)) else old(x.gradient)
    {
      if !recording {
        return Fail(NotRecording);
      }
      if !Produced(loss) {
        return Fail(NotOnTape);
      }
      var grads := Gradients(tape, loss);
      var todo := Inputs(tape);
      ghost var done: set<NDArray> := {};
      while todo != {}
        invariant todo + done == Inputs(tape) && todo !! done
        invariant forall x :: x in done ==> x.gradient == Accumulate(old(x.gradient), x, grads)
        invariant forall x :: x in todo ==> x.gradient == old(x.gradient)
        invariant forall x :: x in Inputs(tape) ==> x.GradientFits()
        decreases todo
      {
        var x :| x in todo;
        if x.gradient.Some? && x in grads {
          x.gradient := Some(Pointwise(Add, x.gradient.value, grads[x]));
        }
        todo := todo - {x};
        done := done + {x};
      }
      return Pass;
    }
  }

  /** The add rule end to end: an input recorded once, zero-initialised, ends with all-ones. */
  lemma AddNumberGradient(lhs: NDArray, result: NDArray)
    requires lhs != result && lhs.shape == result.shape
    ensures ShapesMatch([AddRecord(lhs, result)])
    ensures Accumulate(Some(Filled(lhs.shape, 0.0)), lhs, Gradients([AddRecord(lhs, result)], result)) ==
            Some(Filled(lhs.shape, 1.0))
  {
    var tape := [AddRecord(lhs, result)];
    var seed := map[result := Filled(result.shape, 1.0)];
    assert tape[..0] == [];
    assert Replay(tape, seed) == Replay([], Route(tape[0], seed));
    assert Gradients(tape, result) == Route(tape[0], seed);
    var sum := Pointwise(Add, Filled(lhs.shape, 0.0), Filled(lhs.shape, 1.0));
    assert sum.data == Filled(lhs.shape, 1.0).data;
  }
}
