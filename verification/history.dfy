/** The observable state of a depth sensor as a value, and what any sequence of
    setter calls does to it.

    A depth sensor holds two pieces of state: the undistortion model it points
    to and its depth error function. Its two setters overwrite one of them each
    and nothing else, and its getters change nothing. Folding a sequence of
    setter calls over a state therefore leaves each field equal to the argument
    of the last call that sets it, or to its starting value if no call does. */
module SensorHistory {
  import opened Math

  /** The sensor's state: the model reference `M` and the error function. */
  datatype State<M> = State(model: M, errorFunction: Polynomial2)

  /** A call to one of the sensor's two setters, with its argument. */
  datatype Call<M> =
    | SetModelCall(newModel: M)
    | SetErrorFunctionCall(newErrorFunction: Polynomial2)

  /** The effect of one setter call on the sensor's state. */
  function Step<M>(s: State<M>, c: Call<M>): State<M> {
    match c
    case SetModelCall(m) => s.(model := m)
    case SetErrorFunctionCall(f) => s.(errorFunction := f)
  }

  /** The state after the calls in `calls`, performed in order from `s`. */
  function Replay<M>(s: State<M>, calls: seq<Call<M>>): State<M>
    decreases |calls|
  {
    if calls == [] then s else Replay(Step(s, calls[0]), calls[1..])
  }

  /** The argument of the last model setter call in `calls`, or `initial` if
      there is none. */
  function LastModel<M>(calls: seq<Call<M>>, initial: M): M
    decreases |calls|
  {
    if calls == [] then initial
    else match calls[|calls| - 1]
      case SetModelCall(m) => m
      case SetErrorFunctionCall(_) => LastModel(calls[..|calls| - 1], initial)
  }

  /** The argument of the last error-function setter call in `calls`, or
      `initial` if there is none. */
  function LastErrorFunction<M>(calls: seq<Call<M>>, initial: Polynomial2): Polynomial2
    decreases |calls|
  {
    if calls == [] then initial
    else match calls[|calls| - 1]
      case SetModelCall(_) => LastErrorFunction(calls[..|calls| - 1], initial)
      case SetErrorFunctionCall(f) => f
  }

  /** Performing one more call after a sequence is the same as stepping the
      state the sequence reached. */
  lemma {:induction false} ReplayAppend<M>(s: State<M>, calls: seq<Call<M>>, c: Call<M>)
    ensures Replay(s, calls + [c]) == Step(Replay(s, calls), c)
    decreases |calls|
  {
    if calls == [] {
      assert calls + [c] == [c];
      assert [c][1..] == [];
    } else {
      assert (calls + [c])[0] == calls[0];
      assert (calls + [c])[1..] == calls[1..] + [c];
      ReplayAppend(Step(s, calls[0]), calls[1..], c);
    }
  }

  /** Last call wins: after any sequence of setter calls, the model is the
      argument of the last `SetModelCall` (or the starting model) and the
      error function is the argument of the last `SetErrorFunctionCall` (or the
      starting error function). */
  lemma {:induction false} ReplayIsLastCall<M>(s: State<M>, calls: seq<Call<M>>)
    ensures Replay(s, calls) ==
            State(LastModel(calls, s.model), LastErrorFunction(calls, s.errorFunction))
    decreases |calls|
  {
    if calls != [] {
      var prefix, c := calls[..|calls| - 1], calls[|calls| - 1];
      assert calls == prefix + [c];
      ReplayAppend(s, prefix, c);
      ReplayIsLastCall(s, prefix);
    }
  }

  /** Calls to the error-function setter alone never move the model reference. */
  lemma {:induction false} ModelUnchangedWithoutModelCalls<M>(s: State<M>, calls: seq<Call<M>>)
    requires forall i :: 0 <= i < |calls| ==> calls[i].SetErrorFunctionCall?
    ensures Replay(s, calls).model == s.model
    decreases |calls|
  {
    if calls != [] {
      ModelUnchangedWithoutModelCalls(Step(s, calls[0]), calls[1..]);
    }
  }

  /** Calls to the model setter alone never change the error function. */
  lemma {:induction false} ErrorFunctionUnchangedWithoutErrorCalls<M>(s: State<M>, calls: seq<Call<M>>)
    requires forall i :: 0 <= i < |calls| ==> calls[i].SetModelCall?
    ensures Replay(s, calls).errorFunction == s.errorFunction
    decreases |calls|
  {
    if calls != [] {
      ErrorFunctionUnchangedWithoutErrorCalls(Step(s, calls[0]), calls[1..]);
    }
  }

  /** The two setters act on disjoint fields, so their order does not matter. */
  lemma SettersCommute<M>(s: State<M>, m: M, f: Polynomial2)
    ensures Step(Step(s, SetModelCall(m)), SetErrorFunctionCall(f)) ==
            Step(Step(s, SetErrorFunctionCall(f)), SetModelCall(m))
  {
  }
}
