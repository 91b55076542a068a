/** A depth sensor: the holder of an undistortion model and a depth error
    function, generic over the depth representation `R` it produces. */
module Depth {
  import opened Math
  import opened Undistortion
  import opened SensorHistory

  /** A depth sensor for representation `R`. It points to a shared, read-only
      undistortion model for the same representation and owns its depth error
      function by value. The pose and frame bookkeeping it inherits from the
      generic sensor are not part of this model. */
  class DepthSensor<R> {
    /** The model in use; shared by reference, so other sensors may point to
        the same object. The setter stores whatever it is given, null
        included. */
    var undistortionModel: DepthUndistortionModel?<R>
    /** The expected measurement error as a function of depth. */
    var depthErrorFunction: Polynomial2

    /** The sensor's state as a value, for reasoning about sequences of calls. */
    ghost function AbstractState(): State<DepthUndistortionModel?<R>>
      reads this
    {
      State(undistortionModel, depthErrorFunction)
    }

    /** A new sensor points to a newly allocated no-undistortion model for its
        own representation and has the zero error function. */
    constructor ()
      ensures undistortionModel != null && fresh(undistortionModel)
      ensures undistortionModel.kind == NoUndistortionKind
      ensures depthErrorFunction == ZeroPolynomial
    {
      undistortionModel := new DepthUndistortionModel<R>.NoUndistortion();
      depthErrorFunction := ZeroPolynomial;
    }

    /** Hands out the model reference itself, not a copy. */
    method UndistortionModel() returns (m: DepthUndistortionModel?<R>)
      ensures m == undistortionModel
    {
      m := undistortionModel;
    }

    /** Re-points the sensor to `m`, unchecked; the error function is kept. */
    method SetUndistortionModel(m: DepthUndistortionModel?<R>)
      modifies this
      ensures undistortionModel == m
      ensures depthErrorFunction == old(depthErrorFunction)
      ensures AbstractState() == Step(old(AbstractState()), SetModelCall(m))
    {
      undistortionModel := m;
    }

    /** Hands out a copy of the error function. */
    method DepthErrorFunction() returns (f: Polynomial2)
      ensures f == depthErrorFunction
    {
      f := depthErrorFunction;
    }

    /** Replaces the error function with `f`, unchecked; the model reference is
        kept. */
    method SetDepthErrorFunction(f: Polynomial2)
      modifies this
      ensures depthErrorFunction == f
      ensures undistortionModel == old(undistortionModel)
      ensures AbstractState() == Step(old(AbstractState()), SetErrorFunctionCall(f))
    {
      depthErrorFunction := f;
    }
  }

  /** Set-then-get on a sensor gives back exactly what was set: the same model
      object and an equal error function. */
  method SetThenGet<R>(m: DepthUndistortionModel?<R>, f: Polynomial2)
    returns (gotModel: DepthUndistortionModel?<R>, gotErrorFunction: Polynomial2)
    ensures gotModel == m && gotErrorFunction == f
  {
    var sensor := new DepthSensor<R>();
    sensor.SetUndistortionModel(m);
    sensor.SetDepthErrorFunction(f);
    gotModel := sensor.UndistortionModel();
    gotErrorFunction := sensor.DepthErrorFunction();
  }

  /** Two distinct sensors may share one model object; re-pointing the first
      leaves the second on the shared model and neither error function
      moves. */
  method ShareThenRepoint<R>(first: DepthSensor<R>, second: DepthSensor<R>,
                             shared: DepthUndistortionModel?<R>,
                             replacement: DepthUndistortionModel?<R>)
    requires first != second
    modifies first, second
    ensures first.undistortionModel == replacement
    ensures second.undistortionModel == shared
    ensures first.depthErrorFunction == old(first.depthErrorFunction)
    ensures second.depthErrorFunction == old(second.depthErrorFunction)
  {
    first.SetUndistortionModel(shared);
    second.SetUndistortionModel(shared);
    assert first.undistortionModel == second.undistortionModel;
    first.SetUndistortionModel(replacement);
  }

  /** The error function handed out is a copy: changing that copy leaves the
      sensor's own error function as it was. */
  method AlterErrorFunctionCopy<R>(sensor: DepthSensor<R>, c0: real)
    returns (altered: Polynomial2, reread: Polynomial2)
    ensures altered == sensor.depthErrorFunction.(c0 := c0)
    ensures reread == sensor.depthErrorFunction
    ensures c0 != sensor.depthErrorFunction.c0 ==> altered != reread
  {
    var copy := sensor.DepthErrorFunction();
    altered := copy.(c0 := c0);
    reread := sensor.DepthErrorFunction();
  }

  /** A new sensor starts on the no-undistortion model; attaching a model of
      another subclass for the same representation replaces it, and the getter
      then returns that very model. */
  method AttachOtherModel<R>()
    returns (before: ModelKind, other: DepthUndistortionModel<R>,
             attached: DepthUndistortionModel?<R>)
    ensures before == NoUndistortionKind
    ensures attached == other && other.kind == OtherKind
  {
    var sensor := new DepthSensor<R>();
    var initial := sensor.UndistortionModel();
    before := initial.kind;
    other := new DepthUndistortionModel<R>.Other();
    sensor.SetUndistortionModel(other);
    attached := sensor.UndistortionModel();
  }

  /** Three setter calls on a sensor reach the state `Replay` gives for them;
      by the last-call-wins lemma the sensor ends on `replacement` and `f`. */
  method ThreeSetterCallsReplay<R>(sensor: DepthSensor<R>,
                                       m: DepthUndistortionModel?<R>, f: Polynomial2,
                                       replacement: DepthUndistortionModel?<R>)
    modifies sensor
    ensures sensor.AbstractState() ==
            Replay(old(sensor.AbstractState()),
                   [SetModelCall(m), SetErrorFunctionCall(f), SetModelCall(replacement)])
    ensures sensor.undistortionModel == replacement && sensor.depthErrorFunction == f
  {
    ghost var start := sensor.AbstractState();
    ghost var calls := [SetModelCall(m), SetErrorFunctionCall(f), SetModelCall(replacement)];
    sensor.SetUndistortionModel(m);
    ReplayAppend(start, [], calls[0]);
    sensor.SetDepthErrorFunction(f);
    assert calls[..1] + [calls[1]] == calls[..2];
    ReplayAppend(start, calls[..1], calls[1]);
    sensor.SetUndistortionModel(replacement);
    assert calls[..2] + [calls[2]] == calls;
    ReplayAppend(start, calls[..2], calls[2]);
    ReplayIsLastCall(start, calls);
  }
}
