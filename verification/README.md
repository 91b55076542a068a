# Depth sensor state holder

This project models `DepthSensor<DepthT_>` from the calibration_common library.
A depth sensor is a passive holder of two pieces of state that calibration code
reads and replaces:

- an **undistortion model**: a shared pointer to a read-only
  `DepthUndistortionModel<DepthT_>` for the sensor's own depth representation.
  A new sensor points to a freshly allocated `NoUndistortion_<DepthT_>`.
  `setUndistortionModel` re-points the sensor. Other sensors may point to the
  same model object.
- a **depth error function**: a degree-2 `Polynomial<Scalar, 2>` held by value.
  It starts as the zero polynomial, the getter returns a copy and the setter
  copies a new value in.

Files:

- `math.dfy` (module `Math`): `Polynomial2`, the three coefficients of the error
  function, and `ZeroPolynomial`.
- `undistortion_model.dfy` (module `Undistortion`): the class
  `DepthUndistortionModel<R>`. A model object is an identity plus the subclass
  it was built as: `NoUndistortion` or some `Other` subclass. The type parameter
  `R` is the depth representation. A sensor of representation `R` can therefore
  only be given a model of representation `R`. As in the library, this is
  checked by typing and never at run time.
- `sensor.dfy` (module `Depth`): the class `DepthSensor<R>` with its constructor,
  two getters and two setters, and five client methods. The client methods
  state the set/get round trip, the sharing of a model between two sensors, and
  the copy semantics of the error-function getter. Two more attach a model of
  another subclass and chain three setter calls on one sensor.
- `history.dfy` (module `SensorHistory`): the sensor's state as a value and
  `Replay`, which folds any sequence of setter calls over it. The lemmas show
  that the last call to each setter decides that field and that neither setter
  touches the other's field. Each setter's `ensures` ties the sensor's
  `AbstractState()` to `Step`, so these lemmas describe the class too;
  `Depth.ThreeSetterCallsReplay` applies them to three calls on one sensor.

What the code does not check:

- The code never raises a representation-mismatch error. Only the template
  parameter keeps models and sensors of different representations apart
  (sensor.h lines 49 and 64).
- The code never rejects an error function. The setter copies any coefficients
  in (line 76).
- The code does not keep the model pointer non-null. `setUndistortionModel`
  stores whatever pointer it receives, a null one included (line 66). The model
  field is therefore the nullable `DepthUndistortionModel?<R>`, and the setter
  has no precondition.

## Model

| member | source | states |
|---|---|---|
| `Depth.DepthSensor.constructor` | calibration_common/include/calibration_common/depth/sensor.h:51-57 | a new sensor points to a newly allocated, non-null `NoUndistortion` model of its own representation, and its error function has all three coefficients zero |
| `Undistortion.DepthUndistortionModel.NoUndistortion` | calibration_common/include/calibration_common/depth/sensor.h:53 | the default model object is built as a `NoUndistortion_` |
| `Undistortion.DepthUndistortionModel.Other` | calibration_common/include/calibration_common/depth/sensor.h:49 | any other model subclass for the same representation can be built and attached. Its correction is not modelled |
| `Depth.DepthSensor.UndistortionModel` | calibration_common/include/calibration_common/depth/sensor.h:59-62 | the getter changes nothing (no modifies clause) and returns the stored reference itself, not a copy |
| `Depth.DepthSensor.SetUndistortionModel` | calibration_common/include/calibration_common/depth/sensor.h:64-67 | after the call the sensor holds exactly the given reference, with no validation (null accepted), and the error function is unchanged. The new state is one `Step` of the history |
| `Depth.DepthSensor.DepthErrorFunction` | calibration_common/include/calibration_common/depth/sensor.h:69-72 | the getter changes nothing and returns a value equal to the stored error function |
| `Depth.DepthSensor.SetDepthErrorFunction` | calibration_common/include/calibration_common/depth/sensor.h:74-77 | after the call the error function equals the given one, and the model reference is unchanged. The new state is one `Step` of the history |
| `Depth.SetThenGet` | calibration_common/include/calibration_common/depth/sensor.h:59-77 | round trip: setting a model and an error function and then reading them back yields the same model object and an equal error function |
| `Depth.ShareThenRepoint` | calibration_common/include/calibration_common/depth/sensor.h:64-67 | two distinct sensors can share one model object. Re-pointing the first leaves the second on the shared object, and neither error function changes |
| `Depth.AlterErrorFunctionCopy` | calibration_common/include/calibration_common/depth/sensor.h:69-72 | the error function is handed out as a copy. Changing a coefficient of the copy leaves the sensor's own error function as it was, and the copy differs from it whenever the coefficient changed |
| `Depth.AttachOtherModel` | calibration_common/include/calibration_common/depth/sensor.h:51-67 | a new sensor's model is a `NoUndistortion` one. After a newly built model of another subclass for the same representation is attached, the getter returns that very object |
| `Depth.ThreeSetterCallsReplay` | calibration_common/include/calibration_common/depth/sensor.h:64-77 | three setter calls on any sensor reach the `Replay` state for those calls, so the sensor ends on the last model and the last error function it was given |
| `SensorHistory.ReplayAppend` | calibration_common/include/calibration_common/depth/sensor.h:64-77 | performing one more setter call after a sequence equals one step from the state that sequence reached |
| `SensorHistory.ReplayIsLastCall` | calibration_common/include/calibration_common/depth/sensor.h:64-77 | after any sequence of setter calls, the model is the argument of the last model-setter call, or the starting model if there is none. Likewise the error function is the argument of the last error-function-setter call, or the starting one |
| `SensorHistory.ModelUnchangedWithoutModelCalls` | calibration_common/include/calibration_common/depth/sensor.h:74-77 | any number of error-function-setter calls leaves the model reference where it was |
| `SensorHistory.ErrorFunctionUnchangedWithoutErrorCalls` | calibration_common/include/calibration_common/depth/sensor.h:64-67 | any number of model-setter calls leaves the error function as it was |
| `SensorHistory.SettersCommute` | calibration_common/include/calibration_common/depth/sensor.h:64-77 | the two setters act on disjoint fields, so performing them in either order reaches the same state |

## Left out

- The generic `Sensor` base class (pose, parent frame) from `objects/sensor.h` is not part of this model.
- What an undistortion model computes: `undistortion_model.h` is not part of this model. Model objects are opaque identities tagged with the subclass they were built as.
- Polynomial evaluation and coefficient arithmetic: `base/math.h` is not part of this model. `Scalar` is floating point in the library. Here the coefficients are `real` and are only copied and compared for equality.
- `boost::shared_ptr` reference counting, `make_shared` and object lifetime. A shared pointer is modelled as a Dafny object reference.
- The `DepthSensorEigen_`/`DepthSensorPCL_` subclasses and typedefs (sensor.h lines 86-101) add no behaviour. The commented-out classes after line 103 are dead code.
- Thread safety of sharing a model between sensors. All calls are modelled as sequential.
