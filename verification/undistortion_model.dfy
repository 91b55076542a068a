/** The undistortion model a depth sensor points to.

    In the library this is a class hierarchy rooted at
    `DepthUndistortionModel<DepthT_>`, of which `NoUndistortion_<DepthT_>` is the
    subclass a sensor starts with. A sensor reaches a model only through a
    pointer to a const object, so from the sensor's side a model is an object
    identity plus the subclass it was built as; the correction it performs is
    not part of this model. */
module Undistortion {

  /** The subclass a model object was created as. `OtherKind` stands for every
      subclass other than `NoUndistortion_`. */
  datatype ModelKind = NoUndistortionKind | OtherKind

  /** A read-only undistortion model for depth representation `R`. The type
      parameter carries the representation kind, so a model for one
      representation cannot be attached to a sensor of another. */
  class DepthUndistortionModel<R> {
    const kind: ModelKind

    /** A model that leaves depth readings as they are. */
    constructor NoUndistortion()
      ensures kind == NoUndistortionKind
    {
      kind := NoUndistortionKind;
    }

    /** A model of some other subclass, opaque to the sensor. */
    constructor Other()
      ensures kind == OtherKind
    {
      kind := OtherKind;
    }
  }
}
