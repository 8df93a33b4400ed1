/** Option and Result, the model's stand-ins for Java's null and for a thrown
    argument check. */
module Wrappers {

  /** `None` plays the part of a Java `null` reference. */
  datatype Option<+T> = None | Some(value: T)

  /** The outcome of a call that may fail with an error instead of returning. */
  datatype Result<+R, +E> = Success(value: R) | Failure(error: E)
}
