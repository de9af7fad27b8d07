/** Failure-compatible wrappers shared by every module of the model. */
module Common {

  /** A value that may be absent (JavaScript's `undefined`, a missing constructor argument). */
  datatype Option<+T> = None | Some(value: T)

  /** The outcome of an operation that can throw in the source. */
  datatype Result<+R, +E> = Success(value: R) | Failure(error: E)
}
