/** The `Option` and `Result` types shared by the model. */
module Wrappers {

  /** A value that may be absent: a collaborator call that did not answer. */
  datatype Option<+T> = None | Some(value: T)

  /** The outcome of a step that either produces a value or raises an error. */
  datatype Result<+R, +E> = Success(value: R) | Failure(error: E)
}
