/** Option and Result values shared by the modules of this model. */
module Wrappers {

  /** An optional value: a nullable or `undefined`-able field of a record. */
  datatype Option<+T> = None | Some(value: T)

  /** The outcome of a validation: the checked value, or what went wrong. */
  datatype Result<+R, +E> = Success(value: R) | Failure(error: E)
}
