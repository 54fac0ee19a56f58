/** Optional values and results with an error, shared by the other modules. */
module Wrappers {

  /** A value that may be missing: an optional field, `undefined`, Python's `None`. */
  datatype Option<+T> = None | Some(value: T)

  /** The outcome of an operation that may raise: its value, or the error it raises. */
  datatype Result<+R, +E> = Success(value: R) | Failure(error: E)
}
