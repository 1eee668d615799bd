/** Option and Result wrappers used across the model: Kotlin's nullable
    references become Option, and an operation that can throw becomes Result. */
module Wrappers {

  /** A Kotlin `T?`: None plays the part of `null`. */
  datatype Option<+T> = None | Some(value: T)

  /** The outcome of a step that either produces a value or throws. */
  datatype Result<+R, +E> = Success(value: R) | Failure(error: E)
}
