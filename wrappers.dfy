/** Failure-compatible values used across the model: Swift optionals become
    `Option`, and a Swift `throws` whose error the caller can observe becomes
    an `Outcome` (or a `Result` when it also returns a value). */
module Wrappers {

  datatype Option<+T> = None | Some(value: T)

  datatype Outcome<+E> = Pass | Fail(error: E)

  /** A throwing Swift function that returns a value on success. */
  datatype Result<+T, +E> = Success(value: T) | Failure(error: E)
}
