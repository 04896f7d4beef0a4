/** Optional values and failure-carrying results. */
module Wrappers {

  /** A value that may be absent, standing in for a C# reference that may be null. */
  datatype Option<+T> = None | Some(value: T)

  /** A computed value or the error that stopped the computation. */
  datatype Result<+T, +E> = Success(value: T) | Failure(error: E)

  /** Normal completion, or the exception an operation throws. */
  datatype Outcome<+E> = Pass | Fail(error: E)
}
