/** Optional values and results, the stand-ins for `null` and for thrown errors. */
module Wrappers {

  /** A value that may be absent: the model of a TypeScript `T | null`. */
  datatype Option<+T> = None | Some(value: T)

  /** The outcome of an operation that can fail with an error of type `E`. */
  datatype Result<+R, +E> = Success(value: R) | Failure(error: E)
}
