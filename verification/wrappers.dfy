/** Optional values and results, standing in for Java's nullable references and thrown exceptions. */
module Wrappers {

  /** A value that may be absent (a Java field or argument that may be null). */
  datatype Option<+T> = None | Some(value: T)

  /** The outcome of an operation that either yields a value or fails with an error. */
  datatype Result<+T, +E> = Success(value: T) | Failure(error: E)
}
