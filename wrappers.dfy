/** Failure-carrying results: the model's stand-in for Java's null and exceptions. */
module Wrappers {

  /** A value that may be absent (a Java `null`). */
  datatype Option<T> = None | Some(value: T)

  /** A computation that either yields a value or fails with an error (a thrown exception). */
  datatype Result<T, E> = Ok(value: T) | Err(error: E)

  /** A side-effect-only computation that either completes or fails with an error. */
  datatype Outcome<E> = Pass | Fail(error: E)
}
