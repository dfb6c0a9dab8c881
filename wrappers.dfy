/** Failure-carrying values shared by the other modules. */
module Wrappers {

  /** A value that may be absent: a missing object key, a null, or an undefined quotient. */
  datatype Option<+T> = None | Some(value: T)

  /** The outcome of an operation that can be refused. */
  datatype Result<+T, +E> = Ok(value: T) | Err(error: E)
}
