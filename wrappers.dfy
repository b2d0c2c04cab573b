/** Failure-compatible wrappers shared by the other modules. */
module Wrappers {

  /** A raw input that may not parse as a number: `None` is an unparseable value. */
  datatype Option<T> = None | Some(value: T)

  /** The outcome of an operation that throws (or yields a not-a-number marker) in the program. */
  datatype Result<T, E> = Ok(value: T) | Err(error: E)
}
