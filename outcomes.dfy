/** Failure-carrying values used throughout the model. */
module Outcomes {

  datatype Option<T> = None | Some(value: T)

  /** A computed value, or the exception the source code would throw instead. */
  datatype Result<T, E> = Ok(value: T) | Err(error: E)

  /** A completed statement, or the exception it threw. */
  datatype Outcome<E> = Pass | Fail(error: E)
}
