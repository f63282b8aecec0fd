/** Failure-carrying values used in place of nulls and exceptions. */
module Wrappers {

  /** A nullable value: `None` stands for the source's `null`. */
  datatype Option<+T> = None | Some(value: T)

  /** A value or the error that was thrown instead of returning it. */
  datatype Result<+T, +E> = Ok(value: T) | Err(error: E)

  /** The completion of an operation that returns nothing (a `Task`), or the error it threw. */
  datatype Outcome<+E> = Pass | Fail(error: E)
}
