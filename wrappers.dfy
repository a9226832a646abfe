/** Result shapes shared by the ledger's modules. */
module Wrappers {
  /** A value that may be missing (a number that failed to parse, an absent slot). */
  datatype Option<T> = None | Some(value: T)

  /** The outcome of an operation that either succeeds or fails with an error. */
  datatype Outcome<E> = Pass | Fail(error: E)

  /** A value produced on success, or the error the operation threw. */
  datatype Result<T, E> = Success(value: T) | Failure(error: E)
}
