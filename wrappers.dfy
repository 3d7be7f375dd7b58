/** Failure-carrying values shared by every module of the model. */
module Wrappers {

  /** An optional value: Go's nil-or-value results (a missing ledger key, a failed parse). */
  datatype Option<+T> = None | Some(value: T)

  /** A value or an error: Go's `(value, error)` pairs, where the value is meaningless on error. */
  datatype Result<+T, +E> = Ok(value: T) | Err(error: E)
}
