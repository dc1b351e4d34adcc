/** Failure-carrying values shared by every module of the model. */
module Wrappers {

  /** A value that may be missing: a ledger read or a quote that failed. */
  datatype Option<+T> = None | Some(value: T)

  /** The outcome of a step that either yields a value or throws. */
  datatype Result<+T, +E> = Ok(value: T) | Err(error: E)
}
