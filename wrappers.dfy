/** Option and Result, the failure-carrying values the model uses in place of
    JavaScript's null/undefined and of validation alerts. */
module Wrappers {

  /** A value that may be missing: `None` stands for `null` or `undefined`. */
  datatype Option<+T> = None | Some(value: T)

  /** The outcome of a check that either yields a value or names why it failed. */
  datatype Result<+T, +E> = Ok(value: T) | Err(error: E)
}
