/** The optional-value and outcome types shared by every module of the model. */
module Wrappers {

  /** A value that may be missing: TypeScript's `T | undefined | null`. */
  datatype Option<+T> = None | Some(value: T)

  /** The outcome of an operation that may throw: `Err` carries what was thrown. */
  datatype Result<+T, +E> = Ok(value: T) | Err(error: E)
}
