/** Null-or-value and value-or-exception results used by the asset model. */
module Wrappers {

  /** A reference that may be null: `None` stands for C#'s `null` / `default`. */
  datatype Option<+T> = None | Some(value: T)

  /** The outcome of a call that either returns a value or throws. */
  datatype Result<+R, +E> = Success(value: R) | Failure(error: E)
}
