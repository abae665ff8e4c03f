/** The absent-or-present and success-or-failure values shared by every module. */
module Wrappers {

  /** A Python value that may be `None`. */
  datatype Option<+T> = None | Some(value: T)

  /** A call that either returns a value or raises an exception described by `error`. */
  datatype Result<+T, +E> = Ok(value: T) | Err(error: E)
}
