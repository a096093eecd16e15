/** Option and Result values used where the source returns `Option` or `Result`. */
module Wrappers {

  datatype Option<+T> = None | Some(value: T)

  /** A result whose error carries a human-readable message, as the source's `Result<T, String>`. */
  datatype Result<+T> = Ok(value: T) | Err(error: string)
}
