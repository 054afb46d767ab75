/** Option and Result values, used for the source's nullable values and thrown errors. */
module Wrappers {

  datatype Option<+T> = None | Some(value: T)

  /** A value or the error that was raised instead of producing it. */
  datatype Result<+T, +E> = Ok(value: T) | Err(error: E)
}
