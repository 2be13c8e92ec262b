/** Option and Result values, used for lookups and for the error paths of the logger. */
module Wrappers {

  datatype Option<+T> = None | Some(value: T)

  /** Either a value or the error that interrupted the operation (a thrown exception in the source). */
  datatype Result<+T, +E> = Ok(value: T) | Err(error: E)
}
