/** Shared result types. */
module Wrappers {
  datatype Option<+T> = None | Some(value: T)

  /** A value, or the code of the error the source throws. */
  datatype Result<+T> = Ok(value: T) | Err(error: string)
}
