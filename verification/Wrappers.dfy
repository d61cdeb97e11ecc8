/** Values that may be missing, and results of calls that may fail. */
module Wrappers {
  datatype Option<+T> = None | Some(value: T)

  /** A Go result with an error, of which only the text matters. */
  datatype Result<+T> = Ok(value: T) | Err(message: string)
}
