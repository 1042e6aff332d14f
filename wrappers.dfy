/** Optional values and results with an error message, shared by the other modules. */
module Wrappers {

  /** A value that may be absent: Go's nil pointer becomes None. */
  datatype Option<+T> = None | Some(value: T)

  /** The outcome of a check: a value, or the message reported to the client. */
  datatype Result<+T> = Ok(value: T) | Err(error: string)
}
