/** Optional values and results, shared by the modules of the model. */
module Wrappers {
  datatype Option<+T> = None | Some(value: T)

  /** A call's value, or the message of the error it returned. */
  datatype Result<+T> = Ok(value: T) | Err(error: string)
}
