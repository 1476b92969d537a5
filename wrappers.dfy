/** Optional values and results, as the server's Python code uses `None` and exceptions. */
module Wrappers {

  datatype Option<+T> = None | Some(value: T)

  /** A value, or the text of the exception that replaced it. */
  datatype Result<+T> = Ok(value: T) | Err(error: string)
}
