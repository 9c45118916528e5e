/** Optional values and error results, used where the source returns `undefined` or throws. */
module Wrappers {

  /** A value that may be absent (`undefined` in the source). */
  datatype Option<+T> = None | Some(value: T)

  /** The outcome of an operation that throws an `Error` with a message in the source. */
  datatype Result<+T> = Ok(value: T) | Err(message: string)
}
