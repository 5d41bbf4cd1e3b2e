/** Optional values and fallible results shared by every module of the model. */
module Wrappers {

  /** A value that may be missing: JavaScript's `undefined` / a failed `find`. */
  datatype Option<+T> = None | Some(value: T)

  /** The outcome of an operation that may fail with an error description. */
  datatype Result<+T> = Ok(value: T) | Err(error: string)
}
