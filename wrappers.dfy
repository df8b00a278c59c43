/** Optional values and results with an error, shared by every module of the model. */
module Wrappers {

  /** Python's `Optional[...]` / JavaScript's `undefined`: a value that may be absent. */
  datatype Option<+T> = None | Some(value: T)

  /** The outcome of an operation that either returns a value or raises an error. */
  datatype Result<+T, +E> = Ok(value: T) | Err(error: E)
}
