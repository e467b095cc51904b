/** Optional values and error results shared by the other modules. */
module Wrappers {

  datatype Option<+T> = None | Some(value: T)

  /** The outcome of an operation that the program aborts with an exception. */
  datatype Result<+T, +E> = Ok(value: T) | Err(error: E)
}
