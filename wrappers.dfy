/** Option stands for the source's `T | null` values, Result for an
    operation that either returns a value or throws an error. */
module Wrappers {

  datatype Option<+T> = None | Some(value: T)

  datatype Result<+T, +E> = Ok(value: T) | Err(error: E)
}
