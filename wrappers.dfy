/** Optional values and results with an error message, for the operations
    of the source that return `null` or throw. */
module Wrappers {
  datatype Option<T> = None | Some(value: T)

  datatype Result<T> = Ok(value: T) | Err(message: string)
  {
    predicate IsOk() { Ok? }
  }
}
