/** Optional values and outcomes that may fail, used where the source returns None or raises. */
module Wrappers {

  datatype Option<+T> = None | Some(value: T)

  /** `Err` stands for an exception the source raises; `error` says which one. */
  datatype Result<+T, +E> = Ok(value: T) | Err(error: E)
}
