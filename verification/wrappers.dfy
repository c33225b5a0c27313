/** Optional values and outcomes of operations that may raise. */
module Wrappers {

  datatype Option<+T> = None | Some(value: T)

  /** `Err` stands for a Python exception; `error` is its message. */
  datatype Result<+T> = Ok(value: T) | Err(error: string)
}
