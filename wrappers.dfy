/** Optional values and fallible results, used wherever the source has a
    value that may be `undefined`/`null` or an operation that may throw. */
module Wrappers {

  datatype Option<+T> = None | Some(value: T)

  datatype Result<+T, +E> = Ok(value: T) | Err(error: E)
}
