/** Optional values (Python's `Optional[T]` / `None`) and success-or-error
    results (a call that either returns or raises). */
module Wrappers {

  datatype Option<+T> = None | Some(value: T)

  datatype Result<+R, +E> = Ok(value: R) | Err(error: E)
}
