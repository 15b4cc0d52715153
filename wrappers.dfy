/** Optional values (a JavaScript `null`/`undefined`, a Python `None`) and error results. */
module Wrappers {

  datatype Option<+T> = None | Some(value: T)

  /** A route either answers or raises an `HTTPException`. */
  datatype Result<+R, +E> = Success(value: R) | Failure(error: E)
}
