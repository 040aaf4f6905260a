/** Optional values and failing results, the way the backend reports "nothing"
    (an empty dict) and HTTP errors. */
module Wrappers {

  datatype Option<+T> = None | Some(value: T)

  datatype Result<+R, +E> = Success(value: R) | Failure(error: E)
}
