/** Optional values and success-or-error results, standing for the source's
    nullable references and its `{ success = false, message = ... }` replies. */
module Wrappers {

  datatype Option<+T> = None | Some(value: T)

  datatype Result<+R, +E> = Success(value: R) | Failure(error: E)
}
