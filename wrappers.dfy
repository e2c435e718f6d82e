/** Optional values and success/failure results, used for the `T | null`
    fields, the optional `id?` members and the outcome of a remote call. */
module Wrappers {

  datatype Option<+T> = None | Some(value: T)

  datatype Result<+R, +E> = Success(value: R) | Failure(error: E)
}
