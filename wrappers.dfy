/** Optional values (Kotlin's nullable `T?`) and results that either carry a
    value or the error the source would throw. */
module Wrappers {

  datatype Option<+T> = None | Some(value: T)

  datatype Result<+R, +E> = Success(value: R) | Failure(error: E)
}
