/** Optional values and fallible results, used for the nullable fields of the
    app state and for the promises that either resolve or throw. */
module Wrappers {

  datatype Option<+T> = None | Some(value: T)

  /** A settled promise: it resolved with a value or it rejected with an error message. */
  datatype Result<+R> = Success(value: R) | Failure(error: string)
}
