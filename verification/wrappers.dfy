/** Optional values and error-or-value results, used for the nullable fields
    of the records and for the validators that raise. */
module Wrappers {

  datatype Option<+T> = None | Some(value: T)

  datatype Result<+R, +E> = Success(value: R) | Failure(error: E)
}
