/** Optional values and results with an error, used for the IDE's nullable
    returns and for the IOException that a file copy may raise. */
module Wrappers {

  datatype Option<+T> = None | Some(value: T)

  datatype Result<+R, +E> = Success(value: R) | Failure(error: E)
}
