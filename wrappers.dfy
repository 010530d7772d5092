/** Optional values: the model's stand-in for pandas' missing marker (NaN). */
module Wrappers {

  datatype Option<+T> = None | Some(value: T)

  /** A value or the error the source raises instead of returning one. */
  datatype Result<+T, +E> = Success(value: T) | Failure(error: E)
}
