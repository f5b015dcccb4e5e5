/** Optional values and results with an error, for the plugin's "no match"
    answers and its download failures. */
module Wrappers {

  datatype Option<+T> = None | Some(value: T)

  datatype Result<+R, +E> = Success(value: R) | Failure(error: E)
}
