/** Optional values and results with an error, used for "none" answers of the
    providers and for the failure paths of the planner. */
module Wrappers {

  datatype Option<+T> = None | Some(value: T)

  datatype Result<+T, +E> = Success(value: T) | Failure(error: E)
}
