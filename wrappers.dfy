/** Optional values and results with an error, used for the absent emotion
    sample and for a survey that runs out of input. */
module Wrappers {

  datatype Option<+T> = None | Some(value: T)

  datatype Result<+R, +E> = Success(value: R) | Failure(error: E)
}
