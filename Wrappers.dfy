/** Option and Result: the absent value (`undefined`, `null`) and the thrown
    error of the modelled JavaScript, as values. */
module Wrappers {

  datatype Option<+T> = None | Some(value: T)

  datatype Result<+R, +E> = Success(value: R) | Failure(error: E)
}
