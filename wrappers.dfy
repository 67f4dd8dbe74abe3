/** Option and Result, the failure-carrying datatypes used throughout the model.
    A Python call that raises is modelled as a `Failure` carrying the exception
    (its class or message), a call that returns as a `Success`. */
module Wrappers {

  datatype Option<+T> = None | Some(value: T)

  datatype Result<+R, +E> = Success(value: R) | Failure(error: E)
}
