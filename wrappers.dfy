/** The success-or-error value that stands for a Python call which either
    returns or raises. */
module Wrappers {

  datatype Result<+T, +E> = Success(value: T) | Failure(error: E)
}
