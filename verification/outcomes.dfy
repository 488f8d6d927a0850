/** Success/failure values standing in for the exceptions the modelled code raises. */
module Outcomes {

  /** Either the value an operation returns or the error it would raise. */
  datatype Result<+T, +E> = Success(value: T) | Failure(error: E)
}
