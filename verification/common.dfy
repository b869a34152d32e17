/** Failure-carrying values shared by the payment and intake models. */
module Common {

  /** A value that may be absent: the model of a C# nullable reference. */
  datatype Option<+T> = None | Some(value: T)

  /** Either a computed value or the error the source raises as an exception. */
  datatype Result<+T, +E> = Success(value: T) | Failure(error: E)
}
