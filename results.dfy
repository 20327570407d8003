/** Option and Result values for the lookups that can miss and the operations that can throw. */
module Results {

  /** A value that may be absent: a C# nullable (`Guid?`, `DateTime?`) or a lookup that can miss. */
  datatype Option<+T> = None | Some(value: T)

  /** The outcome of an operation that either returns a value or throws. */
  datatype Result<+T, +E> = Success(value: T) | Failure(error: E)

  /** The outcome of a `void` operation that either completes or throws. */
  datatype Outcome<+E> = Pass | Fail(error: E)
}
