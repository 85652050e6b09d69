/** Option and Result values standing in for .NET's null references and exceptions. */
module Results {

  /** A value that may be absent, as a .NET reference that may be null. */
  datatype Option<+T> = None | Some(value: T)

  /** Either a computed value or the reason the computation would have thrown. */
  datatype Result<+T, +E> = Success(value: T) | Failure(error: E)
}
