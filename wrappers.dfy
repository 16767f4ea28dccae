/** Option and Result: a missing value (a C# null) and an operation that can fail (a thrown exception). */
module Wrappers {

  datatype Option<+T> = None | Some(value: T)

  datatype Result<+T, +E> = Success(value: T) | Failure(error: E)
}
