/** The two failure carriers the model uses in place of C++ exceptions and std::optional. */
module Wrappers {

  datatype Option<+T> = None | Some(value: T)

  datatype Result<+T, +E> = Success(value: T) | Failure(error: E)
}
