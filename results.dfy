/** Failure-carrying values shared by the model: the Python code raises an
    exception where these models return a Failure. */
module Results {

  /** A value that may be missing (for a real number, None stands for numpy's NaN). */
  datatype Option<+T> = None | Some(value: T)

  /** Either the value an operation returns or the exception it raises. */
  datatype Result<+T, +E> = Success(value: T) | Failure(error: E)
}
