/** The optional and fallible results the model returns where the source
  * returns null or throws. */
module Results {

  datatype Option<T> = None | Some(value: T)

  /** The outcome of an operation that either returns a value or throws the
    * exception named by `E`. */
  datatype Result<T, E> = Success(value: T) | Failure(error: E)
}
