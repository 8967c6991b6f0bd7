/** A value, or the reason there is none. */
module Results {

  datatype Result<+T, +E> = Success(value: T) | Failure(error: E)
}
