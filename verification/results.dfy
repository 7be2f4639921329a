/** Failure-carrying wrappers shared by the rest of the model. */
module Results {

  /** A value that may be absent: an unset setting, a missing dictionary key. */
  datatype Option<T> = None | Some(value: T)

  /** Either a value or the error that took its place (a raised exception). */
  datatype Result<T, E> = Success(value: T) | Failure(error: E)
}
