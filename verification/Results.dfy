/** Failure-carrying wrappers used where the Java code returns null or throws. */
module Results {

  /** A value that may be absent (Java's `null`). */
  datatype Option<+T> = None | Some(value: T)

  /** A value or the error that prevented computing it (an unchecked Java exception). */
  datatype Result<+T, +E> = Ok(value: T) | Err(error: E)
}
