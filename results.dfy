/** The failure-carrying values that stand for the exceptions the codec raises. */
module Results {

  /** A value, or the error that replaced it. */
  datatype Result<+T, +E> = Ok(value: T) | Err(error: E)

  /** A check that either passes or fails with an error (a function returning `None` or raising). */
  datatype Outcome<+E> = Pass | Fail(error: E)
}
