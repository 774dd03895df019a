/** Failure-carrying values: Go's `(value, error)` pairs and nil-able values. */
module Results {

  datatype Option<+T> = None | Some(value: T)

  datatype Result<+T, +E> = Ok(value: T) | Err(error: E)
}
