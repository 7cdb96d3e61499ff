/** A value, or the exception the source raises instead. */
module Results {

  datatype Result<+T, +E> = Ok(value: T) | Raised(error: E)

  datatype Option<+T> = None | Some(value: T)
}
