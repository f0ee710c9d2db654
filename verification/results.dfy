/** Optional values and error-carrying results, the model's stand-in for
    Go's `(value, error)` return pairs. */
module Results {

  datatype Option<+T> = None | Some(value: T)

  datatype Result<+T, +E> = Ok(value: T) | Err(error: E)
}
