/** Optional values and error returns, used where the Python code leaves an
    attribute unset or raises. */
module Results {

  datatype Option<T> = None | Some(value: T)

  datatype Result<T, E> = Ok(value: T) | Err(error: E)
}
