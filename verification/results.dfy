/** Error-carrying results, standing in for Go's `(value, error)` return pairs. */
module Results {

  /** `Ok(v)` is a nil error with value `v`; `Err(e)` carries the error message. */
  datatype Result<T> = Ok(value: T) | Err(error: string)

  datatype Option<T> = None | Some(value: T)
}
