/** Error-carrying results and optional values, as used by every stage of the
    blessing handler. A Go `(value, error)` pair becomes a `Result`; the error
    is kept as the text it would print with `%v`. */
module Results {

  datatype Result<T> = Ok(value: T) | Err(msg: string)

  /** A Go value that may be nil (an interface, a map). */
  datatype Option<T> = None | Some(value: T)
}
