module Options {
  /** A value that may be absent: SQL NULL, Python `None`, or the result of a call that raised. */
  datatype Option<+T> = None | Some(value: T)

  function Else<T>(o: Option<T>, default: T): T {
    match o
    case None => default
    case Some(v) => v
  }
}
