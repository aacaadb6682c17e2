/** Small value wrappers shared by every module of the model. */
module Base {
  /** A value that may be absent: Go's `(v, ok)` pairs and nil pointers. */
  datatype Option<+T> = None | Some(value: T)

  /** A value or an error message: Go's `(v, error)` return pairs. */
  datatype Result<+T> = Ok(value: T) | Err(msg: string)

  function Min(a: int, b: int): int { if a <= b then a else b }
  function Max(a: int, b: int): int { if a >= b then a else b }
}
