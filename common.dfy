/** Option and Result, the two failure-carrying wrappers the engine uses. */
module Common {

  datatype Option<+T> = None | Some(value: T)

  datatype Result<+R, +E> = Ok(value: R) | Err(error: E)

  function Min(a: int, b: int): int
  {
    if a <= b then a else b
  }
}
