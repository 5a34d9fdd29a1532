/** Small datatypes and helpers shared by the other modules. */
module Wrappers {

  /** A value that may be missing, such as an optional field of a JSON object. */
  datatype Option<T> = None | Some(value: T)

  /** The outcome of a computation that either produces a value or raises an error. */
  datatype Result<T, E> = Ok(value: T) | Err(error: E)

  /** The smaller of two integers, as Python's `min`. */
  function Min(a: int, b: int): int { if a <= b then a else b }
}
