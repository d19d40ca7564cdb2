/** Optional values and results shared by every module of the model. */
module Wrappers {
  /** A value that may be absent: Java's null, Python's None, JavaScript's undefined. */
  datatype Option<T> = None | Some(value: T) {
    predicate IsSome() { Some? }
    function GetOr(default: T): T {
      match this
      case Some(v) => v
      case None => default
    }
  }

  /** The outcome of an operation that may throw. */
  datatype Result<T, E> = Ok(value: T) | Err(error: E) {
    predicate IsOk() { Ok? }
  }
}
