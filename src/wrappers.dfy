/** Option and Result, the two shapes every fallible operation of the model returns. */
module Wrappers {
  datatype Option<T> = None | Some(value: T)
  {
    predicate IsNone() { this.None? }

    function GetOr(default: T): T
    {
      match this
      case None => default
      case Some(v) => v
    }
  }

  datatype Result<T, E> = Ok(value: T) | Err(error: E)
  {
    predicate IsFailure() { this.Err? }
  }
}
