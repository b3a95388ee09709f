/** Optional values and fallible results, shared by every module of the model. */
module Wrappers {
  datatype Option<T> = None | Some(value: T)
  {
    function UnwrapOr(default: T): (r: T)
      ensures this.Some? ==> r == value
      ensures this.None? ==> r == default
    {
      match this
      case Some(v) => v
      case None => default
    }
  }

  /** A value or the error that prevented it, as the source's `Result<T, E>`. */
  datatype Result<T, E> = Ok(value: T) | Err(error: E)
}
