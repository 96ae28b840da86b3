// Optional values and outcomes that may fail, shared by every codec.
module Wrappers {

  /** A value that may be absent (`std::optional`, or a null pointer). */
  datatype Option<T> = None | Some(value: T)
  {
    function GetOr(default: T): (r: T)
      ensures Some? ==> r == value
      ensures None? ==> r == default
    {
      match this
      case Some(v) => v
      case None => default
    }
  }

  /** The outcome of an operation that may throw: the exception is the
      `Failure`, with a word on why. */
  datatype Result<T> = Success(value: T) | Failure(error: string)
}
