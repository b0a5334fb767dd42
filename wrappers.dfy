/** Optional values and error-carrying results, used wherever the pipeline
  * returns None or raises instead of producing a value. */
module Wrappers {

  datatype Option<T> = None | Some(value: T)
  {
    predicate IsSome() { this.Some? }

    function GetOr(default: T): (r: T)
      ensures this.Some? ==> r == this.value
      ensures this.None? ==> r == default
    {
      match this
      case Some(v) => v
      case None => default
    }
  }

  /** The exceptions the pipeline raises (ValueError, ZeroDivisionError,
    * sys.exit) become the `Err` case with a short description. */
  datatype Result<T> = Ok(value: T) | Err(error: string)
}
