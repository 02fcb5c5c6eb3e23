/** Optional values and fallible results. JavaScript's `undefined`/`null`
    fields become `None`; a thrown `Error` becomes `Err` carrying its message. */
module Wrappers {

  datatype Option<+T> = None | Some(value: T) {
    /** `x ?? d`: the value when present, the default otherwise. */
    function GetOr(default: T): T
    {
      match this
      case Some(v) => v
      case None => default
    }
  }

  datatype Result<+T> = Ok(value: T) | Err(message: string)
}
