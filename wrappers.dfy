/** Optional values and results with an error, used wherever the source returns `undefined`
    or throws. */
module Wrappers {

  /** `None` stands for JavaScript's `undefined` (an absent field or argument). */
  datatype Option<+T> = None | Some(value: T) {
    function GetOr(default: T): T {
      match this
      case Some(v) => v
      case None => default
    }
  }

  /** `Err` stands for a thrown exception (or a rejected promise). */
  datatype Result<+T, +E> = Ok(value: T) | Err(error: E)
}
