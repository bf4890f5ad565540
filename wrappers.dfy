/** Optional values and results: Python's `None` and raised exceptions made explicit. */
module Wrappers {

  datatype Option<+T> = None | Some(value: T) {
    function GetOr(default: T): T {
      match this
      case Some(v) => v
      case None => default
    }
  }

  /** `Err` stands for an exception the Python code lets propagate (or swallows one level up). */
  datatype Result<+T> = Ok(value: T) | Err
}
