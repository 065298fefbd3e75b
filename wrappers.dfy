/** Option and Result, the two failure-carrying shapes the model uses
    for missing JSON keys, absent values and raised exceptions. */
module Wrappers {

  datatype Option<+T> = None | Some(value: T) {
    /** Python's `d.get(key, default)`: the value when present, else the default. */
    function GetOr(default: T): T {
      match this
      case Some(v) => v
      case None => default
    }
  }

  datatype Result<+R, +E> = Ok(value: R) | Err(error: E)
}
