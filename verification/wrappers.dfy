/** Failure-compatible result types shared by the gateway model. */
module Wrappers {

  /** An optional value; `None` stands for JavaScript's `-1`/`undefined` answers. */
  datatype Option<+T> = None | Some(value: T)

  /** The outcome of a configuration change: the new value, or the reason it was refused. */
  datatype Result<+T, +E> = Ok(value: T) | Err(error: E) {

    /** The new value, or `default` (the value before the change) when it was refused. */
    function GetOr(default: T): (r: T)
      ensures Ok? ==> r == value
      ensures Err? ==> r == default
    {
      match this
      case Ok(v) => v
      case Err(_) => default
    }
  }
}
