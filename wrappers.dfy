/** The optional-value datatype shared by the model. */
module Wrappers {

  /** `Some(v)` for a value that was produced, `None` for one that was not. */
  datatype Option<+T> = None | Some(value: T) {

    /** Returns the wrapped value, or `default` for `None`. */
    function GetOr(default: T): T
    {
      match this
      case Some(v) => v
      case None => default
    }
  }
}
