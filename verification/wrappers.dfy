/** The optional-value type shared by the modules of this model. */
module Wrappers {

  /** A value that may be absent: `None` stands for the source's `undefined`
      or for a computation that cannot produce a value. */
  datatype Option<+T> = None | Some(value: T) {

    /** The wrapped value, or `default` when there is none (the `??` operator). */
    function GetOr(default: T): (r: T)
      ensures Some? ==> r == value
      ensures None? ==> r == default
    {
      match this
      case Some(v) => v
      case None => default
    }
  }
}
