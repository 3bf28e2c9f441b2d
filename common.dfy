/** Small value types shared by the modules of this model. */
module Common {

  /** A value that may be absent; `None` also stands for a JavaScript `undefined`. */
  datatype Option<+T> = None | Some(value: T) {

    /** The value, or `default` when absent (a JavaScript default parameter). */
    function GetOr(default: T): (r: T)
      ensures Some? ==> r == value
      ensures None? ==> r == default
    {
      match this
      case Some(v) => v
      case None => default
    }
  }
}
