/** A value that may be missing: JavaScript's `undefined` next to a present value. */
module Options {

  datatype Option<+T> = None | Some(value: T) {

    /** Returns the present value, or `default` when it is missing. */
    function GetOr(default: T): T {
      match this
      case Some(v) => v
      case None => default
    }
  }
}
