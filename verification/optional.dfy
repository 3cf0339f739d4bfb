/** JavaScript's `null`/`undefined` versus a present value. */
module Optional {

  datatype Option<+T> = None | Some(value: T) {

    /** The value, or `default` when absent; agrees with `x || default` when every falsy present value equals `default`. */
    function GetOr(default: T): (r: T)
      ensures Some? ==> r == value
      ensures None? ==> r == default
    {
      match this
      case Some(v) => v
      case None => default
    }
  }
}
