/** An optional value, for results that may be missing. */
module Options {
  datatype Option<T> = None | Some(value: T) {
    /** The value, or `default` when there is none: PHP's `??` operator. */
    function GetOr(default: T): T
    {
      match this
      case Some(v) => v
      case None => default
    }
  }
}
