/** Kotlin's nullable values (`T?`) as an explicit option type. */
module Options {

  datatype Option<+T> = None | Some(value: T) {

    /** The elvis operator `x ?: default`. */
    function OrElse(default: T): (r: T)
      ensures Some? ==> r == value
      ensures None? ==> r == default
    {
      match this
      case Some(v) => v
      case None => default
    }
  }
}
