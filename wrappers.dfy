/** Kotlin's nullable types (`String?`) are modelled as Option. */
module Wrappers {

  datatype Option<+T> = None | Some(value: T) {

    /** `x ?: default` */
    function GetOr(default: T): (r: T)
      ensures Some? ==> r == value
      ensures None? ==> r == default
    {
      match this
      case Some(v) => v
      case None => default
    }
  }
}
