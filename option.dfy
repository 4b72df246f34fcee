/** An optional value: a JavaScript property that may be `undefined` or `null`. */
module Optional {

  datatype Option<T> = None | Some(value: T) {

    /** The value, or `default` when absent (`x || default` where the value, if present, is a string whose emptiness the default does not change). */
    function GetOr(default: T): (r: T)
      ensures Some? ==> r == value
      ensures None? ==> r == default
    {
      match this
      case Some(v) => v
      case None => default
    }
  }
}
