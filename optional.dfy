/** Optional values: a dictionary key that may be missing. */
module Optional {

  datatype Option<T> = None | Some(value: T) {

    /** The value when present, otherwise `default`: the effect of
        Python's `d.get(key, default)` on a key that may be absent. */
    function GetOr(default: T): (r: T)
      ensures Some? ==> r == value
      ensures None? ==> r == default
    {
      match this
      case Some(v) => v
      case None => default
    }
  }
}
