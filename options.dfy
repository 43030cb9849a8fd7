/** The optional value used wherever the Python code returns `None` or looks up
    a key that may be missing. */
module Options {

  datatype Option<T> = None | Some(value: T) {

    /** `d.get(key, default)` once the lookup has been done: the value, or the default. */
    function GetOr(default: T): T {
      match this
      case Some(v) => v
      case None => default
    }
  }
}
