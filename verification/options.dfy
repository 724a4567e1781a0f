/** The optional value used wherever the source reads a key that may be absent
    (dict.get without a default, a lookup that may raise DoesNotExist). */
module Options {

  datatype Option<+T> = None | Some(value: T) {

    /** The value, or `default` when there is none (Python's dict.get(key, default)). */
    function GetOr(default: T): T {
      match this
      case Some(v) => v
      case None => default
    }
  }
}
