/** A value that may be absent: JavaScript's `null`/`undefined` and a missing storage key. */
module Optional {

  datatype Option<T> = None | Some(value: T) {

    /** The value if present, otherwise `default` (JavaScript's `x !== undefined ? x : default`). */
    function GetOr(default: T): T {
      if Some? then value else default
    }
  }
}
