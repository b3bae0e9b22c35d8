/** An optional value: JavaScript's `undefined` / absent property on one side, a value on the other. */
module Optional {
  datatype Option<+T> = None | Some(value: T) {
    /** The value if present, otherwise `default`. */
    function GetOr(default: T): T {
      match this
      case Some(v) => v
      case None => default
    }
  }
}
