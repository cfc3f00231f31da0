/** Small shared vocabulary: JavaScript's `T | null` becomes an Option. */
module Common {

  /** `None` stands for `null` (or `undefined`), `Some(v)` for a present value. */
  datatype Option<+T> = None | Some(value: T) {

    /** The `??` operator: the value if present, otherwise `default`. */
    function GetOr(default: T): T {
      match this
      case Some(v) => v
      case None => default
    }
  }
}
