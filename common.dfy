/** Small helpers shared by every module of the dashboard model. */
module Common {

  /** A value that may be absent: JavaScript's `null`/`undefined`, Python's `None`. */
  datatype Option<+T> = None | Some(value: T) {

    /** The wrapped value, or `default` when absent (the `??` operator, `dict.get(k, d)`). */
    function GetOr(default: T): T {
      match this
      case Some(v) => v
      case None => default
    }
  }

  function Min(a: int, b: int): int { if a <= b then a else b }

  function Max(a: int, b: int): int { if a <= b then b else a }

  /** An ASCII decimal digit (what the regular-expression class `\d` matches). */
  predicate IsDigit(c: char) { '0' <= c <= '9' }
}
