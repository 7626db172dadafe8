/** Java references that may be null, and Java expressions that may throw. */
module Nullable {

  /** A Java reference that may be null. */
  datatype Option<+T> = None | Some(value: T) {

    /** Java's `x != null ? x : fallback`. */
    function GetOr(fallback: T): T {
      if Some? then value else fallback
    }
  }

  /** The value of a Java expression, or the NullPointerException it throws at a source line. */
  datatype Eval<+T> = Value(value: T) | NullPointer(line: nat)
}
