/** Option, as used by every other module for "may be missing" and "step not possible". */
module Wrappers {
  datatype Option<+T> = None | Some(value: T)

  lemma Assoc<T>(x: seq<T>, y: seq<T>, z: seq<T>)
    ensures x + (y + z) == x + y + z
  {
  }

  /** A sequence is its front and its last element. */
  lemma FrontAndLast<T>(a: seq<T>, b: seq<T>)
    requires b != []
    ensures b == b[..|b| - 1] + [b[|b| - 1]] && a + b == a + b[..|b| - 1] + [b[|b| - 1]]
  {
  }
}
