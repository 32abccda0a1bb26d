/** Small carriers used by every module. */
module Prelude {

  datatype Option<+T> = None | Some(value: T)

  /** Does some element of the sequence satisfy the test? */
  predicate Any<T>(s: seq<T>, test: T -> bool) {
    exists i :: 0 <= i < |s| && test(s[i])
  }
}
