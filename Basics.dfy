/** Small shared vocabulary: Java's nullable references, and duplicate-free sequences. */
module Basics {

  /** `None` stands for Java's `null`. */
  datatype Option<+T> = None | Some(value: T)

  /** No element occurs twice in `s`. */
  predicate Distinct<T(==)>(s: seq<T>) {
    forall i, j :: 0 <= i < j < |s| ==> s[i] != s[j]
  }

}
