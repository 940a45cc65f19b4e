/** Small shared notions: a value that may be missing (Python's None, a key that is not in a map,
    a lookup that fails) and lists without repetition. */
module Wrappers {
  datatype Option<+T> = None | Some(value: T)

  ghost predicate NoDup<T>(s: seq<T>) {
    forall i, j :: 0 <= i < j < |s| ==> s[i] != s[j]
  }
}
