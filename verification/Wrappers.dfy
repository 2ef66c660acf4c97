module Wrappers {
  datatype Option<+T> = None | Some(value: T)

  /** What a call that may throw leaves its caller with. */
  datatype Attempt<+T> = Returned(value: T) | Thrown

  ghost predicate Distinct<T>(s: seq<T>)
  {
    forall i, j :: 0 <= i < j < |s| ==> s[i] != s[j]
  }
}
