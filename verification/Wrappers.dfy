/** Failure-free option values, used throughout the model for absent documents and fields. */
module Wrappers {
  datatype Option<+T> = None | Some(value: T)

  /** A text has one prefix before a suffix of given length. */
  lemma SplitsOnce<T>(v: seq<T>, rest: seq<T>, w: seq<T>, after: seq<T>)
    requires v + rest == w + after && |rest| == |after|
    ensures v == w && rest == after
  {
    assert v == (v + rest)[..|v|] && rest == (v + rest)[|v|..];
    assert w == (w + after)[..|w|] && after == (w + after)[|w|..];
  }
}
