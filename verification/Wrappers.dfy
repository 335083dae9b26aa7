/** What the whole project shares: a value that may be missing, and the size of a subset. */
module Wrappers {

  /** A value, or nothing. */
  datatype Option<+T> = None | Some(value: T)

  lemma SubsetSize<T>(a: set<T>, b: set<T>)
    requires a <= b
    ensures |a| <= |b|
  {
    assert b == a + (b - a);
  }
}
