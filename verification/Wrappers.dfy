/** An optional value and the size of a subset, shared by every module. */
module Wrappers {
  datatype Option<+T> = None | Some(value: T)

  lemma AtMost<T>(a: set<T>, b: set<T>)
    requires a <= b
    ensures |a| <= |b|
  {
    assert b == a + (b - a);
  }
}
