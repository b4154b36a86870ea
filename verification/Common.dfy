/** Datatypes shared by the component models. */
module Common {
  datatype Option<+T> = None | Some(value: T)

  /** How an operating-system command, file operation or service call ended. */
  datatype Verdict = Success | Failure | Crash

  lemma SubsetCard<T>(a: set<T>, b: set<T>)
    requires a <= b
    ensures |a| <= |b|
  {
    assert b == a + (b - a);
  }
}
