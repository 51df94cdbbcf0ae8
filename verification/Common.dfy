/** Vocabulary shared by every component of the model. */
module Common {

  datatype Option<+T> = None | Some(value: T)

  /** A uuid4 read as a number. Two jobs never share one. */
  type JobId = nat

  ghost predicate NoDup<T>(s: seq<T>) {
    forall i, j :: 0 <= i < j < |s| ==> s[i] != s[j]
  }

  /** Python's truth value of an optional error string: None and "" are both false. */
  predicate Truthy(error: Option<string>) {
    error.Some? && error.value != ""
  }
}
