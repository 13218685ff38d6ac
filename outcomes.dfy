/** Values shared by the three provisioning models. */
module Outcomes {

  datatype Option<+T> = None | Some(value: T)

  /** How a provisioning call ended: it returned normally, or an exception propagated out of it. */
  datatype Outcome<+E> = Returned | Raised(error: E)

  /** Concatenation regroups: the requests of consecutive parts form one log however they are grouped. */
  lemma Associative<T>(a: seq<T>, b: seq<T>, c: seq<T>)
    ensures a + b + c == a + (b + c)
  {
  }
}
