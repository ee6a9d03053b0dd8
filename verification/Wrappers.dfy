/** Result types shared by the other modules. */
module Wrappers {

  datatype Option<+T> = None | Some(value: T)

  /** The outcome of an operation that a Go caller sees as a returned error. */
  datatype Outcome = Ok | ErrTaskNotFound

  /** There is always an unused identifier. */
  lemma {:induction false} SomeUnused(used: set<nat>) returns (n: nat)
    ensures forall k :: k in used ==> k < n
  {
    if used == {} {
      n := 0;
    } else {
      var k :| k in used;
      n := SomeUnused(used - {k});
      assert forall j :: j in used ==> j == k || j in used - {k};
      n := if n <= k then k + 1 else n;
    }
  }
}
