/** The shape shared by the form validators (`validateLoginInputs`,
    `validateRegisterInputs`, `validateAndSubmit`): a `when` chain of checks in a
    fixed order, where the first check that fails decides the error. */
module Validation {
  import opened Net

  /** One branch of a `when` chain: the condition that fails it, and its error. */
  datatype Check<+E> = Check(fails: bool, error: E)

  /** The error of the first failing check, or None when every check passes. */
  function FirstFailure<E>(checks: seq<Check<E>>): (r: Option<E>)
    ensures r == None <==> forall i :: 0 <= i < |checks| ==> !checks[i].fails
    ensures r != None ==> exists i :: 0 <= i < |checks| && checks[i].fails && checks[i].error == r.value
                                      && forall j :: 0 <= j < i ==> !checks[j].fails
  {
    if checks == [] then None
    else if checks[0].fails then Some(checks[0].error)
    else
      var r := FirstFailure(checks[1..]);
      assert r != None ==> exists i :: 1 <= i < |checks| && checks[i].fails && checks[i].error == r.value
                                      && forall j :: 0 <= j < i ==> !checks[j].fails by {
        if r != None {
          var i :| 0 <= i < |checks| - 1 && checks[1..][i].fails && checks[1..][i].error == r.value
                   && forall j :: 0 <= j < i ==> !checks[1..][j].fails;
          assert forall j :: 1 <= j < i + 1 ==> !checks[j].fails by {
            forall j | 1 <= j < i + 1 ensures !checks[j].fails {
              assert checks[1..][j - 1] == checks[j];
            }
          }
        }
      }
      r
  }

  /** A check that fails before every later one decides the result, whatever
      the later checks say. */
  lemma {:induction false} EarlierFailureWins<E>(checks: seq<Check<E>>, k: nat)
    requires k < |checks| && checks[k].fails
    requires forall j :: 0 <= j < k ==> !checks[j].fails
    ensures FirstFailure(checks) == Some(checks[k].error)
  {
    if k > 0 {
      EarlierFailureWins(checks[1..], k - 1);
    }
  }
}
