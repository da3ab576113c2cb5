/**
 * An ordered chain of early-return checks, as the form validators write them:
 * the first failing check's message is the answer.
 */
module Validation {
  import opened Wrappers

  datatype Check = Check(fails: bool, message: string)

  predicate AllPass(checks: seq<Check>) {
    forall i | 0 <= i < |checks| :: !checks[i].fails
  }

  /** The index of the first failing check, if any. */
  function FirstFailingFrom(checks: seq<Check>, from: nat): (r: Option<nat>)
    requires from <= |checks|
    ensures r.Some? ==> from <= r.value < |checks| && checks[r.value].fails
    ensures r.Some? ==> forall j | from <= j < r.value :: !checks[j].fails
    ensures r.None? ==> forall j | from <= j < |checks| :: !checks[j].fails
    decreases |checks| - from
  {
    if from == |checks| then None
    else if checks[from].fails then Some(from)
    else FirstFailingFrom(checks, from + 1)
  }

  /** The message of the first failing check, or `None` when every check passes. */
  function FirstFailure(checks: seq<Check>): (r: Option<string>)
    ensures r.None? <==> AllPass(checks)
    ensures r.Some? ==> exists i | 0 <= i < |checks| :: checks[i].fails && r.value == checks[i].message
  {
    match FirstFailingFrom(checks, 0)
    case Some(i) => Some(checks[i].message)
    case None => None
  }

  /** When check `k` fails and every earlier one passes, its message is the answer. */
  lemma FirstFailureAt(checks: seq<Check>, k: nat)
    requires k < |checks| && checks[k].fails
    requires forall j | 0 <= j < k :: !checks[j].fails
    ensures FirstFailure(checks) == Some(checks[k].message)
  {
    var r := FirstFailingFrom(checks, 0);
    assert r.Some? && r.value == k;
  }
}
