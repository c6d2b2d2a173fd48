/**
 * A block of Kotlin `assert(condition) { message }` statements, run with assertions
 * enabled: the first condition that does not hold aborts the composable with its message.
 */
module Asserts {

  datatype Assertion = Assertion(holds: bool, message: string)

  datatype Outcome = Pass | Fail(message: string)

  /** Index of the first assertion that fails, or the length when none does. */
  function FirstFailure(asserts: seq<Assertion>): (k: nat)
    ensures k <= |asserts|
    ensures forall j :: 0 <= j < k ==> asserts[j].holds
    ensures k < |asserts| ==> !asserts[k].holds
  {
    if asserts == [] || !asserts[0].holds then 0 else 1 + FirstFailure(asserts[1..])
  }

  /** Runs the assertions in order. */
  function RunAsserts(asserts: seq<Assertion>): (r: Outcome)
    ensures r.Pass? <==> forall j :: 0 <= j < |asserts| ==> asserts[j].holds
    ensures r.Fail? ==> exists k :: 0 <= k < |asserts| && !asserts[k].holds && r.message == asserts[k].message
    ensures r.Fail? ==> r.message == asserts[FirstFailure(asserts)].message
  {
    if asserts == [] then Pass
    else if !asserts[0].holds then Fail(asserts[0].message)
    else
      var rest := RunAsserts(asserts[1..]);
      assert rest.Fail? ==> asserts[1..][FirstFailure(asserts[1..])] == asserts[FirstFailure(asserts)];
      rest
  }
}
