/** The "required field" checks that record constructors run in a fixed
    order, throwing IllegalArgumentException for the first one that fails. */
module Validation {
  import opened Wrappers
  import opened Text

  /** A `field == null || field.isBlank()` check passes. */
  predicate Present(field: Option<string>) {
    field.Some? && !IsBlank(field.value)
  }

  /** One check of a constructor, with the message thrown when it fails. */
  datatype Requirement = Requirement(holds: bool, message: string)

  /** The message of the first failing check, or None when every check passes. */
  function FirstFailure(checks: seq<Requirement>): (r: Option<string>)
    ensures r.None? <==> forall i :: 0 <= i < |checks| ==> checks[i].holds
    ensures r.Some? ==>
      exists i :: 0 <= i < |checks| && !checks[i].holds && r.value == checks[i].message
        && (forall j :: 0 <= j < i ==> checks[j].holds)
    ensures forall k :: (0 <= k < |checks| && !checks[k].holds && (forall j :: 0 <= j < k ==> checks[j].holds)
      ==> r == Some(checks[k].message))
  {
    if |checks| == 0 then None
    else if !checks[0].holds then Some(checks[0].message)
    else
      var rest := FirstFailure(checks[1..]);
      assert forall i :: 1 <= i < |checks| ==> checks[i] == checks[1..][i - 1];
      rest
  }
}
