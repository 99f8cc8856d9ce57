/** Option and Result datatypes, and the first-match search, shared by the custody model. */
module Wrappers {

  /** A value that may be missing, as a nullable database column or an omitted request field. */
  datatype Option<+T> = None | Some(value: T) {

    /** The wrapped value, or `default` when there is none. */
    function GetOr(default: T): T {
      if Some? then value else default
    }
  }

  /** A reply that either carries a value or a client error message. */
  datatype Result<+T> = Success(value: T) | Failure(error: string)

  /** Python truthiness of an optional string: present and non-empty. */
  predicate Truthy(field: Option<string>) {
    field.Some? && field.value != ""
  }

  /** The position of the first element of `s` satisfying `p`; `None` when none does. */
  function FirstIndex<T>(s: seq<T>, p: T -> bool): (m: Option<nat>)
    ensures m.Some? ==> m.value < |s| && p(s[m.value])
    ensures m.Some? ==> forall j :: 0 <= j < m.value ==> !p(s[j])
    ensures m.None? <==> forall j :: 0 <= j < |s| ==> !p(s[j])
  {
    if |s| == 0 then None
    else if p(s[0]) then Some(0)
    else match FirstIndex(s[1..], p)
      case None =>
        assert forall j :: 1 <= j < |s| ==> s[j] == s[1..][j - 1];
        None
      case Some(k) => Some(k + 1)
  }
}
