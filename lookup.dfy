/** Lookup by name in a cached list of remote records: a linear scan that
    returns the first record whose field equals the target. */
module Lookup {
  import opened Values

  function FirstIndex(records: seq<Value>, key: string, target: Value): (r: Option<nat>)
    ensures r.Some? ==> r.value < |records|
    decreases |records|
  {
    if |records| == 0 then None
    else if Field(records[0], key) == target then Some(0)
    else match FirstIndex(records[1..], key, target)
      case None => None
      case Some(i) => Some(i + 1)
  }

  /** FirstIndex finds the first matching record, and finds nothing exactly
      when no record matches. */
  lemma {:induction false} FirstIndexIsFirstMatch(records: seq<Value>, key: string, target: Value)
    ensures FirstIndex(records, key, target).None?
        <==> forall j :: 0 <= j < |records| ==> Field(records[j], key) != target
    ensures FirstIndex(records, key, target).Some? ==>
      var i := FirstIndex(records, key, target).value;
      && i < |records| && Field(records[i], key) == target
      && forall j :: 0 <= j < i ==> Field(records[j], key) != target
    decreases |records|
  {
    if |records| > 0 && Field(records[0], key) != target {
      FirstIndexIsFirstMatch(records[1..], key, target);
      assert forall j :: 1 <= j < |records| ==> records[j] == records[1..][j - 1];
    }
  }

  /** The record FirstIndex picks, or nil when there is none. */
  function FirstRecord(records: seq<Value>, key: string, target: Value): Value
  {
    match FirstIndex(records, key, target)
    case None => VNull
    case Some(i) => records[i]
  }

  /** The `each ... return mon if ...` scan. */
  method FindFirst(records: seq<Value>, key: string, target: Value) returns (found: Option<nat>)
    ensures found == FirstIndex(records, key, target)
  {
    found := None;
    var i := 0;
    while i < |records|
      invariant 0 <= i <= |records|
      invariant forall j :: 0 <= j < i ==> Field(records[j], key) != target
    {
      if Field(records[i], key) == target {
        found := Some(i);
        break;
      }
      i := i + 1;
    }
    FirstIndexIsFirstMatch(records, key, target);
  }
}
