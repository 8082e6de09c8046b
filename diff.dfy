/** The monitor diff of upsert_monitor: walk the desired keys and stop at
    the first one that is missing from, or different in, the existing
    record. */
module Diff {
  import opened Values

  /** A monitor is in sync when every desired key is present in the existing
      record with an equal value; keys only the existing record has are ignored. */
  predicate InSync(desired: map<string, Value>, existing: map<string, Value>)
  {
    forall k :: k in desired ==> k in existing && existing[k] == desired[k]
  }

  /** The `do_update` loop. `keys` is the order in which the Ruby hash
      enumerates `desired`. */
  method NeedsUpdate(desired: map<string, Value>, keys: seq<string>, existing: map<string, Value>)
    returns (doUpdate: bool)
    requires forall k :: k in desired <==> k in keys
    ensures doUpdate <==> !InSync(desired, existing)
  {
    doUpdate := false;
    var i := 0;
    while i < |keys|
      invariant 0 <= i <= |keys|
      invariant !doUpdate
      invariant forall j :: 0 <= j < i ==> keys[j] in existing && existing[keys[j]] == desired[keys[j]]
    {
      var k := keys[i];
      if k !in existing {
        doUpdate := true;
        break;
      }
      if existing[k] != desired[k] {
        doUpdate := true;
        break;
      }
      i := i + 1;
    }
  }

  /** A desired key the existing record lacks always forces an update, even
      when every other key matches. */
  lemma MissingKeyForcesUpdate(desired: map<string, Value>, existing: map<string, Value>, k: string)
    requires k in desired && k !in existing
    ensures !InSync(desired, existing)
  {
  }

  /** Extra keys on the existing side never force an update. */
  lemma ExtraKeysIgnored(desired: map<string, Value>, existing: map<string, Value>, extra: map<string, Value>)
    requires forall k :: k in extra ==> k !in desired
    ensures InSync(desired, existing + extra) <==> InSync(desired, existing)
  {
  }

  /** A record updated with the full desired document is in sync with it,
      so a second upsert against the updated record issues no update. */
  lemma UpdateConverges(desired: map<string, Value>, existing: map<string, Value>)
    ensures InSync(desired, existing + desired)
  {
  }
}
