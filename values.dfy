/** Ruby values as they travel between DogTrainer and the Datadog client:
    nil, booleans, numbers, strings, arrays and string-keyed hashes. A Ruby
    Hash is a `map`, so two hashes are equal exactly when Ruby's `==` says so
    (key order plays no part in Hash equality). Where the source depends on
    the order in which a hash is walked, the order is passed separately. */
module Values {

  datatype Option<+T> = None | Some(value: T)

  /** An option key of a Ruby options hash: left out, or present with a value
      (which may itself be nil). */
  datatype Opt<+T> = Absent | Given(value: T)

  /** Threshold numbers are only stored and compared, so a real is enough;
      Ruby's `60 == 60.0` holds here too. */
  datatype Value =
    | VNull
    | VBool(b: bool)
    | VNum(n: real)
    | VStr(s: string)
    | VList(items: seq<Value>)
    | VHash(fields: map<string, Value>)

  /** `hash[key]`: the stored value, or nil for a missing key. */
  function Get(m: map<string, Value>, key: string): Value
  {
    if key in m then m[key] else VNull
  }

  /** The entries of a hash value; anything that is not a hash has none. */
  function Fields(v: Value): map<string, Value>
  {
    if v.VHash? then v.fields else map[]
  }

  /** `record[key]` on a record returned by the remote. */
  function Field(v: Value, key: string): Value
  {
    Get(Fields(v), key)
  }

  /** Ruby's `to_s` is passed around as a parameter `show`; the one fact
      the model relies on is that it leaves strings as they are. */
  ghost predicate ShowsStringsVerbatim(show: Value -> string)
  {
    forall s :: show(VStr(s)) == s
  }

  predicate StartsWith(s: string, prefix: string)
  {
    |prefix| <= |s| && s[..|prefix|] == prefix
  }

  predicate EndsWith(s: string, suffix: string)
  {
    |suffix| <= |s| && s[|s| - |suffix|..] == suffix
  }

  /** `p` occurs somewhere in `s`. */
  ghost predicate Contains(s: string, p: string)
  {
    exists i, j :: 0 <= i <= j <= |s| && s[i..j] == p
  }

  /** Ruby's `String#include?`: `p` starts at some offset of `s`. */
  predicate HasSubstring(s: string, p: string)
    decreases |s|
  {
    StartsWith(s, p) || (|s| > 0 && HasSubstring(s[1..], p))
  }

  /** The offset-by-offset test finds exactly the occurrences. */
  lemma {:induction false} HasSubstringIffContains(s: string, p: string)
    ensures HasSubstring(s, p) <==> Contains(s, p)
    decreases |s|
  {
    if StartsWith(s, p) {
      assert s[0..|p|] == p;
    } else if |s| > 0 {
      HasSubstringIffContains(s[1..], p);
      if Contains(s[1..], p) {
        var i, j :| 0 <= i <= j <= |s[1..]| && s[1..][i..j] == p;
        assert s[i + 1..j + 1] == p;
      }
      if Contains(s, p) {
        var i, j :| 0 <= i <= j <= |s| && s[i..j] == p;
        if i > 0 {
          assert s[1..][i - 1..j - 1] == p;
        }
      }
    }
  }

  lemma ContainsMiddle(a: string, p: string, b: string)
    ensures Contains(a + p + b, p)
  {
    var s := a + p + b;
    assert s[|a|..|a| + |p|] == p;
  }

  lemma ContainsInPrefix(a: string, b: string, p: string)
    requires Contains(a, p)
    ensures Contains(a + b, p)
  {
    var i, j :| 0 <= i <= j <= |a| && a[i..j] == p;
    assert (a + b)[i..j] == a[i..j];
  }

  lemma ContainsSuffix(a: string, p: string)
    ensures Contains(a + p, p)
  {
    assert (a + p)[|a|..|a| + |p|] == p;
  }

  lemma StartsWithConcat(p: string, rest: string)
    ensures StartsWith(p + rest, p)
  {
    assert (p + rest)[..|p|] == p;
  }

  lemma EndsWithConcat(rest: string, suffix: string)
    ensures EndsWith(rest + suffix, suffix)
  {
    assert (rest + suffix)[|rest|..] == suffix;
  }
}
