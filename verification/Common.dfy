/** What several models share. */
module Common {
  datatype Option<+T> = None | Some(value: T)

  predicate Distinct<T(==)>(items: seq<T>) {
    forall j, k :: 0 <= j < k < |items| ==> items[j] != items[k]
  }

  function Elements(keys: seq<nat>): set<nat> { set k | k in keys }

  /** Distinct members of a set are at most as many as the set has. */
  lemma {:induction false} DistinctFit(keys: seq<nat>, all: set<nat>)
    requires Distinct(keys) && Elements(keys) <= all
    ensures |keys| <= |all|
  {
    if keys != [] {
      var last := |keys| - 1;
      var rest := keys[..last];
      assert keys[last] in Elements(keys);
      forall k | k in Elements(rest) ensures k in all - {keys[last]} {
        var j :| 0 <= j < last && rest[j] == k;
        assert keys[j] == k && k in Elements(keys);
      }
      DistinctFit(rest, all - {keys[last]});
    }
  }

  /** The numbers below `n`. */
  function Below(n: nat): (numbers: set<nat>)
    ensures |numbers| == n && forall i: nat :: i in numbers <==> i < n
  {
    if n == 0 then {} else Below(n - 1) + {n - 1}
  }
}
