/** Sums over finite maps, shared by the modules that total a dictionary of counters. */
module Collections {

  datatype Option<+T> = None | Some(value: T)

  /** The sum of the values of a dictionary of counters. */
  ghost function SumValues<K>(m: map<K, nat>): nat
    decreases |m|
  {
    if m == map[] then 0 else
      var k :| k in m;
      m[k] + SumValues(m - {k})
  }

  lemma {:induction false} SumValuesSplit<K>(m: map<K, nat>, k: K)
    requires k in m
    ensures SumValues(m) == m[k] + SumValues(m - {k})
    decreases |m|
  {
    var j :| j in m && SumValues(m) == m[j] + SumValues(m - {j});
    if j != k {
      SumValuesSplit(m - {j}, k);
      SumValuesSplit(m - {k}, j);
      assert m - {j} - {k} == m - {k} - {j};
    }
  }

  lemma SumValuesUpdate<K>(m: map<K, nat>, k: K, v: nat)
    ensures SumValues(m[k := v]) == SumValues(m) - (if k in m then m[k] else 0) + v
  {
    SumValuesSplit(m[k := v], k);
    assert m[k := v] - {k} == m - {k};
    if k in m {
      SumValuesSplit(m, k);
    } else {
      assert m - {k} == m;
    }
  }

  lemma SumValuesOne<K>(k: K, v: nat)
    ensures SumValues(map[k := v]) == v
  {
    SumValuesSplit(map[k := v], k);
    assert map[k := v] - {k} == map[];
  }

  /** What s[:limit] is: the first `limit` elements, or all but the last -limit ones. */
  lemma TakeLimitIs<T>(s: seq<T>, limit: int)
    ensures TakeLimit(s, limit) <= s
    ensures 0 <= limit ==> |TakeLimit(s, limit)| == if limit < |s| then limit else |s|
    ensures limit < 0 ==> |TakeLimit(s, limit)| == if -limit < |s| then |s| + limit else 0
  {
  }

  /** Python's s[:limit]: a negative limit drops that many elements from the end. */
  function TakeLimit<T>(s: seq<T>, limit: int): seq<T> {
    if 0 <= limit then (if limit <= |s| then s[..limit] else s)
    else (if -limit <= |s| then s[..|s| + limit] else [])
  }
}
