/**
 The agent observer's two measures: the sliding window of call times and the total variation distance
 between a session's tool use and the baseline.
 */
module Observers {
  import opened Collections

  // ---------------------------------------------------------------- the sliding window

  /** Dropping from the left while the oldest time is before the threshold. */
  function DropOld(calls: seq<real>, threshold: real): seq<real> {
    if calls != [] && calls[0] < threshold then DropOld(calls[1..], threshold) else calls
  }

  /** A clock reading: a call is recorded, or the rate is only asked for. */
  datatype Tick = Tick(now: real, isCall: bool)

  function Advance(window: real, calls: seq<real>, t: Tick): seq<real> {
    DropOld(if t.isCall then calls + [t.now] else calls, t.now - window)
  }

  function Run(window: real, ticks: seq<Tick>): seq<real> {
    if ticks == [] then [] else Advance(window, Run(window, ticks[..|ticks| - 1]), ticks[|ticks| - 1])
  }

  /** All calls ever recorded. */
  function Recorded(ticks: seq<Tick>): seq<real> {
    if ticks == [] then []
    else
      var n := |ticks| - 1;
      if ticks[n].isCall then Recorded(ticks[..n]) + [ticks[n].now] else Recorded(ticks[..n])
  }

  /** Those at or after the threshold, in order. */
  function Since(calls: seq<real>, threshold: real): seq<real> {
    if calls == [] then []
    else
      var n := |calls| - 1;
      if calls[n] >= threshold then Since(calls[..n], threshold) + [calls[n]] else Since(calls[..n], threshold)
  }

  predicate Timed(ticks: seq<Tick>) {
    forall i, j :: 0 <= i < j < |ticks| ==> ticks[i].now <= ticks[j].now
  }

  predicate Ascending(calls: seq<real>) {
    forall i, j :: 0 <= i < j < |calls| ==> calls[i] <= calls[j]
  }

  lemma {:induction false} AllSince(calls: seq<real>, threshold: real)
    requires forall i :: 0 <= i < |calls| ==> calls[i] >= threshold
    ensures Since(calls, threshold) == calls
  {
    if calls != [] {
      var n := |calls| - 1;
      AllSince(calls[..n], threshold);
      assert calls == calls[..n] + [calls[n]];
    }
  }

  lemma {:induction false} SinceFromTheFront(calls: seq<real>, threshold: real)
    requires calls != [] && calls[0] < threshold
    ensures Since(calls, threshold) == Since(calls[1..], threshold)
  {
    var n := |calls| - 1;
    if n > 0 {
      SinceFromTheFront(calls[..n], threshold);
      assert calls[1..][..n - 1] == calls[..n][1..];
    }
  }

  /** In order, dropping from the left drops exactly what is too old. */
  lemma {:induction false} DroppingIsFiltering(calls: seq<real>, threshold: real)
    requires Ascending(calls)
    ensures DropOld(calls, threshold) == Since(calls, threshold)
  {
    if calls != [] && calls[0] < threshold {
      DroppingIsFiltering(calls[1..], threshold);
      SinceFromTheFront(calls, threshold);
    } else {
      AllSince(calls, threshold);
    }
  }

  lemma SincePush(calls: seq<real>, t: real, threshold: real)
    ensures Since(calls + [t], threshold) == if t >= threshold then Since(calls, threshold) + [t] else Since(calls, threshold)
  {
    assert (calls + [t])[..|calls|] == calls;
  }

  lemma {:induction false} SinceTwice(calls: seq<real>, earlier: real, later: real)
    requires earlier <= later
    ensures Since(Since(calls, earlier), later) == Since(calls, later)
  {
    if calls != [] {
      var n := |calls| - 1;
      SinceTwice(calls[..n], earlier, later);
      SincePush(Since(calls[..n], earlier), calls[n], later);
    }
  }

  lemma {:induction false} SinceStaysInOrder(calls: seq<real>, threshold: real, last: real)
    requires Ascending(calls) && forall i :: 0 <= i < |calls| ==> calls[i] <= last
    ensures Ascending(Since(calls, threshold))
    ensures forall i :: 0 <= i < |Since(calls, threshold)| ==> Since(calls, threshold)[i] <= last
  {
    if calls != [] {
      var n := |calls| - 1;
      SinceStaysInOrder(calls[..n], threshold, calls[n]);
    }
  }

  lemma {:induction false} RecordedInOrder(ticks: seq<Tick>)
    requires Timed(ticks)
    ensures Ascending(Recorded(ticks))
    ensures ticks != [] ==> forall i :: 0 <= i < |Recorded(ticks)| ==> Recorded(ticks)[i] <= ticks[|ticks| - 1].now
  {
    if ticks != [] {
      RecordedInOrder(ticks[..|ticks| - 1]);
    }
  }

  lemma FirstTick(t: Tick, threshold: real)
    ensures var none: seq<real> := [];
            && DropOld(none, threshold) == Since(none, threshold)
            && DropOld(none + [t.now], threshold) == Since(none + [t.now], threshold)
  {
    var none: seq<real> := [];
    DroppingIsFiltering(none, threshold);
    DroppingIsFiltering(none + [t.now], threshold);
  }

  /** With a clock that never goes back, the deque holds exactly the recorded calls not older than the
      window, whatever mixture of recording and asking led there. */
  lemma {:induction false} WindowIsExact(window: real, ticks: seq<Tick>)
    requires Timed(ticks) && ticks != []
    ensures Run(window, ticks) == Since(Recorded(ticks), ticks[|ticks| - 1].now - window)
  {
    var n := |ticks| - 1;
    var t, before := ticks[n], Recorded(ticks[..n]);
    var threshold := t.now - window;
    RecordedInOrder(ticks);
    if n == 0 {
      assert ticks[..n] == [];
      FirstTick(t, threshold);
    } else {
      var earlier := ticks[n - 1].now - window;
      WindowIsExact(window, ticks[..n]);
      RecordedInOrder(ticks[..n]);
      OneMoreTick(before, t, ticks[n - 1].now, earlier, threshold);
    }
  }

  lemma OneMoreTick(before: seq<real>, t: Tick, last: real, earlier: real, threshold: real)
    requires Ascending(before) && (forall i :: 0 <= i < |before| ==> before[i] <= last)
    requires last <= t.now && earlier <= threshold
    ensures var kept := Since(before, earlier);
            && (t.isCall ==> DropOld(kept + [t.now], threshold) == Since(before + [t.now], threshold))
            && (!t.isCall ==> DropOld(kept, threshold) == Since(before, threshold))
  {
    var kept := Since(before, earlier);
    SinceStaysInOrder(before, earlier, last);
    SinceTwice(before, earlier, threshold);
    DroppingIsFiltering(kept, threshold);
    DroppingIsFiltering(kept + [t.now], threshold);
    SincePush(kept, t.now, threshold);
    SincePush(before, t.now, threshold);
  }

  class RollingRate {
    const window: real
    var calls: seq<real>

    constructor (window: real)
      ensures calls == [] && this.window == window
    {
      this.window, calls := window, [];
    }

    method Trim(now: real)
      modifies this
      ensures calls == DropOld(old(calls), now - window)
    {
      var threshold := now - window;
      while calls != [] && calls[0] < threshold
        invariant DropOld(calls, threshold) == DropOld(old(calls), threshold)
        decreases |calls|
      {
        calls := calls[1..];
      }
    }

    method Record(now: real)
      modifies this
      ensures calls == Advance(window, old(calls), Tick(now, true))
    {
      calls := calls + [now];
      Trim(now);
    }

    method CallsPerMinute(now: real) returns (rate: real)
      modifies this
      ensures calls == Advance(window, old(calls), Tick(now, false))
      ensures window <= 0.0 ==> rate == 0.0
      ensures window > 0.0 ==> rate * window == |calls| as real * 60.0
    {
      Trim(now);
      if window <= 0.0 {
        return 0.0;
      }
      rate := |calls| as real * (60.0 / window);
      RateTimesWindow(|calls| as real, window);
    }
  }

  lemma RateTimesWindow(n: real, window: real)
    requires window > 0.0
    ensures n * (60.0 / window) * window == n * 60.0
  {
    assert 60.0 / window * window == 60.0;
  }

  // ---------------------------------------------------------------- the distance

  function ValueAt(m: map<string, real>, k: string): real {
    if k in m then m[k] else 0.0
  }

  function Distance(x: real, y: real): real {
    if x <= y then y - x else x - y
  }

  /** The sum of the values at the keys, a missing one counting as zero. */
  ghost function Mass(m: map<string, real>, keys: set<string>): real {
    if keys == {} then 0.0 else
      var k :| k in keys;
      ValueAt(m, k) + Mass(m, keys - {k})
  }

  ghost function Apart(a: map<string, real>, b: map<string, real>, keys: set<string>): real {
    if keys == {} then 0.0 else
      var k :| k in keys;
      Distance(ValueAt(a, k), ValueAt(b, k)) + Apart(a, b, keys - {k})
  }

  lemma {:induction false} MassSplit(m: map<string, real>, keys: set<string>, k: string)
    requires k in keys
    ensures Mass(m, keys) == ValueAt(m, k) + Mass(m, keys - {k})
    decreases |keys|
  {
    var j :| j in keys && Mass(m, keys) == ValueAt(m, j) + Mass(m, keys - {j});
    if j != k {
      MassSplit(m, keys - {j}, k);
      MassSplit(m, keys - {k}, j);
      assert keys - {j} - {k} == keys - {k} - {j};
    }
  }

  lemma {:induction false} ApartSplit(a: map<string, real>, b: map<string, real>, keys: set<string>, k: string)
    requires k in keys
    ensures Apart(a, b, keys) == Distance(ValueAt(a, k), ValueAt(b, k)) + Apart(a, b, keys - {k})
    decreases |keys|
  {
    var j :| j in keys && Apart(a, b, keys) == Distance(ValueAt(a, j), ValueAt(b, j)) + Apart(a, b, keys - {j});
    if j != k {
      ApartSplit(a, b, keys - {j}, k);
      ApartSplit(a, b, keys - {k}, j);
      assert keys - {j} - {k} == keys - {k} - {j};
    }
  }

  predicate NonNegative(m: map<string, real>) {
    forall k :: k in m ==> m[k] >= 0.0
  }

  predicate Same(a: map<string, real>, b: map<string, real>, keys: set<string>) {
    forall k :: k in keys ==> ValueAt(a, k) == ValueAt(b, k)
  }

  /** No key has weight on both sides. */
  predicate Disjoint(a: map<string, real>, b: map<string, real>, keys: set<string>) {
    forall k :: k in keys ==> ValueAt(a, k) == 0.0 || ValueAt(b, k) == 0.0
  }

  /** The bounds of the summed distance, and exactly when each is reached. */
  lemma {:induction false} ApartBounds(a: map<string, real>, b: map<string, real>, keys: set<string>)
    requires NonNegative(a) && NonNegative(b)
    ensures Distance(Mass(a, keys), Mass(b, keys)) <= Apart(a, b, keys) <= Mass(a, keys) + Mass(b, keys)
    ensures Apart(a, b, keys) == 0.0 <==> Same(a, b, keys)
    ensures Apart(a, b, keys) == Mass(a, keys) + Mass(b, keys) <==> Disjoint(a, b, keys)
    decreases |keys|
  {
    if keys != {} {
      var k :| k in keys;
      MassSplit(a, keys, k);
      MassSplit(b, keys, k);
      ApartSplit(a, b, keys, k);
      ApartBounds(a, b, keys - {k});
      assert keys == (keys - {k}) + {k};
    }
  }

  function Share(count: nat, total: nat): real
    requires total > 0
  {
    count as real / total as real
  }

  function Shares(observed: map<string, nat>, total: nat): map<string, real>
    requires total > 0
  {
    map k | k in observed :: Share(observed[k], total)
  }

  predicate Scales(x: real, n: real, product: real) {
    x * n == product
  }

  lemma ShareScales(count: nat, total: nat)
    requires total > 0
    ensures Share(count, total) >= 0.0 && Scales(Share(count, total), total as real, count as real)
  {
  }

  lemma ScalesAdd(x: real, y: real, n: real, p: real, q: real)
    requires Scales(x, n, p) && Scales(y, n, q)
    ensures Scales(x + y, n, p + q)
  {
  }

  lemma ScalesZero(n: real)
    ensures Scales(0.0, n, 0.0)
  {
  }

  lemma ScalesOne(x: real, n: real)
    requires n > 0.0 && Scales(x, n, n)
    ensures x == 1.0
  {
  }

  /** `rest` are the counts of the keys. */
  predicate CountsOf(observed: map<string, nat>, keys: set<string>, rest: map<string, nat>) {
    && (forall k :: k in rest ==> k in keys && k in observed && observed[k] == rest[k])
    && (forall k :: k in keys && k !in rest ==> k !in observed)
  }

  lemma {:induction false} SharesSum(observed: map<string, nat>, total: nat, keys: set<string>, rest: map<string, nat>)
    requires total > 0 && CountsOf(observed, keys, rest)
    ensures Scales(Mass(Shares(observed, total), keys), total as real, SumValues(rest) as real)
    decreases |keys|
  {
    var shares, n := Shares(observed, total), total as real;
    if keys == {} {
      assert rest == map[];
      ScalesZero(n);
    } else {
      var k :| k in keys;
      MassSplit(shares, keys, k);
      SharesSum(observed, total, keys - {k}, rest - {k});
      var count := if k in rest then rest[k] else 0;
      assert SumValues(rest) == count + SumValues(rest - {k}) by {
        if k in rest {
          SumValuesSplit(rest, k);
        } else {
          assert rest - {k} == rest;
        }
      }
      ValueScales(observed, total, k, count);
      ScalesAdd(ValueAt(shares, k), Mass(shares, keys - {k}), n, count as real, SumValues(rest - {k}) as real);
    }
  }

  lemma ValueScales(observed: map<string, nat>, total: nat, k: string, count: nat)
    requires total > 0 && count == (if k in observed then observed[k] else 0)
    ensures Scales(ValueAt(Shares(observed, total), k), total as real, count as real)
  {
    ShareScales(count, total);
    ScalesZero(total as real);
  }

  /** The total variation distance of two distributions over all keys of either. */
  ghost function Shift(observed: map<string, nat>, baseline: map<string, real>): real {
    var total := SumValues(observed);
    if total == 0 then 0.0 else Apart(Shares(observed, total), baseline, observed.Keys + baseline.Keys) / 2.0
  }

  lemma SharesAreADistribution(observed: map<string, nat>, total: nat, keys: set<string>)
    requires total == SumValues(observed) > 0 && observed.Keys <= keys
    ensures NonNegative(Shares(observed, total)) && Mass(Shares(observed, total), keys) == 1.0
  {
    forall k | k in observed ensures Shares(observed, total)[k] >= 0.0 {
      ShareScales(observed[k], total);
    }
    SharesSum(observed, total, keys, observed);
    ScalesOne(Mass(Shares(observed, total), keys), total as real);
  }

  lemma {:induction false} MassOfMore(m: map<string, real>, keys: set<string>)
    requires m.Keys <= keys
    ensures Mass(m, keys) == Mass(m, m.Keys)
    decreases |keys|
  {
    if k :| k in keys && k !in m {
      MassSplit(m, keys, k);
      MassOfMore(m, keys - {k});
    } else {
      assert keys == m.Keys;
    }
  }

  /** For any non-negative baseline of mass B and any calls at all, the shift lies between |1 - B| / 2 and
      (1 + B) / 2 (so between 0 and 1 for a distribution); it is zero exactly when every tool's share is
      its baseline, and maximal exactly when no tool of the baseline was used. */
  lemma ShiftBounds(observed: map<string, nat>, baseline: map<string, real>)
    requires NonNegative(baseline) && SumValues(observed) > 0
    ensures var shares := Shares(observed, SumValues(observed));
            var b := Mass(baseline, baseline.Keys);
            var keys := observed.Keys + baseline.Keys;
            && Distance(1.0, b) / 2.0 <= Shift(observed, baseline) <= (1.0 + b) / 2.0
            && (Shift(observed, baseline) == 0.0 <==> Same(shares, baseline, keys))
            && (Shift(observed, baseline) == (1.0 + b) / 2.0 <==> Disjoint(shares, baseline, keys))
  {
    var total, keys := SumValues(observed), observed.Keys + baseline.Keys;
    SharesAreADistribution(observed, total, keys);
    MassOfMore(baseline, keys);
    ApartBounds(Shares(observed, total), baseline, keys);
  }

  method ToolDistributionShift(observed: map<string, nat>, baseline: map<string, real>) returns (shift: real)
    ensures shift == Shift(observed, baseline)
  {
    var total := TotalCalls(observed);
    if total == 0 {
      return 0.0;
    }
    var shares := Shares(observed, total);
    var keys := observed.Keys + baseline.Keys;
    shift := 0.0;
    var todo := keys;
    while todo != {}
      invariant todo <= keys
      invariant shift + Apart(shares, baseline, todo) == Apart(shares, baseline, keys)
      decreases |todo|
    {
      var k :| k in todo;
      ApartSplit(shares, baseline, todo, k);
      shift := shift + Distance(ValueAt(shares, k), ValueAt(baseline, k));
      todo := todo - {k};
    }
    return shift / 2.0;
  }

  method TotalCalls(observed: map<string, nat>) returns (total: nat)
    ensures total == SumValues(observed)
  {
    total := 0;
    var rest := observed;
    while rest != map[]
      invariant total + SumValues(rest) == SumValues(observed)
      decreases |rest|
    {
      var k :| k in rest;
      SumValuesSplit(rest, k);
      total := total + rest[k];
      rest := rest - {k};
    }
  }
}
