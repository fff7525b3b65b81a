/**
 The circuit breaker: one step per locked method, runs of steps with explicit clock readings, and what
 a run's history says about the state it ends in.
 */
module CircuitBreakers {
  datatype State = Closed | Open | HalfOpen

  datatype Limits = Limits(failureThreshold: int, recoveryTimeout: real, successThreshold: int)

  datatype Circuit = Circuit(state: State, failures: nat, successes: nat, lastFailure: real)

  const START := Circuit(Closed, 0, 0, 0.0)

  datatype Op =
    | Check(now: real)
    | Succeed(now: real)
    | Fail(now: real)
    | Reset(now: real)

  /** Reading `state`, which `allow_request` does first: an elapsed timeout opens the circuit halfway. */
  function Observed(l: Limits, c: Circuit, now: real): Circuit {
    if c.state == Open && now - c.lastFailure >= l.recoveryTimeout then c.(state := HalfOpen, successes := 0) else c
  }

  predicate Admits(c: Circuit) { c.state != Open }

  function Step(l: Limits, c: Circuit, op: Op): Circuit {
    match op
    case Check(now) => Observed(l, c, now)
    case Succeed(_) =>
      if c.state == HalfOpen then
        if c.successes + 1 >= l.successThreshold then c.(state := Closed, failures := 0, successes := 0)
        else c.(successes := c.successes + 1)
      else c.(failures := 0)
    case Fail(now) =>
      var d := c.(failures := c.failures + 1, lastFailure := now);
      if c.state == HalfOpen || d.failures >= l.failureThreshold then d.(state := Open) else d
    case Reset(_) => c.(state := Closed, failures := 0, successes := 0)
  }

  function Steps(l: Limits, c: Circuit, ops: seq<Op>): Circuit {
    if ops == [] then c else Step(l, Steps(l, c, ops[..|ops| - 1]), ops[|ops| - 1])
  }

  /** A threshold of zero or less trips, or closes, on the first call, like a threshold of one. */
  function AtLeastOne(n: int): (m: nat)
    ensures m >= 1 && m >= n && (m == n || m == 1)
  {
    if n < 1 then 1 else n
  }

  // ---------------------------------------------------------------- what the history says

  /** Failures since the last success or reset; reading the state does not count. */
  function TrailingFailures(ops: seq<Op>): nat {
    if ops == [] then 0
    else
      match ops[|ops| - 1]
      case Check(_) => TrailingFailures(ops[..|ops| - 1])
      case Fail(_) => TrailingFailures(ops[..|ops| - 1]) + 1
      case _ => 0
  }

  /** The index of the latest failure, or -1. */
  function LatestFailure(ops: seq<Op>): (i: int)
    ensures -1 <= i < |ops|
    ensures i >= 0 ==> ops[i].Fail?
    ensures forall k :: i < k < |ops| ==> !ops[k].Fail?
  {
    if ops == [] then -1
    else if ops[|ops| - 1].Fail? then |ops| - 1
    else LatestFailure(ops[..|ops| - 1])
  }

  function CountSuccesses(ops: seq<Op>): nat {
    if ops == [] then 0 else CountSuccesses(ops[..|ops| - 1]) + (if ops[|ops| - 1].Succeed? then 1 else 0)
  }

  function CountFailures(ops: seq<Op>): nat {
    if ops == [] then 0 else CountFailures(ops[..|ops| - 1]) + (if ops[|ops| - 1].Fail? then 1 else 0)
  }

  predicate NoReset(ops: seq<Op>) {
    forall k :: 0 <= k < |ops| ==> !ops[k].Reset?
  }

  predicate Quiet(ops: seq<Op>) {
    forall k :: 0 <= k < |ops| ==> ops[k].Check? || ops[k].Succeed?
  }

  /** A check at `ops[k]` would find the timeout since the failure at `ops[i]` elapsed. */
  predicate Elapsed(l: Limits, ops: seq<Op>, i: int, k: int)
    requires 0 <= i < |ops| && 0 <= k < |ops|
  {
    ops[k].Check? && ops[k].now - ops[i].now >= l.recoveryTimeout
  }

  /** The circuit has been open since before the end: no reset since the latest failure and no check
      that found the timeout elapsed. */
  ghost predicate StillOpen(l: Limits, ops: seq<Op>) {
    var i := LatestFailure(ops);
    i >= 0 && forall k :: i < k < |ops| ==> !ops[k].Reset? && !Elapsed(l, ops, i, k)
  }

  /** The probing phase began with the check at `ops[k]`, the first to find the timeout since the
      latest failure elapsed; only checks and successes came after it. */
  ghost predicate ProbingSince(l: Limits, ops: seq<Op>, k: int) {
    var i := LatestFailure(ops);
    && 0 <= i < k < |ops| && Elapsed(l, ops, i, k)
    && (forall j :: i < j < k ==> !ops[j].Reset? && !Elapsed(l, ops, i, j))
    && Quiet(ops[k + 1..])
  }

  /** What the state after a whole run means in terms of its history. */
  ghost predicate Explained(l: Limits, ops: seq<Op>, c: Circuit) {
    && c.lastFailure == (if LatestFailure(ops) >= 0 then ops[LatestFailure(ops)].now else 0.0)
    && match c.state
       case Closed => c.failures == TrailingFailures(ops) < AtLeastOne(l.failureThreshold)
       case Open => StillOpen(l, ops)
       case HalfOpen =>
         c.successes < AtLeastOne(l.successThreshold)
         && exists k :: ProbingSince(l, ops, k) && c.successes == CountSuccesses(ops[k + 1..])
  }

  lemma SuffixPush(ops: seq<Op>, op: Op, k: nat)
    requires k <= |ops|
    ensures (ops + [op])[k..] == ops[k..] + [op]
  {
  }

  lemma CountPush(ops: seq<Op>, op: Op)
    ensures CountSuccesses(ops + [op]) == CountSuccesses(ops) + (if op.Succeed? then 1 else 0)
    ensures CountFailures(ops + [op]) == CountFailures(ops) + (if op.Fail? then 1 else 0)
    ensures LatestFailure(ops + [op]) == if op.Fail? then |ops| else LatestFailure(ops)
  {
    assert (ops + [op])[..|ops|] == ops;
  }

  lemma StillOpenAfter(l: Limits, ops: seq<Op>, op: Op)
    requires StillOpen(l, ops) && !op.Reset?
    requires op.Check? ==> op.now - ops[LatestFailure(ops)].now < l.recoveryTimeout
    ensures StillOpen(l, ops + [op])
  {
    CountPush(ops, op);
    var i, all := LatestFailure(ops), ops + [op];
    assert forall k :: 0 <= k < |ops| ==> all[k] == ops[k];
    assert forall k :: i < k < |ops| ==> Elapsed(l, all, i, k) == Elapsed(l, ops, i, k);
  }

  lemma ProbingStarts(l: Limits, ops: seq<Op>, op: Op)
    requires StillOpen(l, ops) && op.Check? && op.now - ops[LatestFailure(ops)].now >= l.recoveryTimeout
    ensures ProbingSince(l, ops + [op], |ops|) && CountSuccesses((ops + [op])[|ops| + 1..]) == 0
  {
    CountPush(ops, op);
    var i, all := LatestFailure(ops), ops + [op];
    assert forall j :: i < j < |ops| ==> !all[j].Reset? && Elapsed(l, all, i, j) == Elapsed(l, ops, i, j);
  }

  lemma ProbingGoesOn(l: Limits, ops: seq<Op>, op: Op, k: int)
    requires ProbingSince(l, ops, k) && (op.Check? || op.Succeed?)
    ensures ProbingSince(l, ops + [op], k)
    ensures CountSuccesses((ops + [op])[k + 1..]) == CountSuccesses(ops[k + 1..]) + (if op.Succeed? then 1 else 0)
  {
    CountPush(ops, op);
    SuffixPush(ops, op, k + 1);
    CountPush(ops[k + 1..], op);
    var i, all := LatestFailure(ops), ops + [op];
    assert forall j :: i < j <= k ==> all[j] == ops[j] && Elapsed(l, all, i, j) == Elapsed(l, ops, i, j);
  }

  lemma HalfOpenExplained(l: Limits, ops: seq<Op>, c: Circuit, op: Op)
    requires Explained(l, ops, c) && c.state == HalfOpen && (op.Check? || op.Succeed?)
    ensures Explained(l, ops + [op], Step(l, c, op))
  {
    var k :| ProbingSince(l, ops, k) && c.successes == CountSuccesses(ops[k + 1..]);
    ProbingGoesOn(l, ops, op, k);
    CountPush(ops, op);
    assert (ops + [op])[..|ops|] == ops;
  }

  lemma OpenExplained(l: Limits, ops: seq<Op>, c: Circuit, op: Op)
    requires Explained(l, ops, c) && c.state == Open && !op.Reset? && !op.Fail?
    ensures Explained(l, ops + [op], Step(l, c, op))
  {
    CountPush(ops, op);
    if op.Check? && op.now - c.lastFailure >= l.recoveryTimeout {
      ProbingStarts(l, ops, op);
    } else {
      StillOpenAfter(l, ops, op);
    }
  }

  lemma FailureExplained(l: Limits, ops: seq<Op>, c: Circuit, op: Op)
    requires Explained(l, ops, c) && op.Fail?
    ensures Explained(l, ops + [op], Step(l, c, op))
  {
    CountPush(ops, op);
    assert (ops + [op])[..|ops|] == ops;
  }

  lemma ResetExplained(l: Limits, ops: seq<Op>, c: Circuit, op: Op)
    requires Explained(l, ops, c) && op.Reset?
    ensures Explained(l, ops + [op], Step(l, c, op))
  {
    CountPush(ops, op);
    assert (ops + [op])[..|ops|] == ops;
  }

  lemma ClosedExplained(l: Limits, ops: seq<Op>, c: Circuit, op: Op)
    requires Explained(l, ops, c) && c.state == Closed && (op.Check? || op.Succeed?)
    ensures Explained(l, ops + [op], Step(l, c, op))
  {
    CountPush(ops, op);
    assert (ops + [op])[..|ops|] == ops;
  }

  lemma StepExplained(l: Limits, ops: seq<Op>, c: Circuit, op: Op)
    requires Explained(l, ops, c)
    ensures Explained(l, ops + [op], Step(l, c, op))
  {
    if op.Fail? {
      FailureExplained(l, ops, c, op);
    } else if op.Reset? {
      ResetExplained(l, ops, c, op);
    } else if c.state == Closed {
      ClosedExplained(l, ops, c, op);
    } else if c.state == Open {
      OpenExplained(l, ops, c, op);
    } else {
      HalfOpenExplained(l, ops, c, op);
    }
  }

  /** Every state a circuit reaches is explained by its history. */
  lemma {:induction false} HistoryExplainsEveryState(l: Limits, ops: seq<Op>)
    ensures Explained(l, ops, Steps(l, START, ops))
  {
    if ops != [] {
      var n := |ops| - 1;
      HistoryExplainsEveryState(l, ops[..n]);
      StepExplained(l, ops[..n], Steps(l, START, ops[..n]), ops[n]);
      assert ops[..n] + [ops[n]] == ops;
    }
  }

  // ---------------------------------------------------------------- safety of an open circuit

  /** The failure that counts for an open circuit after `more`: the latest one in it, else the old one. */
  function BlockedFrom(c: Circuit, more: seq<Op>): real {
    if LatestFailure(more) >= 0 then more[LatestFailure(more)].now else c.lastFailure
  }

  /** The check `more[k]` comes at or after the end of the blocking period in force then. */
  predicate ComesInTime(l: Limits, c: Circuit, more: seq<Op>, k: nat)
    requires k < |more|
  {
    more[k].Check? && more[k].now >= BlockedFrom(c, more[..k]) + l.recoveryTimeout
  }

  ghost predicate NoCheckComesInTime(l: Limits, c: Circuit, more: seq<Op>) {
    forall k :: 0 <= k < |more| ==> !ComesInTime(l, c, more, k)
  }

  /** Nothing is admitted at any point of `more`. */
  ghost predicate StaysOpen(l: Limits, c: Circuit, more: seq<Op>) {
    forall n :: 0 <= n <= |more| ==> OpenAfter(l, c, more, n)
  }

  predicate OpenAfter(l: Limits, c: Circuit, more: seq<Op>, n: nat)
    requires n <= |more|
  {
    Steps(l, c, more[..n]).state == Open
  }

  lemma NoCheckComesInTimePush(l: Limits, c: Circuit, more: seq<Op>, op: Op)
    ensures NoCheckComesInTime(l, c, more + [op]) <==>
      NoCheckComesInTime(l, c, more) && !(op.Check? && op.now >= BlockedFrom(c, more) + l.recoveryTimeout)
  {
    var all := more + [op];
    assert forall k :: 0 <= k < |more| ==> all[..k] == more[..k];
    assert all[..|more|] == more;
    assert forall k :: 0 <= k < |more| ==> ComesInTime(l, c, all, k) == ComesInTime(l, c, more, k);
    assert ComesInTime(l, c, all, |more|) <==> op.Check? && op.now >= BlockedFrom(c, more) + l.recoveryTimeout;
  }

  lemma StaysOpenPush(l: Limits, c: Circuit, more: seq<Op>, op: Op)
    ensures StaysOpen(l, c, more + [op]) <==> StaysOpen(l, c, more) && Step(l, Steps(l, c, more), op).state == Open
  {
    var all := more + [op];
    PrefixesOfPush(more, op);
    assert Steps(l, c, all) == Step(l, Steps(l, c, more), op);
    if StaysOpen(l, c, all) {
      forall n | 0 <= n <= |more| ensures OpenAfter(l, c, more, n) {
        assert OpenAfter(l, c, all, n);
      }
      assert OpenAfter(l, c, all, |all|);
    } else if StaysOpen(l, c, more) && Steps(l, c, all).state == Open {
      forall n | 0 <= n <= |all| ensures OpenAfter(l, c, all, n) {
        if n <= |more| {
          assert OpenAfter(l, c, more, n);
        }
      }
    }
  }

  lemma PrefixesOfPush(more: seq<Op>, op: Op)
    ensures forall n :: 0 <= n <= |more| ==> (more + [op])[..n] == more[..n]
    ensures (more + [op])[..|more|] == more && (more + [op])[..|more| + 1] == more + [op] && more[..|more|] == more
  {
  }

  /** An open circuit, without a reset, stays open exactly as long as no check comes at or after the
      latest failure plus the recovery timeout, failures recorded while open included. */
  lemma {:induction false} OpenUntilACheckComesInTime(l: Limits, c: Circuit, more: seq<Op>)
    requires c.state == Open && NoReset(more)
    ensures StaysOpen(l, c, more) <==> NoCheckComesInTime(l, c, more)
    ensures StaysOpen(l, c, more) ==>
      Steps(l, c, more).state == Open && Steps(l, c, more).lastFailure == BlockedFrom(c, more)
  {
    if more == [] {
      assert more[..0] == [];
    } else {
      var n := |more| - 1;
      var less := more[..n];
      OpenUntilACheckComesInTime(l, c, less);
      NoCheckComesInTimePush(l, c, less, more[n]);
      StaysOpenPush(l, c, less, more[n]);
      CountPush(less, more[n]);
      assert less + [more[n]] == more;
    }
  }

  // ---------------------------------------------------------------- trips

  predicate Timed(ops: seq<Op>) {
    forall i, j :: 0 <= i < j < |ops| ==> ops[i].now <= ops[j].now
  }

  /** How often the circuit went from admitting to open. */
  function Trips(l: Limits, ops: seq<Op>): nat {
    if ops == [] then 0
    else
      var before := ops[..|ops| - 1];
      Trips(l, before)
        + (if Steps(l, START, before).state != Open && Steps(l, START, ops).state == Open then 1 else 0)
  }

  /** `n` recovery timeouts. */
  function Timeouts(l: Limits, n: nat): real {
    if n == 0 then 0.0 else Timeouts(l, n - 1) + l.recoveryTimeout
  }

  lemma {:induction false} TimeoutsMultiply(l: Limits, n: nat)
    ensures Timeouts(l, n) == n as real * l.recoveryTimeout
    ensures l.recoveryTimeout <= 0.0 ==> Timeouts(l, n) <= 0.0
  {
    if n > 0 {
      TimeoutsMultiply(l, n - 1);
      var k := (n - 1) as real;
      assert n as real == k + 1.0;
      assert (k + 1.0) * l.recoveryTimeout == k * l.recoveryTimeout + l.recoveryTimeout;
    }
  }

  /** Each trip but the latest has been paid for with a whole recovery timeout, and once the circuit
      admits again so has the latest. */
  ghost predicate Paid(l: Limits, c: Circuit, trips: nat, first: real, last: real) {
    if c.state == Open then
      trips > 0 && Timeouts(l, trips - 1) <= c.lastFailure - first && c.lastFailure <= last
    else
      Timeouts(l, trips) <= last - first
  }

  lemma PaidStep(l: Limits, c: Circuit, op: Op, trips: nat, first: real, last: real)
    requires !op.Reset? && last <= op.now && Paid(l, c, trips, first, last)
    ensures var d := Step(l, c, op);
            Paid(l, d, if c.state != Open && d.state == Open then trips + 1 else trips, first, op.now)
  {
  }

  lemma {:induction false} TripsArePaidFor(l: Limits, ops: seq<Op>)
    requires ops != [] && NoReset(ops) && Timed(ops)
    ensures Paid(l, Steps(l, START, ops), Trips(l, ops), ops[0].now, ops[|ops| - 1].now)
  {
    var n := |ops| - 1;
    var before := ops[..n];
    if n == 0 {
      assert before == [] && Steps(l, START, before) == START && Trips(l, before) == 0;
      PaidStep(l, START, ops[n], 0, ops[0].now, ops[0].now);
    } else {
      TripsArePaidFor(l, before);
      assert before[0] == ops[0] && before[n - 1] == ops[n - 1] && ops[n - 1].now <= ops[n].now;
      PaidStep(l, Steps(l, START, before), ops[n], Trips(l, before), ops[0].now, ops[n - 1].now);
    }
  }

  lemma PaidBoundsTrips(l: Limits, c: Circuit, trips: nat, first: real, last: real)
    requires Paid(l, c, trips, first, last) && trips > 0 && first <= last
    ensures Timeouts(l, trips - 1) <= last - first
  {
    if l.recoveryTimeout <= 0.0 {
      TimeoutsMultiply(l, trips - 1);
    }
  }

  /** A run without resets that lasts `T` trips at most `1 + T / recoveryTimeout` times. */
  lemma TripsAreBoundedByTime(l: Limits, ops: seq<Op>)
    requires ops != [] && NoReset(ops) && Timed(ops) && Trips(l, ops) > 0
    ensures Timeouts(l, Trips(l, ops) - 1) <= ops[|ops| - 1].now - ops[0].now
  {
    TripsArePaidFor(l, ops);
    assert ops[0].now <= ops[|ops| - 1].now;
    PaidBoundsTrips(l, Steps(l, START, ops), Trips(l, ops), ops[0].now, ops[|ops| - 1].now);
  }

  // ---------------------------------------------------------------- when it trips and when it recovers

  /** Without success or reset, a closed circuit stays closed exactly while the failures stay below the threshold. */
  lemma {:induction false} ClosedTripsExactlyAtTheThreshold(l: Limits, c: Circuit, ops: seq<Op>)
    requires c.state == Closed && c.failures < AtLeastOne(l.failureThreshold)
    requires forall k :: 0 <= k < |ops| ==> ops[k].Check? || ops[k].Fail?
    ensures Steps(l, c, ops).state == Closed <==> c.failures + CountFailures(ops) < AtLeastOne(l.failureThreshold)
    ensures Steps(l, c, ops).failures == c.failures + CountFailures(ops)
  {
    if ops != [] {
      ClosedTripsExactlyAtTheThreshold(l, c, ops[..|ops| - 1]);
    }
  }

  /** Without failure or reset, a half-open circuit closes exactly on the success that reaches the
      threshold; however many checks are made meanwhile, each admits its caller. */
  lemma {:induction false} ProbingClosesExactlyAtTheThreshold(l: Limits, c: Circuit, ops: seq<Op>)
    requires c.state == HalfOpen && c.successes < AtLeastOne(l.successThreshold) && Quiet(ops)
    ensures var d := Steps(l, c, ops);
            && d.state == (if c.successes + CountSuccesses(ops) >= AtLeastOne(l.successThreshold) then Closed else HalfOpen)
            && (d.state == Closed ==> d.failures == 0 && d.successes == 0)
            && (d.state == HalfOpen ==> d.successes == c.successes + CountSuccesses(ops))
  {
    if ops != [] {
      ProbingClosesExactlyAtTheThreshold(l, c, ops[..|ops| - 1]);
    }
  }

  /** Half-open, any number of checks leave the circuit as it is. */
  lemma {:induction false} ProbesAreNotLimited(l: Limits, c: Circuit, checks: seq<Op>)
    requires c.state == HalfOpen && forall k :: 0 <= k < |checks| ==> checks[k].Check?
    ensures Steps(l, c, checks) == c && Admits(c)
  {
    if checks != [] {
      ProbesAreNotLimited(l, c, checks[..|checks| - 1]);
    }
  }

  function CountChecks(ops: seq<Op>): nat {
    if ops == [] then 0 else CountChecks(ops[..|ops| - 1]) + (if ops[|ops| - 1].Check? then 1 else 0)
  }

  /** How many of the checks are answered with an admission. */
  function CountAdmitted(l: Limits, c: Circuit, ops: seq<Op>): nat {
    if ops == [] then 0
    else
      CountAdmitted(l, c, ops[..|ops| - 1])
        + (if ops[|ops| - 1].Check? && Admits(Steps(l, c, ops)) then 1 else 0)
  }

  /** While nothing fails, a circuit that admits goes on admitting. */
  lemma {:induction false} QuietChecksAreAdmitted(l: Limits, c: Circuit, ops: seq<Op>)
    requires Admits(c) && Quiet(ops)
    ensures Admits(Steps(l, c, ops)) && CountAdmitted(l, c, ops) == CountChecks(ops)
  {
    if ops != [] {
      QuietChecksAreAdmitted(l, c, ops[..|ops| - 1]);
    }
  }

  /** An open circuit whose timeout has elapsed at the first check admits that check and every further one
      until a call fails: "one probe" holds exactly when at most one check comes before the next failure. */
  lemma ProbingAdmitsEveryCheck(l: Limits, c: Circuit, first: Op, ops: seq<Op>)
    requires c.state == Open && first.Check? && first.now - c.lastFailure >= l.recoveryTimeout && Quiet(ops)
    ensures Step(l, c, first).state == HalfOpen
    ensures CountAdmitted(l, Step(l, c, first), ops) == CountChecks(ops)
    ensures 1 + CountAdmitted(l, Step(l, c, first), ops) <= 1 <==> CountChecks(ops) == 0
  {
    QuietChecksAreAdmitted(l, Step(l, c, first), ops);
  }

  function Repeat(op: Op, n: nat): seq<Op> {
    if n == 0 then [] else Repeat(op, n - 1) + [op]
  }

  lemma {:induction false} FailuresOpen(l: Limits, t: real, n: nat)
    ensures var c := Steps(l, START, Repeat(Fail(t), n));
            && (n > 0 ==> c.lastFailure == t) && c.failures == n
            && c.state == (if n >= AtLeastOne(l.failureThreshold) then Open else Closed)
  {
    if n > 0 {
      FailuresOpen(l, t, n - 1);
      assert Repeat(Fail(t), n)[..|Repeat(Fail(t), n)| - 1] == Repeat(Fail(t), n - 1);
    }
  }

  lemma {:induction false} RepeatedChecks(op: Op, n: nat)
    requires op.Check?
    ensures |Repeat(op, n)| == n && CountChecks(Repeat(op, n)) == n && Quiet(Repeat(op, n))
  {
    if n > 0 {
      RepeatedChecks(op, n - 1);
      assert Repeat(op, n)[..n - 1] == Repeat(op, n - 1);
    }
  }

  /** A run that gets there: enough failures at `t`, a check one timeout later, and `n` more at once, all
      of them admitted without waiting for the first probe's result. */
  lemma OutageAdmitsAnyNumberOfProbes(l: Limits, t: real, n: nat)
    ensures var outage := Steps(l, START, Repeat(Fail(t), AtLeastOne(l.failureThreshold)));
            var probe := Check(t + l.recoveryTimeout);
            && outage.state == Open && Step(l, outage, probe).state == HalfOpen
            && CountAdmitted(l, Step(l, outage, probe), Repeat(probe, n)) == n
  {
    var probe := Check(t + l.recoveryTimeout);
    FailuresOpen(l, t, AtLeastOne(l.failureThreshold));
    RepeatedChecks(probe, n);
    ProbingAdmitsEveryCheck(l, Steps(l, START, Repeat(Fail(t), AtLeastOne(l.failureThreshold))), probe, Repeat(probe, n));
  }

  /** A reset closes the circuit in any state and clears both counts; the time of the last failure stays. */
  lemma ResetClosesAndClears(l: Limits, c: Circuit, now: real)
    ensures var after := Step(l, c, Reset(now));
            && after.state == Closed && after.failures == 0 && after.successes == 0 && after.lastFailure == c.lastFailure
  {
  }

  // ---------------------------------------------------------------- the object

  class CircuitBreaker {
    const limits: Limits
    var state: State
    var failureCount: nat
    var successCount: nat
    var lastFailureTime: real

    ghost function View(): Circuit
      reads this
    {
      Circuit(state, failureCount, successCount, lastFailureTime)
    }

    constructor (limits: Limits)
      ensures View() == START && this.limits == limits
    {
      this.limits := limits;
      state, failureCount, successCount, lastFailureTime := Closed, 0, 0, 0.0;
    }

    method ReadState(now: real) returns (s: State)
      modifies this
      ensures View() == Step(limits, old(View()), Check(now)) && s == state
    {
      if state == Open && now - lastFailureTime >= limits.recoveryTimeout {
        state := HalfOpen;
        successCount := 0;
      }
      s := state;
    }

    method AllowRequest(now: real) returns (ok: bool)
      modifies this
      ensures View() == Step(limits, old(View()), Check(now)) && ok == Admits(View())
    {
      var s := ReadState(now);
      if s == Closed {
        return true;
      }
      return s == HalfOpen;
    }

    method RecordSuccess(now: real)
      modifies this
      ensures View() == Step(limits, old(View()), Succeed(now))
    {
      if state == HalfOpen {
        successCount := successCount + 1;
        if successCount >= limits.successThreshold {
          state := Closed;
          failureCount := 0;
          successCount := 0;
        }
      } else {
        failureCount := 0;
      }
    }

    method RecordFailure(now: real)
      modifies this
      ensures View() == Step(limits, old(View()), Fail(now))
    {
      failureCount := failureCount + 1;
      lastFailureTime := now;
      if state == HalfOpen {
        state := Open;
      } else if failureCount >= limits.failureThreshold {
        state := Open;
      }
    }

    method ManualReset(now: real)
      modifies this
      ensures View() == Step(limits, old(View()), Reset(now))
    {
      state := Closed;
      failureCount := 0;
      successCount := 0;
    }
  }
}
