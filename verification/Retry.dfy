/**
 Retrying with exponential backoff behind an optional circuit breaker. How each attempt goes, and what
 the clock shows, is a script: `script[i]` is what attempt `i + 1` meets if it is made.
 */
module Retries {
  import opened Collections
  import opened CircuitBreakers

  /** `announced` says that a retry after this failure can be announced: the log entry, for which the
      function must have a name, and the caller's `on_retry` hook do not raise. */
  datatype Outcome<T> = Returns(value: T) | FailsRetryably(error: string, announced: bool) | Raises

  datatype Try<T> = Try(outcome: Outcome<T>, checkAt: real, doneAt: real)

  datatype Plan = Plan(maxAttempts: int, baseDelay: real, maxDelay: real, factor: real)

  datatype Ending<T> =
    | Returned(value: T)
    | Escaped                      // an exception that is not retryable, or one of the announcement
    | Exhausted(attempts: int, last: Option<string>)   // RetryExhaustedError
    | Blocked(until: real)         // CircuitOpenError
    | SleepRefused                 // time.sleep of a negative delay

  datatype Trace<T> = Trace(ending: Ending<T>, calls: nat, delays: seq<real>, circuit: Option<Circuit>)

  function Power(x: real, n: nat): real {
    if n == 0 then 1.0 else x * Power(x, n - 1)
  }

  /** The delay after failed attempt `attempt`, counted from 1. */
  function Delay(p: Plan, attempt: nat): real
    requires attempt > 0
  {
    var d := p.baseDelay * Power(p.factor, attempt - 1);
    if d <= p.maxDelay then d else p.maxDelay
  }

  function Seen(l: Limits, c: Option<Circuit>, op: Op): Option<Circuit> {
    match c
    case None => None
    case Some(c) => Some(Step(l, c, op))
  }

  /** What the breaker is told of a call: nothing when the exception is not retryable. */
  function AfterCall<T>(l: Limits, c: Option<Circuit>, t: Try<T>): Option<Circuit> {
    match t.outcome
    case Returns(_) => Seen(l, c, Succeed(t.doneAt))
    case FailsRetryably(_, _) => Seen(l, c, Fail(t.doneAt))
    case Raises => c
  }

  /** The loop from attempt `i + 1` on. */
  function RetryFrom<T>(l: Limits, p: Plan, script: seq<Try<T>>, c: Option<Circuit>, i: nat): Trace<T>
    requires p.maxAttempts <= |script|
    decreases p.maxAttempts - i
  {
    if i >= p.maxAttempts then Trace(Exhausted(p.maxAttempts, None), 0, [], c)
    else
      var checked := Seen(l, c, Check(script[i].checkAt));
      if checked.Some? && !Admits(checked.value) then
        Trace(Blocked(checked.value.lastFailure + l.recoveryTimeout), 0, [], checked)
      else
        var after := AfterCall(l, checked, script[i]);
        match script[i].outcome
        case Returns(v) => Trace(Returned(v), 1, [], after)
        case Raises => Trace(Escaped, 1, [], after)
        case FailsRetryably(error, announced) =>
          if i + 1 == p.maxAttempts then Trace(Exhausted(p.maxAttempts, Some(error)), 1, [], after)
          else if !announced then Trace(Escaped, 1, [], after)
          else if Delay(p, i + 1) < 0.0 then Trace(SleepRefused, 1, [], after)
          else Prepend(1, [Delay(p, i + 1)], RetryFrom(l, p, script, after, i + 1))
  }

  function Prepend<T>(calls: nat, delays: seq<real>, t: Trace<T>): Trace<T> {
    t.(calls := calls + t.calls, delays := delays + t.delays)
  }

  ghost function ViewOf(breaker: CircuitBreaker?): Option<Circuit>
    reads breaker
  {
    if breaker == null then None else Some(breaker.View())
  }

  ghost function LimitsOf(breaker: CircuitBreaker?): Limits {
    if breaker == null then Limits(0, 0.0, 0) else breaker.limits
  }

  method RetryWithBackoff<T>(p: Plan, script: seq<Try<T>>, breaker: CircuitBreaker?)
    returns (ending: Ending<T>, calls: nat, delays: seq<real>)
    requires p.maxAttempts <= |script|
    modifies breaker
    ensures Trace(ending, calls, delays, ViewOf(breaker))
         == RetryFrom(LimitsOf(breaker), p, script, old(ViewOf(breaker)), 0)
  {
    calls, delays := 0, [];
    ghost var l := LimitsOf(breaker);
    ghost var whole := RetryFrom(l, p, script, ViewOf(breaker), 0);
    var i := 0;
    var last: Option<string> := None;
    while i < p.maxAttempts
      invariant calls == i && (i < p.maxAttempts || i == 0) && (i == 0 ==> last == None)
      invariant Prepend(calls, delays, RetryFrom(l, p, script, ViewOf(breaker), i)) == whole
    {
      if breaker != null {
        var ok := breaker.AllowRequest(script[i].checkAt);
        if !ok {
          return Blocked(breaker.lastFailureTime + breaker.limits.recoveryTimeout), calls, delays;
        }
      }
      calls := calls + 1;
      match script[i].outcome
      case Returns(v) =>
        if breaker != null {
          breaker.RecordSuccess(script[i].doneAt);
        }
        return Returned(v), calls, delays;
      case Raises =>
        return Escaped, calls, delays;
      case FailsRetryably(error, announced) =>
        last := Some(error);
        if breaker != null {
          breaker.RecordFailure(script[i].doneAt);
        }
        if i + 1 == p.maxAttempts {
          break;
        }
        if !announced {
          return Escaped, calls, delays;
        }
        var delay := Delay(p, i + 1);
        if delay < 0.0 {
          return SleepRefused, calls, delays;
        }
        PrependTwice(calls - 1, delays, 1, [delay], RetryFrom(l, p, script, ViewOf(breaker), i + 1));
        delays := delays + [delay];
        i := i + 1;
    }
    ending := Exhausted(p.maxAttempts, last);
  }

  lemma PrependTwice<T>(m: nat, a: seq<real>, n: nat, b: seq<real>, t: Trace<T>)
    ensures Prepend(m, a, Prepend(n, b, t)) == Prepend(m + n, a + b, t)
  {
    assert a + (b + t.delays) == a + b + t.delays;
  }

  // ---------------------------------------------------------------- how often the function is called

  /** Attempt `k + 1` fails and does not end the call by raising something else. */
  predicate Fails<T>(p: Plan, script: seq<Try<T>>, k: nat)
    requires k < p.maxAttempts <= |script|
  {
    script[k].outcome.FailsRetryably? && (script[k].outcome.announced || k + 1 == p.maxAttempts)
  }

  /** How many attempts from `i + 1` on would fail in a row. */
  function Failing<T>(p: Plan, script: seq<Try<T>>, i: nat): (n: nat)
    requires p.maxAttempts <= |script|
    ensures n > 0 ==> i + n <= p.maxAttempts
    ensures i + n < p.maxAttempts ==> !Fails(p, script, i + n)
    ensures forall k :: i <= k < i + n ==> Fails(p, script, k)
    decreases p.maxAttempts - i
  {
    if i < p.maxAttempts && Fails(p, script, i) then 1 + Failing(p, script, i + 1) else 0
  }

  /** How many calls in a row may fail before the breaker blocks the next one. */
  function Budget(l: Limits, c: Circuit): int {
    match c.state
    case Closed => AtLeastOne(l.failureThreshold) - c.failures
    case HalfOpen => 1
    case Open => 0
  }

  /** What an attempt that is not followed by another makes of the whole call. */
  function Settled<T>(outcome: Outcome<T>): Ending<T> {
    if outcome.Returns? then Returned(outcome.value) else Escaped
  }

  /** The error of the last attempt, reported when all have failed. */
  function AllFailed<T>(p: Plan, script: seq<Try<T>>): Ending<T>
    requires 0 < p.maxAttempts <= |script| && Fails(p, script, p.maxAttempts - 1)
  {
    Exhausted(p.maxAttempts, Some(script[p.maxAttempts - 1].outcome.error))
  }

  function Min(a: int, b: int): int { if a <= b then a else b }

  predicate NeverNegative(p: Plan) {
    p.baseDelay >= 0.0 && p.maxDelay >= 0.0 && p.factor >= 0.0
  }

  /** Less than the recovery timeout passes between a failure and the next check. */
  predicate Prompt<T>(l: Limits, script: seq<Try<T>>) {
    forall k :: 0 < k < |script| ==> script[k].checkAt - script[k - 1].doneAt < l.recoveryTimeout
  }

  lemma {:induction false} PowerIsNonNegative(x: real, n: nat)
    requires x >= 0.0
    ensures Power(x, n) >= 0.0
  {
    if n > 0 {
      PowerIsNonNegative(x, n - 1);
    }
  }

  lemma DelayIsNonNegative(p: Plan, attempt: nat)
    requires NeverNegative(p) && attempt > 0
    ensures Delay(p, attempt) >= 0.0
  {
    PowerIsNonNegative(p.factor, attempt - 1);
  }

  /** With `n` failures ahead, `m` attempts left and a budget of `b`, the function is called
      min(n + 1, m, b) times, and the breaker blocks exactly when the failures use up the budget before
      the attempts run out. */
  ghost predicate AsBudgeted<T>(l: Limits, p: Plan, script: seq<Try<T>>, c: Circuit, i: nat, t: Trace<T>)
    requires i < p.maxAttempts <= |script|
  {
    var n, m := Failing(p, script, i), p.maxAttempts - i;
    var b := Budget(l, Observed(l, c, script[i].checkAt));
    && t.calls == Min(Min(n + 1, m), b)
    && t.ending == (if n >= b && b < m then
                      Blocked((if b <= 0 then c.lastFailure else script[i + b - 1].doneAt) + l.recoveryTimeout)
                    else if n == m then AllFailed(p, script)
                    else Settled(script[i + n].outcome))
  }

  lemma OneFailureFewer<T>(l: Limits, p: Plan, script: seq<Try<T>>, c: Circuit, i: nat, rest: Trace<T>)
    requires i + 1 < p.maxAttempts <= |script| && Fails(p, script, i)
    requires script[i + 1].checkAt - script[i].doneAt < l.recoveryTimeout
    requires c.state == Closed ==> c.failures < AtLeastOne(l.failureThreshold)
    requires var checked := Observed(l, c, script[i].checkAt);
             Admits(checked) && AsBudgeted(l, p, script, Step(l, checked, Fail(script[i].doneAt)), i + 1, rest)
    ensures AsBudgeted(l, p, script, c, i, Prepend(1, [Delay(p, i + 1)], rest))
  {
    var checked := Observed(l, c, script[i].checkAt);
    var failed := Step(l, checked, Fail(script[i].doneAt));
    assert failed == Observed(l, failed, script[i + 1].checkAt);
    assert Budget(l, checked) == Budget(l, failed) + 1;
    assert Failing(p, script, i) == Failing(p, script, i + 1) + 1;
  }

  /** Attempt `i + 1` is made, fails, and is followed by another. */
  predicate GoesOn<T>(l: Limits, p: Plan, script: seq<Try<T>>, c: Circuit, i: nat)
    requires i < p.maxAttempts <= |script|
  {
    Admits(Observed(l, c, script[i].checkAt)) && Fails(p, script, i) && i + 1 < p.maxAttempts
  }

  lemma FirstOfMore<T>(l: Limits, p: Plan, script: seq<Try<T>>, c: Circuit, i: nat)
    requires i < p.maxAttempts <= |script| && GoesOn(l, p, script, c, i) && Delay(p, i + 1) >= 0.0
    requires c.state == Closed ==> c.failures < AtLeastOne(l.failureThreshold)
    ensures var failed := Step(l, Observed(l, c, script[i].checkAt), Fail(script[i].doneAt));
            && RetryFrom(l, p, script, Some(c), i) == Prepend(1, [Delay(p, i + 1)], RetryFrom(l, p, script, Some(failed), i + 1))
            && (failed.state == Closed ==> failed.failures < AtLeastOne(l.failureThreshold))
  {
  }

  lemma LastCall<T>(l: Limits, p: Plan, script: seq<Try<T>>, c: Circuit, i: nat)
    requires i < p.maxAttempts <= |script| && !GoesOn(l, p, script, c, i)
    requires c.state == Closed ==> c.failures < AtLeastOne(l.failureThreshold)
    ensures AsBudgeted(l, p, script, c, i, RetryFrom(l, p, script, Some(c), i))
  {
    var checked := Observed(l, c, script[i].checkAt);
    if !Admits(checked) {
      assert checked == c;
    } else if Fails(p, script, i) {
      assert i + 1 == p.maxAttempts && Failing(p, script, i) == 1;
    }
  }

  /** Behind a breaker in any state, when every failure is soon followed by the next check. */
  lemma {:induction false} CallsBehindABreaker<T>(l: Limits, p: Plan, script: seq<Try<T>>, c: Circuit, i: nat)
    requires i < p.maxAttempts <= |script| && NeverNegative(p) && Prompt(l, script)
    requires c.state == Closed ==> c.failures < AtLeastOne(l.failureThreshold)
    ensures AsBudgeted(l, p, script, c, i, RetryFrom(l, p, script, Some(c), i))
    decreases p.maxAttempts - i
  {
    if GoesOn(l, p, script, c, i) {
      DelayIsNonNegative(p, i + 1);
      var failed := Step(l, Observed(l, c, script[i].checkAt), Fail(script[i].doneAt));
      FirstOfMore(l, p, script, c, i);
      assert script[i + 1].checkAt - script[i + 1 - 1].doneAt < l.recoveryTimeout;
      CallsBehindABreaker(l, p, script, failed, i + 1);
      OneFailureFewer(l, p, script, c, i, RetryFrom(l, p, script, Some(failed), i + 1));
    } else {
      LastCall(l, p, script, c, i);
    }
  }

  /** Without a breaker. */
  lemma {:induction false} CallsWithoutABreaker<T>(l: Limits, p: Plan, script: seq<Try<T>>, i: nat)
    requires i < p.maxAttempts <= |script| && NeverNegative(p)
    ensures var t := RetryFrom(l, p, script, None, i);
            var n, m := Failing(p, script, i), p.maxAttempts - i;
            && t.calls == Min(n + 1, m)
            && t.ending == if n == m then AllFailed(p, script) else Settled(script[i + n].outcome)
    decreases p.maxAttempts - i
  {
    if Fails(p, script, i) && i + 1 < p.maxAttempts {
      DelayIsNonNegative(p, i + 1);
      CallsWithoutABreaker(l, p, script, i + 1);
    }
  }

  /** The statement about a whole call that starts on a circuit some run has reached: `f` failures on a
      closed circuit leave `failureThreshold - f` calls, a half-open circuit leaves one. */
  lemma BreakerLimitsTheCalls<T>(l: Limits, p: Plan, script: seq<Try<T>>, history: seq<Op>)
    requires 0 < p.maxAttempts <= |script| && NeverNegative(p) && Prompt(l, script)
    ensures var c := Steps(l, START, history);
            var t := RetryFrom(l, p, script, Some(c), 0);
            var failing := Failing(p, script, 0);
            && (c.state == Closed ==>
                  var b := AtLeastOne(l.failureThreshold) - TrailingFailures(history);
                  t.calls <= Min(p.maxAttempts, b) && (t.ending.Blocked? <==> failing >= b && b < p.maxAttempts))
            && (c.state == HalfOpen ==>
                  t.calls == 1 && (t.ending.Blocked? <==> Fails(p, script, 0) && 1 < p.maxAttempts))
  {
    HistoryExplainsEveryState(l, history);
    CallsBehindABreaker(l, p, script, Steps(l, START, history), 0);
  }

  /** Times never go back within or between attempts. */
  predicate InOrder<T>(script: seq<Try<T>>) {
    && (forall k :: 0 <= k < |script| ==> script[k].checkAt <= script[k].doneAt)
    && (forall k, m :: 0 <= k < m < |script| ==> script[k].doneAt <= script[m].checkAt)
  }

  /** A timed run without resets from `c` to `d`, not before `from`, with at most `calls` results. */
  ghost predicate RunsTo(l: Limits, c: Circuit, ops: seq<Op>, d: Option<Circuit>, from: real, calls: nat) {
    && d == Some(Steps(l, c, ops)) && NoReset(ops) && Timed(ops)
    && (forall k :: 0 <= k < |ops| ==> from <= ops[k].now)
    && CountFailures(ops) + CountSuccesses(ops) <= calls
  }

  lemma RunsAppend(l: Limits, c: Circuit, a: seq<Op>, b: seq<Op>, mid: Circuit, d: Option<Circuit>, from: real, until: real, calls: nat)
    requires RunsTo(l, c, a, Some(mid), from, 1) && RunsTo(l, mid, b, d, until, calls)
    requires from <= until && forall k :: 0 <= k < |a| ==> a[k].now <= until
    ensures RunsTo(l, c, a + b, d, from, calls + 1)
  {
    StepsAppend(l, c, a, b);
  }

  /** What the breaker sees of the attempt it admitted. */
  lemma OneAttempt<T>(l: Limits, c: Circuit, t: Try<T>) returns (ops: seq<Op>)
    requires t.checkAt <= t.doneAt
    ensures RunsTo(l, c, ops, AfterCall(l, Seen(l, Some(c), Check(t.checkAt)), t), t.checkAt, 1)
    ensures forall k :: 0 <= k < |ops| ==> ops[k].now <= t.doneAt
  {
    var check := Check(t.checkAt);
    if t.outcome == Raises {
      OneStep(l, c, check);
      return [check];
    }
    var done := if t.outcome.Returns? then Succeed(t.doneAt) else Fail(t.doneAt);
    TwoSteps(l, c, check, done);
    return [check, done];
  }

  /** What the breaker goes through in a whole call is a run of its own operations without a reset,
      timed if the script is, so everything said about runs holds across calls. */
  lemma {:induction false} RetryIsARun<T>(l: Limits, p: Plan, script: seq<Try<T>>, c: Circuit, i: nat)
    returns (ops: seq<Op>)
    requires p.maxAttempts <= |script| && InOrder(script)
    ensures i < p.maxAttempts ==>
      var t := RetryFrom(l, p, script, Some(c), i); RunsTo(l, c, ops, t.circuit, script[i].checkAt, t.calls)
    ensures i >= p.maxAttempts ==> ops == [] && RetryFrom(l, p, script, Some(c), i).circuit == Some(c)
    decreases p.maxAttempts - i
  {
    if i >= p.maxAttempts {
      return [];
    }
    var check := Check(script[i].checkAt);
    var checked := Step(l, c, check);
    if !Admits(checked) {
      OneStep(l, c, check);
      return [check];
    }
    ops := OneAttempt(l, c, script[i]);
    if Fails(p, script, i) && i + 1 != p.maxAttempts && Delay(p, i + 1) >= 0.0 {
      var after := Step(l, checked, Fail(script[i].doneAt));
      var rest := RetryIsARun(l, p, script, after, i + 1);
      var t := RetryFrom(l, p, script, Some(after), i + 1);
      RunsAppend(l, c, ops, rest, after, t.circuit, script[i].checkAt, script[i + 1].checkAt, t.calls);
      ops := ops + rest;
    }
  }

  // ---------------------------------------------------------------- what the breaker is told

  /** What the breaker should be told of attempt `k + 1` once it is made: the check that admitted it, then
      the success of a call that returns or the failure of one that fails retryably, and nothing of one
      that raises something else. */
  function OpsOf<T>(t: Try<T>): seq<Op> {
    match t.outcome
    case Returns(_) => [Check(t.checkAt), Succeed(t.doneAt)]
    case FailsRetryably(_, _) => [Check(t.checkAt), Fail(t.doneAt)]
    case Raises => [Check(t.checkAt)]
  }

  /** ... and of the attempts from `i + 1` on, of which `calls` are made; the check of one that is blocked
      comes last. */
  function ToldFrom<T>(script: seq<Try<T>>, i: nat, calls: nat, blocked: bool): seq<Op>
    requires i + calls + (if blocked then 1 else 0) <= |script|
    decreases calls
  {
    if calls > 0 then OpsOf(script[i]) + ToldFrom(script, i + 1, calls - 1, blocked)
    else if blocked then [Check(script[i].checkAt)]
    else []
  }

  /** The call fits into the script, and has told its breaker exactly what it should. */
  ghost predicate TellsAll<T>(l: Limits, script: seq<Try<T>>, c: Circuit, i: nat, t: Trace<T>) {
    && i + t.calls + (if t.ending.Blocked? then 1 else 0) <= |script|
    && t.circuit == Some(Steps(l, c, ToldFrom(script, i, t.calls, t.ending.Blocked?)))
  }

  lemma FirstTold<T>(l: Limits, c: Circuit, t: Try<T>)
    ensures AfterCall(l, Seen(l, Some(c), Check(t.checkAt)), t) == Some(Steps(l, c, OpsOf(t)))
  {
    OneStep(l, c, Check(t.checkAt));
    TwoSteps(l, c, Check(t.checkAt), Succeed(t.doneAt));
    TwoSteps(l, c, Check(t.checkAt), Fail(t.doneAt));
  }

  /** Attempt `i + 1` is made, and after its delay another is tried. */
  predicate TriesAgain<T>(l: Limits, p: Plan, script: seq<Try<T>>, c: Circuit, i: nat)
    requires i < p.maxAttempts <= |script|
  {
    && Admits(Step(l, c, Check(script[i].checkAt))) && Fails(p, script, i)
    && i + 1 < p.maxAttempts && Delay(p, i + 1) >= 0.0
  }

  lemma TryingAgain<T>(l: Limits, p: Plan, script: seq<Try<T>>, c: Circuit, i: nat)
    requires i < p.maxAttempts <= |script| && TriesAgain(l, p, script, c, i)
    ensures Admits(Step(l, c, Check(script[i].checkAt))) && i + 1 < p.maxAttempts
    ensures RetryFrom(l, p, script, Some(c), i)
         == Prepend(1, [Delay(p, i + 1)], RetryFrom(l, p, script, Some(Steps(l, c, OpsOf(script[i]))), i + 1))
  {
    FirstTold(l, c, script[i]);
  }

  lemma TellsOneMore<T>(l: Limits, script: seq<Try<T>>, c: Circuit, i: nat, after: Circuit, rest: Trace<T>, delay: real)
    requires i < |script| && after == Steps(l, c, OpsOf(script[i])) && TellsAll(l, script, after, i + 1, rest)
    ensures TellsAll(l, script, c, i, Prepend(1, [delay], rest))
  {
    StepsAppend(l, c, OpsOf(script[i]), ToldFrom(script, i + 1, rest.calls, rest.ending.Blocked?));
  }

  lemma TellsTheLast<T>(l: Limits, p: Plan, script: seq<Try<T>>, c: Circuit, i: nat)
    requires i < p.maxAttempts <= |script| && !TriesAgain(l, p, script, c, i)
    ensures TellsAll(l, script, c, i, RetryFrom(l, p, script, Some(c), i))
  {
    FirstTold(l, c, script[i]);
    OneStep(l, c, Check(script[i].checkAt));
    assert OpsOf(script[i]) + [] == OpsOf(script[i]);
    assert ToldFrom(script, i, 1, false) == OpsOf(script[i]) + ToldFrom(script, i + 1, 0, false);
  }

  /** A call tells its breaker exactly this: one check before each attempt and one for a blocked one, a
      success when the attempt returned and a failure when it failed retryably. */
  lemma {:induction false} BreakerIsToldExactly<T>(l: Limits, p: Plan, script: seq<Try<T>>, c: Circuit, i: nat)
    requires i < p.maxAttempts <= |script|
    ensures TellsAll(l, script, c, i, RetryFrom(l, p, script, Some(c), i))
    decreases p.maxAttempts - i
  {
    if TriesAgain(l, p, script, c, i) {
      var after := Steps(l, c, OpsOf(script[i]));
      TryingAgain(l, p, script, c, i);
      BreakerIsToldExactly(l, p, script, after, i + 1);
      TellsOneMore(l, script, c, i, after, RetryFrom(l, p, script, Some(after), i + 1), Delay(p, i + 1));
    } else {
      TellsTheLast(l, p, script, c, i);
    }
  }

  /** How many of `calls` attempts from `i + 1` on failed retryably. */
  function FailedAmong<T>(script: seq<Try<T>>, i: nat, calls: nat): nat
    requires i + calls <= |script|
    decreases calls
  {
    if calls == 0 then 0 else (if script[i].outcome.FailsRetryably? then 1 else 0) + FailedAmong(script, i + 1, calls - 1)
  }

  function ReturnedAmong<T>(script: seq<Try<T>>, i: nat, calls: nat): nat
    requires i + calls <= |script|
    decreases calls
  {
    if calls == 0 then 0 else (if script[i].outcome.Returns? then 1 else 0) + ReturnedAmong(script, i + 1, calls - 1)
  }

  lemma {:induction false} CountsAppend(a: seq<Op>, b: seq<Op>)
    ensures CountFailures(a + b) == CountFailures(a) + CountFailures(b)
    ensures CountSuccesses(a + b) == CountSuccesses(a) + CountSuccesses(b)
    ensures CountChecks(a + b) == CountChecks(a) + CountChecks(b)
  {
    if b == [] {
      assert a + b == a;
    } else {
      CountsAppend(a, b[..|b| - 1]);
      assert (a + b)[..|a + b| - 1] == a + b[..|b| - 1];
    }
  }

  lemma CountsOfOne<T>(t: Try<T>)
    ensures var ops := OpsOf(t);
            && CountChecks(ops) == 1
            && CountFailures(ops) == (if t.outcome.FailsRetryably? then 1 else 0)
            && CountSuccesses(ops) == (if t.outcome.Returns? then 1 else 0)
  {
    var ops := OpsOf(t);
    assert ops[..1][..0] == [] && ops[..1] == [Check(t.checkAt)];
    assert CountChecks(ops[..1]) == 1 && CountFailures(ops[..1]) == 0 && CountSuccesses(ops[..1]) == 0;
    assert |ops| == 1 ==> ops == ops[..1];
    assert |ops| == 2 ==> ops[..|ops| - 1] == ops[..1];
  }

  lemma {:induction false} ToldCounts<T>(script: seq<Try<T>>, i: nat, calls: nat, blocked: bool)
    requires i + calls + (if blocked then 1 else 0) <= |script|
    ensures var ops := ToldFrom(script, i, calls, blocked);
            && CountChecks(ops) == calls + (if blocked then 1 else 0)
            && CountFailures(ops) == FailedAmong(script, i, calls)
            && CountSuccesses(ops) == ReturnedAmong(script, i, calls)
    decreases calls
  {
    if calls > 0 {
      ToldCounts(script, i + 1, calls - 1, blocked);
      CountsOfOne(script[i]);
      CountsAppend(OpsOf(script[i]), ToldFrom(script, i + 1, calls - 1, blocked));
    } else if blocked {
      assert [Check(script[i].checkAt)][..0] == [];
    }
  }

  /** Only the last attempt of a call can return, and it does exactly when the call does. */
  lemma {:induction false} OnlyTheLastReturns<T>(l: Limits, p: Plan, script: seq<Try<T>>, c: Option<Circuit>, i: nat)
    requires i < p.maxAttempts <= |script|
    ensures var t := RetryFrom(l, p, script, c, i);
            && i + t.calls <= |script|
            && ReturnedAmong(script, i, t.calls) == (if t.ending.Returned? then 1 else 0)
            && (t.ending.Returned? ==> t.calls > 0 && script[i + t.calls - 1].outcome == Returns(t.ending.value))
    decreases p.maxAttempts - i
  {
    var checked := Seen(l, c, Check(script[i].checkAt));
    if (checked.None? || Admits(checked.value)) && Fails(p, script, i)
       && i + 1 < p.maxAttempts && Delay(p, i + 1) >= 0.0
    {
      OnlyTheLastReturns(l, p, script, AfterCall(l, checked, script[i]), i + 1);
    }
  }

  /** A run of the breaker that is a whole call's: a success exactly when the call returns, and a failure
      for each attempt that failed retryably. */
  lemma CallIsCounted<T>(l: Limits, p: Plan, script: seq<Try<T>>, c: Circuit) returns (ops: seq<Op>)
    requires 0 < p.maxAttempts <= |script|
    ensures var t := RetryFrom(l, p, script, Some(c), 0);
            && t.calls <= |script|
            && t.circuit == Some(Steps(l, c, ops))
            && CountSuccesses(ops) == (if t.ending.Returned? then 1 else 0)
            && CountFailures(ops) == FailedAmong(script, 0, t.calls)
            && CountChecks(ops) == t.calls + (if t.ending.Blocked? then 1 else 0)
            && (t.ending.Returned? ==> ops != [] && ops[|ops| - 1].Succeed?)
  {
    var t := RetryFrom(l, p, script, Some(c), 0);
    BreakerIsToldExactly(l, p, script, c, 0);
    OnlyTheLastReturns(l, p, script, Some(c), 0);
    ops := ToldFrom(script, 0, t.calls, t.ending.Blocked?);
    ToldCounts(script, 0, t.calls, t.ending.Blocked?);
    if t.ending.Returned? {
      LastTold(script, 0, t.calls);
    }
  }

  lemma {:induction false} LastTold<T>(script: seq<Try<T>>, i: nat, calls: nat)
    requires calls > 0 && i + calls <= |script| && script[i + calls - 1].outcome.Returns?
    ensures var ops := ToldFrom(script, i, calls, false);
            |ops| >= 2 && ops[|ops| - 1] == Succeed(script[i + calls - 1].doneAt)
                       && ops[|ops| - 2] == Check(script[i + calls - 1].checkAt)
    decreases calls
  {
    if calls > 1 {
      LastTold(script, i + 1, calls - 1);
    } else {
      assert ToldFrom(script, i + 1, 0, false) == [];
    }
  }

  /** The breaker when, after `done` attempts from `i + 1` on, it is checked for the next one. */
  function CheckedAfter<T>(l: Limits, script: seq<Try<T>>, c: Circuit, i: nat, done: nat): Circuit
    requires i + done < |script|
  {
    Steps(l, c, ToldFrom(script, i, done, false) + [Check(script[i + done].checkAt)])
  }

  /** With a success recorded, a closed circuit has no failures, a half-open one has one success more, or
      is closed with counts cleared. */
  predicate OneSuccessLater(l: Limits, admitted: Circuit, after: Circuit) {
    && (admitted.state == Closed ==> after.state == Closed && after.failures == 0)
    && (admitted.state == HalfOpen && admitted.successes + 1 < AtLeastOne(l.successThreshold) ==>
          after.state == HalfOpen && after.successes == admitted.successes + 1)
    && (admitted.state == HalfOpen && admitted.successes + 1 >= AtLeastOne(l.successThreshold) ==>
          after.state == Closed && after.failures == 0 && after.successes == 0)
  }

  lemma LastSuccess<T>(l: Limits, script: seq<Try<T>>, c: Circuit, calls: nat)
    requires 0 < calls <= |script| && script[calls - 1].outcome.Returns?
    ensures Steps(l, c, ToldFrom(script, 0, calls, false))
         == Step(l, CheckedAfter(l, script, c, 0, calls - 1), Succeed(script[calls - 1].doneAt))
  {
    var before, last := ToldFrom(script, 0, calls - 1, false), script[calls - 1];
    ToldEndsWith(script, 0, calls);
    StepsAppend(l, c, before, OpsOf(last));
    StepsAppend(l, c, before, [Check(last.checkAt)]);
    TwoSteps(l, Steps(l, c, before), Check(last.checkAt), Succeed(last.doneAt));
    OneStep(l, Steps(l, c, before), Check(last.checkAt));
  }

  /** What a call that returns leaves of its breaker: one success on the breaker that admitted it. */
  lemma ReturningCallIsASuccess<T>(l: Limits, p: Plan, script: seq<Try<T>>, c: Circuit)
    requires 0 < p.maxAttempts <= |script| && RetryFrom(l, p, script, Some(c), 0).ending.Returned?
    ensures var t := RetryFrom(l, p, script, Some(c), 0);
            && t.circuit.Some? && 0 < t.calls <= |script|
            && Admits(CheckedAfter(l, script, c, 0, t.calls - 1))
            && OneSuccessLater(l, CheckedAfter(l, script, c, 0, t.calls - 1), t.circuit.value)
  {
    var t := RetryFrom(l, p, script, Some(c), 0);
    BreakerIsToldExactly(l, p, script, c, 0);
    OnlyTheLastReturns(l, p, script, Some(c), 0);
    LastSuccess(l, script, c, t.calls);
    AdmittedToTheLast(l, p, script, c, 0);
  }

  /** A first attempt that returns resets a closed breaker and counts once on a half-open one. */
  lemma FirstAttemptReturns<T>(l: Limits, p: Plan, script: seq<Try<T>>, c: Circuit)
    requires 0 < p.maxAttempts <= |script| && script[0].outcome.Returns? && c.state != Open
    ensures var t := RetryFrom(l, p, script, Some(c), 0);
            t.ending == Returned(script[0].outcome.value) && t.circuit.Some? && OneSuccessLater(l, c, t.circuit.value)
  {
  }

  lemma {:induction false} ToldEndsWith<T>(script: seq<Try<T>>, i: nat, calls: nat)
    requires calls > 0 && i + calls <= |script|
    ensures ToldFrom(script, i, calls, false) == ToldFrom(script, i, calls - 1, false) + OpsOf(script[i + calls - 1])
    decreases calls
  {
    if calls > 1 {
      ToldEndsWith(script, i + 1, calls - 1);
    } else {
      assert ToldFrom(script, i + 1, 0, false) == [] == ToldFrom(script, i, 0, false);
    }
  }

  lemma ToldBeforeTheNext<T>(l: Limits, script: seq<Try<T>>, c: Circuit, i: nat, calls: nat)
    requires calls > 0 && i + calls < |script|
    ensures CheckedAfter(l, script, c, i, calls)
         == CheckedAfter(l, script, Steps(l, c, OpsOf(script[i])), i + 1, calls - 1)
  {
    var first, told := OpsOf(script[i]), ToldFrom(script, i + 1, calls - 1, false);
    var last := [Check(script[i + calls].checkAt)];
    assert ToldFrom(script, i, calls, false) == first + told;
    RegroupOps(first, told, last);
    StepsAppend(l, c, first, told + last);
  }

  lemma RegroupOps(a: seq<Op>, b: seq<Op>, c: seq<Op>)
    ensures a + b + c == a + (b + c)
  {
  }

  ghost predicate LastAdmitted<T>(l: Limits, script: seq<Try<T>>, c: Circuit, i: nat, calls: nat) {
    i + calls <= |script| && (calls > 0 ==> Admits(CheckedAfter(l, script, c, i, calls - 1)))
  }

  lemma AdmittedOnce<T>(l: Limits, script: seq<Try<T>>, c: Circuit, i: nat)
    requires i < |script|
    ensures CheckedAfter(l, script, c, i, 0) == Step(l, c, Check(script[i].checkAt))
  {
    OneStep(l, c, Check(script[i].checkAt));
    assert ToldFrom(script, i, 0, false) + [Check(script[i].checkAt)] == [Check(script[i].checkAt)];
  }

  lemma AdmittedOneMore<T>(l: Limits, script: seq<Try<T>>, c: Circuit, i: nat, calls: nat)
    requires i < |script| && Admits(Step(l, c, Check(script[i].checkAt)))
    requires LastAdmitted(l, script, Steps(l, c, OpsOf(script[i])), i + 1, calls)
    ensures LastAdmitted(l, script, c, i, calls + 1)
  {
    if calls > 0 {
      ToldBeforeTheNext(l, script, c, i, calls);
    } else {
      AdmittedOnce(l, script, c, i);
    }
  }

  /** Every attempt that is made was admitted. */
  lemma {:induction false} AdmittedToTheLast<T>(l: Limits, p: Plan, script: seq<Try<T>>, c: Circuit, i: nat)
    requires i < p.maxAttempts <= |script|
    ensures LastAdmitted(l, script, c, i, RetryFrom(l, p, script, Some(c), i).calls)
    decreases p.maxAttempts - i
  {
    if TriesAgain(l, p, script, c, i) {
      var after := Steps(l, c, OpsOf(script[i]));
      TryingAgain(l, p, script, c, i);
      AdmittedToTheLast(l, p, script, after, i + 1);
      AdmittedOneMore(l, script, c, i, RetryFrom(l, p, script, Some(after), i + 1).calls);
    } else {
      AdmittedAtMostOnce(l, p, script, c, i);
    }
  }

  lemma AdmittedAtMostOnce<T>(l: Limits, p: Plan, script: seq<Try<T>>, c: Circuit, i: nat)
    requires i < p.maxAttempts <= |script| && !TriesAgain(l, p, script, c, i)
    ensures LastAdmitted(l, script, c, i, RetryFrom(l, p, script, Some(c), i).calls)
  {
    AdmittedOnce(l, script, c, i);
  }

  lemma OneStep(l: Limits, c: Circuit, op: Op)
    ensures Steps(l, c, [op]) == Step(l, c, op)
    ensures CountFailures([op]) == (if op.Fail? then 1 else 0) && CountSuccesses([op]) == (if op.Succeed? then 1 else 0)
  {
    assert [op][..0] == [];
  }

  lemma TwoSteps(l: Limits, c: Circuit, a: Op, b: Op)
    ensures Steps(l, c, [a, b]) == Step(l, Step(l, c, a), b)
    ensures CountFailures([a, b]) == (if a.Fail? then 1 else 0) + (if b.Fail? then 1 else 0)
    ensures CountSuccesses([a, b]) == (if a.Succeed? then 1 else 0) + (if b.Succeed? then 1 else 0)
  {
    OneStep(l, c, a);
    assert [a, b][..1] == [a];
  }

  lemma {:induction false} StepsAppend(l: Limits, c: Circuit, a: seq<Op>, b: seq<Op>)
    ensures Steps(l, c, a + b) == Steps(l, Steps(l, c, a), b)
    ensures CountFailures(a + b) == CountFailures(a) + CountFailures(b)
    ensures CountSuccesses(a + b) == CountSuccesses(a) + CountSuccesses(b)
  {
    if b == [] {
      assert a + b == a;
    } else {
      var n := |b| - 1;
      StepsAppend(l, c, a, b[..n]);
      assert (a + b)[..|a + b| - 1] == a + b[..n];
    }
  }

  // ---------------------------------------------------------------- how long it waits

  /** The waits are the delays of the attempts that failed and were followed by another one. */
  lemma {:induction false} WaitsAreTheDelays<T>(l: Limits, p: Plan, script: seq<Try<T>>, c: Option<Circuit>, i: nat)
    requires p.maxAttempts <= |script|
    ensures var t := RetryFrom(l, p, script, c, i);
            && (forall k :: 0 <= k < |t.delays| ==> t.delays[k] == Delay(p, i + k + 1))
            && |t.delays| == (if t.ending.Blocked? || t.calls == 0 then t.calls else t.calls - 1)
    decreases p.maxAttempts - i
  {
    if i < p.maxAttempts {
      var checked := Seen(l, c, Check(script[i].checkAt));
      if (checked.None? || Admits(checked.value)) && Fails(p, script, i)
         && i + 1 != p.maxAttempts && Delay(p, i + 1) >= 0.0
      {
        var after := AfterCall(l, checked, script[i]);
        WaitsAreTheDelays(l, p, script, after, i + 1);
        var rest := RetryFrom(l, p, script, after, i + 1);
        assert rest.calls > 0 || rest.ending.Blocked?;
      }
    }
  }

  function Total(waits: seq<real>): real {
    if waits == [] then 0.0 else Total(waits[..|waits| - 1]) + waits[|waits| - 1]
  }

  lemma {:induction false} FirstDelaysTotal(p: Plan, waits: seq<real>)
    requires forall k :: 0 <= k < |waits| ==> waits[k] == Delay(p, k + 1)
    ensures Total(waits) == TotalDelay(p, |waits|)
  {
    if waits != [] {
      FirstDelaysTotal(p, waits[..|waits| - 1]);
    }
  }

  /** A call waits for as long as its first delays add up to, one for each attempt that was followed by a
      check for another. */
  lemma CallWaitsTheTotal<T>(l: Limits, p: Plan, script: seq<Try<T>>, c: Option<Circuit>)
    requires p.maxAttempts <= |script|
    ensures var t := RetryFrom(l, p, script, c, 0);
            var n := if t.ending.Blocked? || t.calls == 0 then t.calls else t.calls - 1;
            Total(t.delays) == TotalDelay(p, n)
  {
    WaitsAreTheDelays(l, p, script, c, 0);
    FirstDelaysTotal(p, RetryFrom(l, p, script, c, 0).delays);
  }

  predicate Uncapped(p: Plan, attempt: nat)
    requires attempt > 0
  {
    p.baseDelay * Power(p.factor, attempt - 1) <= p.maxDelay
  }

  predicate Growing(p: Plan) {
    p.baseDelay >= 0.0 && p.factor >= 1.0
  }

  lemma RawDelaysGrow(p: Plan, attempt: nat)
    requires Growing(p) && attempt > 0
    ensures p.baseDelay * Power(p.factor, attempt - 1) <= p.baseDelay * Power(p.factor, attempt)
  {
    PowerIsNonNegative(p.factor, attempt - 1);
    var q := Power(p.factor, attempt - 1);
    ProductGrows(p.factor, q);
    ProductOrder(p.baseDelay, q, p.factor * q);
  }

  lemma ProductGrows(f: real, q: real)
    requires f >= 1.0 && q >= 0.0
    ensures q <= f * q
  {
  }

  lemma ProductOrder(b: real, x: real, y: real)
    requires b >= 0.0 && x <= y
    ensures b * x <= b * y
  {
  }

  /** With a factor of at least one the delays never shrink, and once capped they stay capped. */
  lemma DelaysNeverShrink(p: Plan, attempt: nat)
    requires Growing(p) && attempt > 0
    ensures Delay(p, attempt) <= Delay(p, attempt + 1) <= p.maxDelay
    ensures Uncapped(p, attempt + 1) ==> Uncapped(p, attempt)
  {
    RawDelaysGrow(p, attempt);
  }

  /** How many of the first `m` delays are below or at the cap. */
  function UncappedCount(p: Plan, m: nat): (u: nat)
    ensures u <= m
  {
    if m == 0 then 0 else if Uncapped(p, m) then m else UncappedCount(p, m - 1)
  }

  function TotalDelay(p: Plan, m: nat): real {
    if m == 0 then 0.0 else TotalDelay(p, m - 1) + Delay(p, m)
  }

  lemma {:induction false} UncappedComeFirst(p: Plan, m: nat, k: nat)
    requires Growing(p) && 0 < k <= m
    ensures Uncapped(p, k) <==> k <= UncappedCount(p, m)
  {
    if k < m {
      UncappedComeFirst(p, m - 1, k);
      if Uncapped(p, m) {
        DelaysNeverShrink(p, m - 1);
        UncappedComeFirst(p, m - 1, m - 1);
        assert UncappedCount(p, m - 1) == m - 1;
      }
    } else if !Uncapped(p, m) && m > 1 {
      assert UncappedCount(p, m) == UncappedCount(p, m - 1) <= m - 1;
    }
  }

  lemma AllUncappedComeFirst(p: Plan, m: nat)
    requires Growing(p)
    ensures forall k :: 0 < k <= m ==> (Uncapped(p, k) <==> k <= UncappedCount(p, m))
  {
    forall k | 0 < k <= m ensures Uncapped(p, k) <==> k <= UncappedCount(p, m) {
      UncappedComeFirst(p, m, k);
    }
  }

  /** The sum of the first `u` delays had they no cap. */
  function RawTotal(p: Plan, u: nat): real {
    if u == 0 then 0.0 else RawTotal(p, u - 1) + p.baseDelay * Power(p.factor, u - 1)
  }

  /** The geometric closed form of the first `u` delays, without a division. */
  predicate Geometric(p: Plan, u: nat, raw: real) {
    raw * (p.factor - 1.0) == p.baseDelay * (Power(p.factor, u) - 1.0)
  }

  lemma {:induction false} RawTotalIsGeometric(p: Plan, u: nat)
    ensures Geometric(p, u, RawTotal(p, u))
  {
    if u > 0 {
      RawTotalIsGeometric(p, u - 1);
      OneMoreTerm(p, u - 1, RawTotal(p, u - 1));
    }
  }

  lemma OneMoreTerm(p: Plan, u: nat, raw: real)
    requires Geometric(p, u, raw)
    ensures Geometric(p, u + 1, raw + p.baseDelay * Power(p.factor, u))
  {
    GeometricStep(p.baseDelay, p.factor, Power(p.factor, u), raw);
  }

  lemma GeometricStep(b: real, f: real, q: real, total: real)
    requires total * (f - 1.0) == b * (q - 1.0)
    ensures (total + b * q) * (f - 1.0) == b * (f * q - 1.0)
  {
    calc {
      (total + b * q) * (f - 1.0);
      total * (f - 1.0) + b * q * (f - 1.0);
      b * (q - 1.0) + b * q * (f - 1.0);
      b * (q - 1.0 + q * (f - 1.0));
      b * (f * q - 1.0);
    }
  }

  /** `n` capped delays. */
  function CappedTotal(p: Plan, n: nat): real {
    if n == 0 then 0.0 else CappedTotal(p, n - 1) + p.maxDelay
  }

  predicate Times(total: real, n: nat, each: real) {
    total == n as real * each
  }

  lemma {:induction false} CappedTotalMultiplies(p: Plan, n: nat)
    ensures Times(CappedTotal(p, n), n, p.maxDelay)
  {
    if n > 0 {
      CappedTotalMultiplies(p, n - 1);
      var k := (n - 1) as real;
      assert n as real == k + 1.0;
      assert (k + 1.0) * p.maxDelay == k * p.maxDelay + p.maxDelay;
    }
  }

  lemma {:induction false} TotalSplitsAtTheCap(p: Plan, m: nat)
    requires Growing(p)
    ensures var u := UncappedCount(p, m); TotalDelay(p, m) == RawTotal(p, u) + CappedTotal(p, m - u)
  {
    if m > 0 {
      TotalSplitsAtTheCap(p, m - 1);
      if Uncapped(p, m) && m > 1 {
        UncappedComeFirst(p, m, m - 1);
        UncappedComeFirst(p, m - 1, m - 1);
        assert UncappedCount(p, m - 1) == m - 1;
      }
    }
  }

  /** The sum of the first `m` delays, of which exactly the first `u` are uncapped: the geometric closed
      form of those plus the cap for every other one. */
  lemma TotalDelayClosedForm(p: Plan, m: nat) returns (u: nat, raw: real, capped: real)
    requires Growing(p)
    ensures u <= m && forall k :: 0 < k <= m ==> (Uncapped(p, k) <==> k <= u)
    ensures TotalDelay(p, m) == raw + capped
    ensures Geometric(p, u, raw) && Times(capped, m - u, p.maxDelay)
  {
    u := UncappedCount(p, m);
    raw, capped := RawTotal(p, u), CappedTotal(p, m - u);
    AllUncappedComeFirst(p, m);
    TotalSplitsAtTheCap(p, m);
    CappedTotalMultiplies(p, m - u);
    RawTotalIsGeometric(p, u);
  }
}
