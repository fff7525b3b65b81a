/**
 One budget tracker used by several threads, or by an approval handler that issues calls of its own.
 The governor takes no lock between `can_admit` and `acquire`, so a call may be admitted on counters that
 other admitted calls are about to raise. Here the two are separate steps, each of them indivisible, and
 what the limits are still worth depends on how many calls are between them at once.
 */
module GovernorThreads {
  import opened Collections
  import opened Governor

  datatype Pass = Pass(tool: string, category: Category)

  /** The tracker, and the calls that it has admitted and that have not acquired their slot yet. */
  datatype Race = Race(tracker: Tracker, waiting: seq<Pass>)

  /** A step that names no waiting or no running call is not one the program can take. */
  datatype ThreadStep =
    | Check(tool: string, category: Category, at: real)   // can_admit
    | Acquire(i: nat)                                     // acquire, by one of the waiting calls
    | GiveUp(i: nat)                                      // its approval is denied, or the handler raises
    | Release                                             // a running call ends

  function Without(waiting: seq<Pass>, i: nat): seq<Pass>
    requires i < |waiting|
  {
    waiting[..i] + waiting[i + 1..]
  }

  function Apply(r: Race, s: ThreadStep): Race {
    var t := r.tracker;
    match s
    case Check(tool, category, at) =>
      if Refusal(t, tool, category, at).Some? then r else r.(waiting := r.waiting + [Pass(tool, category)])
    case Acquire(i) =>
      if i >= |r.waiting| then r
      else Race(Acquired(t, r.waiting[i].tool, r.waiting[i].category), Without(r.waiting, i))
    case GiveUp(i) => if i >= |r.waiting| then r else r.(waiting := Without(r.waiting, i))
    case Release => r.(tracker := Released(t))
  }

  function RunThreads(r: Race, steps: seq<ThreadStep>): Race {
    if steps == [] then r else Apply(RunThreads(r, steps[..|steps| - 1]), steps[|steps| - 1])
  }

  function Fresh(limits: Limits, start: real): Race {
    Race(NewTracker(limits, start), [])
  }

  function Max(a: nat, b: nat): nat { if a >= b then a else b }

  /** The largest number of calls that were between their check and their slot at one time. */
  function Peak(r: Race, steps: seq<ThreadStep>): nat {
    if steps == [] then |r.waiting| else Max(Peak(r, steps[..|steps| - 1]), |RunThreads(r, steps).waiting|)
  }

  // ---------------------------------------------------------------- what the limits are still worth

  /** With at most `p` calls in between, a count exceeds its limit by at most `p - 1`. */
  predicate Slack(limit: int, count: nat, p: nat) {
    limit == 0 || (if limit > 0 then count < limit + p else count == 0)
  }

  function WaitingFor(waiting: seq<Pass>, tool: string): (n: nat)
    ensures n <= |waiting|
  {
    if waiting == [] then 0
    else
      var n := |waiting| - 1;
      WaitingFor(waiting[..n], tool) + (if waiting[n].tool == tool then 1 else 0)
  }

  lemma {:induction false} WaitingForAppend(a: seq<Pass>, b: seq<Pass>, tool: string)
    ensures WaitingFor(a + b, tool) == WaitingFor(a, tool) + WaitingFor(b, tool)
  {
    if b == [] {
      assert a + b == a;
    } else {
      WaitingForAppend(a, b[..|b| - 1], tool);
      assert (a + b)[..|a + b| - 1] == a + b[..|b| - 1];
    }
  }

  lemma WaitingForWithout(waiting: seq<Pass>, i: nat, tool: string)
    requires i < |waiting|
    ensures WaitingFor(waiting, tool)
         == WaitingFor(Without(waiting, i), tool) + (if waiting[i].tool == tool then 1 else 0)
  {
    assert waiting == waiting[..i + 1] + waiting[i + 1..];
    WaitingForAppend(waiting[..i + 1], waiting[i + 1..], tool);
    WaitingForAppend(waiting[..i], waiting[i + 1..], tool);
    assert waiting[..i + 1][..i] == waiting[..i];
  }

  ghost predicate RaceInv(r: Race, p: nat) {
    var t, w := r.tracker, r.waiting;
    && Slack(t.limits.maxTotal, t.total + |w|, p)
    && Slack(t.limits.maxParallel, t.inFlight + |w|, p)
    && (forall tool :: Slack(t.limits.maxPerTool, t.CallsTo(tool) + WaitingFor(w, tool), p))
    && SumValues(t.perTool) == t.total
  }

  lemma CheckKeepsRaceInv(r: Race, p: nat, tool: string, category: Category, at: real)
    requires RaceInv(r, p) && |Apply(r, Check(tool, category, at)).waiting| <= p
    ensures RaceInv(Apply(r, Check(tool, category, at)), p)
  {
    var w := r.waiting + [Pass(tool, category)];
    if Refusal(r.tracker, tool, category, at).None? {
      forall other ensures Slack(r.tracker.limits.maxPerTool, r.tracker.CallsTo(other) + WaitingFor(w, other), p) {
        assert w[..|r.waiting|] == r.waiting;
        assert Slack(r.tracker.limits.maxPerTool, r.tracker.CallsTo(other) + WaitingFor(r.waiting, other), p);
      }
    }
  }

  lemma AcquireKeepsRaceInv(r: Race, p: nat, i: nat)
    requires RaceInv(r, p) && i < |r.waiting|
    ensures RaceInv(Apply(r, Acquire(i)), p)
  {
    var t, pass := r.tracker, r.waiting[i];
    var u := Acquired(t, pass.tool, pass.category);
    SumValuesUpdate(t.perTool, pass.tool, t.CallsTo(pass.tool) + 1);
    forall tool ensures Slack(u.limits.maxPerTool, u.CallsTo(tool) + WaitingFor(Without(r.waiting, i), tool), p) {
      WaitingForWithout(r.waiting, i, tool);
      assert Slack(t.limits.maxPerTool, t.CallsTo(tool) + WaitingFor(r.waiting, tool), p);
    }
  }

  lemma GiveUpKeepsRaceInv(r: Race, p: nat, i: nat)
    requires RaceInv(r, p) && i < |r.waiting|
    ensures RaceInv(Apply(r, GiveUp(i)), p)
  {
    var t := r.tracker;
    forall tool ensures Slack(t.limits.maxPerTool, t.CallsTo(tool) + WaitingFor(Without(r.waiting, i), tool), p) {
      WaitingForWithout(r.waiting, i, tool);
      assert Slack(t.limits.maxPerTool, t.CallsTo(tool) + WaitingFor(r.waiting, tool), p);
    }
  }

  lemma ReleaseKeepsRaceInv(r: Race, p: nat)
    requires RaceInv(r, p)
    ensures RaceInv(Apply(r, Release), p)
  {
    var t, u := r.tracker, Released(r.tracker);
    forall tool ensures Slack(u.limits.maxPerTool, u.CallsTo(tool) + WaitingFor(r.waiting, tool), p) {
      assert Slack(t.limits.maxPerTool, t.CallsTo(tool) + WaitingFor(r.waiting, tool), p);
    }
  }

  lemma {:induction false} RaceInvInEveryRun(limits: Limits, start: real, steps: seq<ThreadStep>, p: nat)
    requires Peak(Fresh(limits, start), steps) <= p
    ensures RaceInv(RunThreads(Fresh(limits, start), steps), p)
    ensures RunThreads(Fresh(limits, start), steps).tracker.limits == limits
  {
    if steps != [] {
      var n := |steps| - 1;
      RaceInvInEveryRun(limits, start, steps[..n], p);
      var r := RunThreads(Fresh(limits, start), steps[..n]);
      match steps[n]
      case Check(tool, category, at) => CheckKeepsRaceInv(r, p, tool, category, at);
      case Acquire(i) => if i < |r.waiting| { AcquireKeepsRaceInv(r, p, i); }
      case GiveUp(i) => if i < |r.waiting| { GiveUpKeepsRaceInv(r, p, i); }
      case Release => ReleaseKeepsRaceInv(r, p);
    }
  }

  /** Whatever the threads do, with at most `p` calls between check and slot at any time each limit is
      exceeded by at most `p - 1`; a limit that is used up from the start admits nothing. */
  lemma OvershootIsBounded(limits: Limits, start: real, steps: seq<ThreadStep>, p: nat)
    requires Peak(Fresh(limits, start), steps) <= p
    ensures var t := RunThreads(Fresh(limits, start), steps).tracker;
            && Slack(limits.maxTotal, t.total, p)
            && Slack(limits.maxParallel, t.inFlight, p)
            && (forall tool :: Slack(limits.maxPerTool, t.CallsTo(tool), p))
            && SumValues(t.perTool) == t.total
  {
    RaceInvInEveryRun(limits, start, steps, p);
    var r := RunThreads(Fresh(limits, start), steps);
    forall tool ensures Slack(limits.maxPerTool, r.tracker.CallsTo(tool), p) {
      assert Slack(limits.maxPerTool, r.tracker.CallsTo(tool) + WaitingFor(r.waiting, tool), p);
    }
  }

  // ---------------------------------------------------------------- one at a time

  /** Neither the tracker nor a call about to enter it mixes the separated categories. */
  predicate Separated(r: Race) {
    var t := r.tracker;
    t.limits.separate ==>
      && !(t.connectionSeen && t.executionSeen)
      && forall i :: 0 <= i < |r.waiting| ==>
           && (r.waiting[i].category == Execution ==> !t.connectionSeen)
           && (r.waiting[i].category == Connection ==> !t.executionSeen)
  }

  lemma {:induction false} SeparatedInEveryRun(limits: Limits, start: real, steps: seq<ThreadStep>)
    requires Peak(Fresh(limits, start), steps) <= 1
    ensures Separated(RunThreads(Fresh(limits, start), steps))
    ensures |RunThreads(Fresh(limits, start), steps).waiting| <= 1
  {
    if steps != [] {
      SeparatedInEveryRun(limits, start, steps[..|steps| - 1]);
    }
  }

  /** While one call at a time is in between, whatever else overlaps, everything holds that holds when
      check and slot are one step. */
  lemma OneAtATimeKeepsTheBudget(limits: Limits, start: real, steps: seq<ThreadStep>)
    requires Peak(Fresh(limits, start), steps) <= 1
    ensures TrackerInv(RunThreads(Fresh(limits, start), steps).tracker)
  {
    RaceInvInEveryRun(limits, start, steps, 1);
    OvershootIsBounded(limits, start, steps, 1);
    SeparatedInEveryRun(limits, start, steps);
    var t := RunThreads(Fresh(limits, start), steps).tracker;
    forall tool ensures Within(limits.maxPerTool, t.CallsTo(tool)) {
      assert Slack(limits.maxPerTool, t.CallsTo(tool), 1);
    }
  }

  // ---------------------------------------------------------------- the bound is reached

  function Repeat(s: ThreadStep, n: nat): seq<ThreadStep> {
    if n == 0 then [] else Repeat(s, n - 1) + [s]
  }

  /** `n` calls one after another: each is checked, gets its slot and ends. */
  function Calls(check: ThreadStep, n: nat): seq<ThreadStep> {
    if n == 0 then [] else Calls(check, n - 1) + [check] + [Acquire(0)] + [Release]
  }

  lemma RepeatedOnceMore(before: seq<ThreadStep>, s: ThreadStep, n: nat)
    requires n > 0
    ensures before + Repeat(s, n) == before + Repeat(s, n - 1) + [s]
    ensures before + Repeat(s, 0) == before
  {
  }

  lemma OneMoreStep(r: Race, steps: seq<ThreadStep>, s: ThreadStep)
    ensures RunThreads(r, steps + [s]) == Apply(RunThreads(r, steps), s)
    ensures Peak(r, steps + [s]) == Max(Peak(r, steps), |RunThreads(r, steps + [s]).waiting|)
  {
    assert (steps + [s])[..|steps|] == steps;
  }

  /** Only the total is limited. */
  function TotalOnly(limit: nat): Limits { Limits(limit, 0, 0.0, 0, false) }

  /** A state with `total` calls made and `waiting` copies of one call in between. */
  predicate Stands(r: Race, limit: nat, total: nat, waiting: nat) {
    && r.tracker.limits == TotalOnly(limit) && r.tracker.total == total
    && |r.waiting| == waiting
  }

  lemma CheckStands(r: Race, limit: nat, total: nat, waiting: nat, tool: string, category: Category, at: real)
    requires Stands(r, limit, total, waiting) && total < limit
    ensures Stands(Apply(r, Check(tool, category, at)), limit, total, waiting + 1)
  {
  }

  lemma AcquireStands(r: Race, limit: nat, total: nat, waiting: nat)
    requires Stands(r, limit, total, waiting) && waiting > 0
    ensures Stands(Apply(r, Acquire(0)), limit, total + 1, waiting - 1)
    ensures Stands(Apply(Apply(r, Acquire(0)), Release), limit, total + 1, waiting - 1)
  {
  }

  lemma {:induction false} CallsStand(check: ThreadStep, limit: nat, start: real, n: nat)
    requires check.Check? && n < limit
    ensures var r := Fresh(TotalOnly(limit), start);
            Stands(RunThreads(r, Calls(check, n)), limit, n, 0) && Peak(r, Calls(check, n)) <= 1
  {
    var r := Fresh(TotalOnly(limit), start);
    if n > 0 {
      var before := Calls(check, n - 1);
      CallsStand(check, limit, start, n - 1);
      OneMoreStep(r, before, check);
      CheckStands(RunThreads(r, before), limit, n - 1, 0, check.tool, check.category, check.at);
      OneMoreStep(r, before + [check], Acquire(0));
      AcquireStands(RunThreads(r, before + [check]), limit, n - 1, 1);
      OneMoreStep(r, before + [check] + [Acquire(0)], Release);
    }
  }

  lemma {:induction false} ChecksStand(check: ThreadStep, limit: nat, start: real, n: nat, p: nat)
    requires check.Check? && n < limit
    ensures var r := Fresh(TotalOnly(limit), start);
            var steps := Calls(check, n) + Repeat(check, p);
            Stands(RunThreads(r, steps), limit, n, p) && Peak(r, steps) <= Max(1, p)
  {
    var r := Fresh(TotalOnly(limit), start);
    if p == 0 {
      CallsStand(check, limit, start, n);
      assert Calls(check, n) + Repeat(check, 0) == Calls(check, n);
    } else {
      var before := Calls(check, n) + Repeat(check, p - 1);
      ChecksStand(check, limit, start, n, p - 1);
      OneMoreStep(r, before, check);
      CheckStands(RunThreads(r, before), limit, n, p - 1, check.tool, check.category, check.at);
      RepeatedOnceMore(Calls(check, n), check, p);
    }
  }

  lemma {:induction false} AcquiresStand(r: Race, before: seq<ThreadStep>, limit: nat, total: nat, p: nat, k: nat)
    requires Stands(RunThreads(r, before), limit, total, p) && k <= p
    ensures var steps := before + Repeat(Acquire(0), k);
            Stands(RunThreads(r, steps), limit, total + k, p - k) && Peak(r, steps) <= Max(Peak(r, before), p)
  {
    if k == 0 {
      assert before + Repeat(Acquire(0), 0) == before;
    } else {
      var steps := before + Repeat(Acquire(0), k - 1);
      AcquiresStand(r, before, limit, total, p, k - 1);
      OneMoreStep(r, steps, Acquire(0));
      AcquireStands(RunThreads(r, steps), limit, total + k - 1, p - k + 1);
      RepeatedOnceMore(before, Acquire(0), k);
    }
  }

  /** `p` calls that are all checked before any of them gets its slot, when one is left. */
  lemma OvershootIsReached(limit: nat, start: real, p: nat) returns (steps: seq<ThreadStep>)
    requires limit > 0 && p > 0
    ensures var r := Fresh(TotalOnly(limit), start);
            Peak(r, steps) <= p && RunThreads(r, steps).tracker.total == limit - 1 + p
  {
    var r, check := Fresh(TotalOnly(limit), start), Check("", Other, start);
    var checked := Calls(check, limit - 1) + Repeat(check, p);
    ChecksStand(check, limit, start, limit - 1, p);
    AcquiresStand(r, checked, limit, limit - 1, p, p);
    steps := checked + Repeat(Acquire(0), p);
  }

  /** Every schedule with at most `p` calls in between stays within `bound`. */
  ghost predicate StaysWithin(limit: nat, start: real, p: nat, bound: int) {
    var r := Fresh(TotalOnly(limit), start);
    forall steps :: Peak(r, steps) <= p ==> RunThreads(r, steps).tracker.total <= bound
  }

  /** What a limit on the total is worth among threads, exactly; the limit itself holds exactly when at
      most one call is in between at a time. */
  lemma TotalBoundIsExact(limit: nat, start: real, p: nat, bound: int)
    requires limit > 0 && p > 0
    ensures StaysWithin(limit, start, p, bound) <==> bound >= limit - 1 + p
    ensures StaysWithin(limit, start, p, limit) <==> p == 1
  {
    var r := Fresh(TotalOnly(limit), start);
    var worst := OvershootIsReached(limit, start, p);
    forall steps | Peak(r, steps) <= p ensures RunThreads(r, steps).tracker.total <= limit - 1 + p {
      OvershootIsBounded(TotalOnly(limit), start, steps, p);
    }
  }

  /** Two calls in between are enough to mix the separated categories. */
  lemma SeparationNeedsOneAtATime(start: real)
    ensures var r := Fresh(Limits(0, 0, 0.0, 0, true), start);
            var steps := [Check("c", Connection, start), Check("e", Execution, start), Acquire(0), Acquire(0)];
            var t := RunThreads(r, steps).tracker;
            t.connectionSeen && t.executionSeen
  {
    var r := Fresh(Limits(0, 0, 0.0, 0, true), start);
    var one := [Check("c", Connection, start)];
    var two := one + [Check("e", Execution, start)];
    var three := two + [Acquire(0)];
    var four := three + [Acquire(0)];
    OneMoreStep(r, [], Check("c", Connection, start));
    OneMoreStep(r, one, Check("e", Execution, start));
    OneMoreStep(r, two, Acquire(0));
    OneMoreStep(r, three, Acquire(0));
    assert [] + one == one && RunThreads(r, []) == r;
    assert four == [Check("c", Connection, start), Check("e", Execution, start), Acquire(0), Acquire(0)];
  }
}
