/**
 What a principal is told and what its tracker shows, read off the history alone: which calls were made,
 when, and which of them reached their executor. The reading knows no trackers and no registry of halts.
 */
module GovernorHistory {
  import opened Collections
  import opened Governor
  import opened GovernorRuns

  // ---------------------------------------------------------------- reading the history

  /** Whose budget a call is charged to. */
  function BilledTo(principal: string): string {
    if principal == "" then "default" else principal
  }

  predicate CallsFor(s: Step, key: string) {
    s.EnterCall? && BilledTo(s.request.principal) == key
  }

  /** Step `i` is the first call of the principal. */
  predicate IsFirstCall(steps: seq<Step>, key: string, i: nat) {
    && i < |steps| && CallsFor(steps[i], key)
    && forall j :: 0 <= j < i ==> !CallsFor(steps[j], key)
  }

  /** When the principal made its first call. */
  function FirstAt(steps: seq<Step>, key: string): Option<real> {
    if steps == [] then None
    else
      var before, last := FirstAt(steps[..|steps| - 1], key), steps[|steps| - 1];
      if before.None? && CallsFor(last, key) then Some(last.request.at) else before
  }

  /** How long after its first call the principal makes one at `at`. */
  function Elapsed(steps: seq<Step>, key: string, at: real): real {
    if FirstAt(steps, key).Some? then at - FirstAt(steps, key).value else 0.0
  }

  /** How many of the calls that reached their executor are the principal's. */
  function Made(calls: seq<Request>, key: string): nat {
    if calls == [] then 0
    else Made(calls[..|calls| - 1], key) + (if BilledTo(calls[|calls| - 1].principal) == key then 1 else 0)
  }

  /** ... and for one tool. */
  function MadeTo(calls: seq<Request>, key: string, tool: string): nat {
    if calls == [] then 0
    else
      var last := calls[|calls| - 1];
      MadeTo(calls[..|calls| - 1], key, tool) + (if BilledTo(last.principal) == key && last.tool == tool then 1 else 0)
  }

  /** The category a tool is registered with. */
  function Kind(cfg: Config, tool: string): Category {
    if tool in cfg.registry then cfg.registry[tool] else Other
  }

  /** One of them was for a tool of this category. */
  predicate MadeIn(cfg: Config, calls: seq<Request>, key: string, category: Category) {
    exists i :: 0 <= i < |calls| && BilledTo(calls[i].principal) == key && Kind(cfg, calls[i].tool) == category
  }

  /** The session has been halted and not resumed since. */
  ghost predicate HaltInForce(steps: seq<Step>, session: string) {
    exists i :: 0 <= i < |steps| && HaltsSession(steps[i], session)
      && forall j :: i < j < |steps| ==> !ResumesSession(steps[j], session)
  }

  /** What a history comes to: the calls that reached their executor, and how many of each principal's
      are still running. */
  datatype Past = Past(calls: seq<Request>, running: map<string, nat>)

  function RunningOf(p: Past, key: string): nat {
    if key in p.running then p.running[key] else 0
  }

  /** Which limit stands in the way, if any: the first of the four limits in the order they are tried,
      then the separation. */
  predicate TotalUsedUp(cfg: Config, p: Past, key: string) {
    cfg.limits.maxTotal != 0 && Made(p.calls, key) >= cfg.limits.maxTotal
  }
  predicate PerToolUsedUp(cfg: Config, p: Past, key: string, tool: string) {
    cfg.limits.maxPerTool != 0 && MadeTo(p.calls, key, tool) >= cfg.limits.maxPerTool
  }
  predicate RuntimeUsedUp(cfg: Config, steps: seq<Step>, key: string, at: real) {
    cfg.limits.maxRuntime != 0.0 && Elapsed(steps, key, at) >= cfg.limits.maxRuntime
  }
  predicate ParallelUsedUp(cfg: Config, p: Past, key: string) {
    cfg.limits.maxParallel != 0 && RunningOf(p, key) >= cfg.limits.maxParallel
  }
  predicate WouldMix(cfg: Config, p: Past, key: string, category: Category) {
    cfg.limits.separate
    && ((category == Execution && MadeIn(cfg, p.calls, key, Connection))
        || (category == Connection && MadeIn(cfg, p.calls, key, Execution)))
  }

  /** The lists and categories let the tool through, perhaps on approval. */
  predicate PolicyPasses(cfg: Config, tool: string) {
    var p := cfg.policy;
    && tool !in p.deniedTools
    && (tool in p.approvalTools || tool in p.allowedTools || Kind(cfg, tool) in p.allowedCategories
        || (p.allowedCategories == {} && p.defaultAllow))
  }

  predicate GatePasses(r: Request) {
    r.gate.NoGate? || r.gate.Accepts?
  }

  ghost predicate IsHalted(cfg: Config, steps: seq<Step>, r: Request) {
    cfg.supervised && r.session != "" && HaltInForce(steps, r.session)
  }

  /** Nothing stops the call before the budget is asked. */
  ghost predicate ReachesBudget(cfg: Config, steps: seq<Step>, r: Request) {
    !IsHalted(cfg, steps, r) && PolicyPasses(cfg, r.tool) && GatePasses(r)
  }

  ghost predicate BudgetPasses(cfg: Config, steps: seq<Step>, p: Past, r: Request) {
    var key := BilledTo(r.principal);
    && !TotalUsedUp(cfg, p, key) && !PerToolUsedUp(cfg, p, key, r.tool) && !RuntimeUsedUp(cfg, steps, key, r.at)
    && !ParallelUsedUp(cfg, p, key) && !WouldMix(cfg, p, key, Kind(cfg, r.tool))
  }

  ghost predicate Reaches(cfg: Config, steps: seq<Step>, p: Past, r: Request) {
    && ReachesBudget(cfg, steps, r) && BudgetPasses(cfg, steps, p, r)
    && (r.tool in cfg.policy.approvalTools ==> r.handler == Answers(true))
  }

  ghost function Next(cfg: Config, steps: seq<Step>, p: Past, s: Step): Past {
    match s
    case EnterCall(r) =>
      var key := BilledTo(r.principal);
      if Reaches(cfg, steps, p, r) then Past(p.calls + [r], p.running[key := RunningOf(p, key) + 1]) else p
    case LeaveCall(principal, slot, _) =>
      var key := BilledTo(principal);
      if slot < RunningOf(p, key) then p.(running := p.running[key := RunningOf(p, key) - 1]) else p
    case HaltSession(_, _, _) => p
    case ResumeSession(_, _, _) => p
  }

  ghost function Reading(cfg: Config, steps: seq<Step>): Past {
    if steps == [] then Past([], map[])
    else
      var before := steps[..|steps| - 1];
      Next(cfg, before, Reading(cfg, before), steps[|steps| - 1])
  }

  // ---------------------------------------------------------------- the trackers say the same

  /** A tracker that shows what the history of its principal comes to. */
  ghost predicate Shows(cfg: Config, steps: seq<Step>, p: Past, t: Tracker, key: string) {
    && t.limits == cfg.limits
    && FirstAt(steps, key) == Some(t.start)
    && t.total == Made(p.calls, key)
    && (forall tool :: t.CallsTo(tool) == MadeTo(p.calls, key, tool))
    && t.inFlight == RunningOf(p, key)
    && (t.connectionSeen <==> MadeIn(cfg, p.calls, key, Connection))
    && (t.executionSeen <==> MadeIn(cfg, p.calls, key, Execution))
  }

  /** A principal that has not called has no tracker, and nothing of it is to be found. */
  ghost predicate Absent(steps: seq<Step>, p: Past, h: Hub, key: string) {
    && key !in h.budgets && FirstAt(steps, key).None?
    && Made(p.calls, key) == 0 && (forall tool :: MadeTo(p.calls, key, tool) == 0) && RunningOf(p, key) == 0
    && (forall i :: 0 <= i < |p.calls| ==> BilledTo(p.calls[i].principal) != key)
  }

  ghost predicate ReadsFor(cfg: Config, steps: seq<Step>, p: Past, h: Hub, key: string) {
    && (if key in h.budgets then Shows(cfg, steps, p, h.budgets[key], key) else Absent(steps, p, h, key))
    && |OpenOf(h, key)| == RunningOf(p, key)
  }

  lemma FirstAtPush(steps: seq<Step>, s: Step, key: string)
    ensures FirstAt(steps + [s], key)
         == if FirstAt(steps, key).None? && CallsFor(s, key) then Some(s.request.at) else FirstAt(steps, key)
  {
    assert (steps + [s])[..|steps|] == steps;
  }

  lemma MadePush(cfg: Config, calls: seq<Request>, r: Request, key: string)
    ensures var own := BilledTo(r.principal) == key;
            && Made(calls + [r], key) == Made(calls, key) + (if own then 1 else 0)
            && (forall tool :: MadeTo(calls + [r], key, tool)
                 == MadeTo(calls, key, tool) + (if own && r.tool == tool then 1 else 0))
            && (forall category :: MadeIn(cfg, calls + [r], key, category)
                 <==> MadeIn(cfg, calls, key, category) || (own && cfg.CategoryOf(r.tool) == category))
  {
    var all := calls + [r];
    assert all[..|calls|] == calls && all[|calls|] == r;
    forall category ensures MadeIn(cfg, all, key, category)
      <==> MadeIn(cfg, calls, key, category) || (BilledTo(r.principal) == key && cfg.CategoryOf(r.tool) == category)
    {
      if MadeIn(cfg, calls, key, category) {
        var i :| 0 <= i < |calls| && BilledTo(calls[i].principal) == key && cfg.CategoryOf(calls[i].tool) == category;
        assert all[i] == calls[i];
      }
    }
  }

  /** The tracker a call meets: the principal's, or one made at the time of this very call. */
  ghost predicate Meets(cfg: Config, steps: seq<Step>, p: Past, t: Tracker, key: string, at: real) {
    && t.limits == cfg.limits
    && at - t.start == Elapsed(steps, key, at)
    && t.total == Made(p.calls, key)
    && (forall tool :: t.CallsTo(tool) == MadeTo(p.calls, key, tool))
    && t.inFlight == RunningOf(p, key)
    && (t.connectionSeen <==> MadeIn(cfg, p.calls, key, Connection))
    && (t.executionSeen <==> MadeIn(cfg, p.calls, key, Execution))
  }

  lemma CallMeetsItsHistory(cfg: Config, steps: seq<Step>, p: Past, h: Hub, key: string, at: real)
    requires ReadsFor(cfg, steps, p, h, key)
    ensures Meets(cfg, steps, p, WithBudget(cfg, h, key, at).budgets[key], key, at)
  {
    var t := WithBudget(cfg, h, key, at).budgets[key];
    if key !in h.budgets {
      assert forall tool :: t.CallsTo(tool) == 0;
    }
  }

  /** On a tracker that shows the history, the refusal is the first obstacle the history shows. */
  lemma RefusalReadsTheHistory(cfg: Config, steps: seq<Step>, p: Past, t: Tracker, key: string, r: Request)
    requires Meets(cfg, steps, p, t, key, r.at) && key == BilledTo(r.principal)
    ensures Refusal(t, r.tool, cfg.CategoryOf(r.tool), r.at)
         == if TotalUsedUp(cfg, p, key) then Some(TotalExhausted(cfg.limits.maxTotal))
            else if PerToolUsedUp(cfg, p, key, r.tool) then Some(PerToolExhausted(r.tool))
            else if RuntimeUsedUp(cfg, steps, key, r.at) then Some(RuntimeExhausted(cfg.limits.maxRuntime))
            else if ParallelUsedUp(cfg, p, key) then Some(ParallelCap(cfg.limits.maxParallel))
            else if WouldMix(cfg, p, key, Kind(cfg, r.tool)) then
              Some(if cfg.CategoryOf(r.tool) == Execution then ConnectionThenExecution else ExecutionThenConnection)
            else None
  {
  }

  lemma ExecutingReadsTheHistory(cfg: Config, steps: seq<Step>, p: Past, r: Request)
    requires ReadsFor(cfg, steps, p, Run(cfg, EMPTY_HUB, steps), BilledTo(r.principal))
    ensures Enter(cfg, Run(cfg, EMPTY_HUB, steps), r).1.Executing? <==> Reaches(cfg, steps, p, r)
  {
    var h, key := Run(cfg, EMPTY_HUB, steps), BilledTo(r.principal);
    ExecutorReachedExactlyWhen(cfg, h, r);
    CallMeetsItsHistory(cfg, steps, p, h, key, r.at);
    RefusalReadsTheHistory(cfg, steps, p, WithBudget(cfg, h, key, r.at).budgets[key], key, r);
    HaltedExactlyAfterAHalt(cfg, steps, r.session);
  }

  /** From `h` to `g` the call changed its caller's tracker and open calls, and nobody else's. */
  ghost predicate Entered(cfg: Config, h: Hub, g: Hub, r: Request, executing: bool, key: string) {
    var own := BilledTo(r.principal);
    var t := WithBudget(cfg, h, own, r.at).budgets[own];
    if key == own then
      && key in g.budgets
      && g.budgets[key] == (if executing then Acquired(t, r.tool, cfg.CategoryOf(r.tool)) else t)
      && |OpenOf(g, key)| == |OpenOf(h, key)| + (if executing then 1 else 0)
    else
      && OpenOf(g, key) == OpenOf(h, key)
      && (key in g.budgets <==> key in h.budgets)
      && (key in h.budgets ==> g.budgets[key] == h.budgets[key])
  }

  lemma EnterOnTrackers(cfg: Config, h: Hub, r: Request, key: string)
    ensures Entered(cfg, h, Enter(cfg, h, r).0, r, Enter(cfg, h, r).1.Executing?, key)
  {
  }

  lemma AcquiredShows(cfg: Config, steps: seq<Step>, all: seq<Step>, p: Past, t: Tracker, r: Request, key: string)
    requires Meets(cfg, steps, p, t, key, r.at) && key == BilledTo(r.principal) && FirstAt(all, key) == Some(t.start)
    ensures Shows(cfg, all, p, t, key)
    ensures Shows(cfg, all, Past(p.calls + [r], p.running[key := RunningOf(p, key) + 1]),
                  Acquired(t, r.tool, cfg.CategoryOf(r.tool)), key)
  {
    MadePush(cfg, p.calls, r, key);
  }

  lemma FirstAtOfTheCall(cfg: Config, steps: seq<Step>, p: Past, h: Hub, r: Request)
    requires ReadsFor(cfg, steps, p, h, BilledTo(r.principal))
    ensures var key := BilledTo(r.principal);
            FirstAt(steps + [EnterCall(r)], key) == Some(WithBudget(cfg, h, key, r.at).budgets[key].start)
  {
    FirstAtPush(steps, EnterCall(r), BilledTo(r.principal));
  }

  lemma OwnCallReads(cfg: Config, steps: seq<Step>, p: Past, h: Hub, r: Request, executing: bool)
    requires ReadsFor(cfg, steps, p, h, BilledTo(r.principal))
    ensures var key := BilledTo(r.principal);
            var t := WithBudget(cfg, h, key, r.at).budgets[key];
            var q := if executing then Past(p.calls + [r], p.running[key := RunningOf(p, key) + 1]) else p;
            Shows(cfg, steps + [EnterCall(r)], q, if executing then Acquired(t, r.tool, cfg.CategoryOf(r.tool)) else t, key)
  {
    var key := BilledTo(r.principal);
    CallMeetsItsHistory(cfg, steps, p, h, key, r.at);
    FirstAtOfTheCall(cfg, steps, p, h, r);
    AcquiredShows(cfg, steps, steps + [EnterCall(r)], p, WithBudget(cfg, h, key, r.at).budgets[key], r, key);
  }

  /** Somebody else's call changes nothing that is read for this principal. */
  lemma OthersCallReads(cfg: Config, steps: seq<Step>, p: Past, h: Hub, g: Hub, r: Request, q: Past, key: string)
    requires ReadsFor(cfg, steps, p, h, key) && BilledTo(r.principal) != key
    requires q.calls == p.calls || q.calls == p.calls + [r]
    requires RunningOf(q, key) == RunningOf(p, key) && OpenOf(g, key) == OpenOf(h, key)
    requires (key in g.budgets <==> key in h.budgets) && (key in h.budgets ==> g.budgets[key] == h.budgets[key])
    ensures ReadsFor(cfg, steps + [EnterCall(r)], q, g, key)
  {
    FirstAtPush(steps, EnterCall(r), key);
    MadePush(cfg, p.calls, r, key);
  }

  lemma EnteredKeepsReading(cfg: Config, steps: seq<Step>, p: Past, q: Past, h: Hub, g: Hub, r: Request, executing: bool, key: string)
    requires ReadsFor(cfg, steps, p, h, key) && Entered(cfg, h, g, r, executing, key)
    requires var own := BilledTo(r.principal);
             q == if executing then Past(p.calls + [r], p.running[own := RunningOf(p, own) + 1]) else p
    ensures ReadsFor(cfg, steps + [EnterCall(r)], q, g, key)
  {
    if key == BilledTo(r.principal) {
      OwnCallReads(cfg, steps, p, h, r, executing);
    } else {
      OthersCallReads(cfg, steps, p, h, g, r, q, key);
    }
  }

  lemma NextOnACall(cfg: Config, steps: seq<Step>, p: Past, r: Request, executing: bool)
    requires executing <==> Reaches(cfg, steps, p, r)
    ensures var own := BilledTo(r.principal);
            Next(cfg, steps, p, EnterCall(r))
            == if executing then Past(p.calls + [r], p.running[own := RunningOf(p, own) + 1]) else p
  {
  }

  lemma CallKeepsReading(cfg: Config, steps: seq<Step>, p: Past, h: Hub, r: Request, key: string)
    requires h == Run(cfg, EMPTY_HUB, steps)
    requires ReadsFor(cfg, steps, p, h, key) && ReadsFor(cfg, steps, p, h, BilledTo(r.principal))
    ensures ReadsFor(cfg, steps + [EnterCall(r)], Next(cfg, steps, p, EnterCall(r)), Enter(cfg, h, r).0, key)
  {
    var (g, answer) := Enter(cfg, h, r);
    var q := Next(cfg, steps, p, EnterCall(r));
    ExecutingReadsTheHistory(cfg, steps, p, r);
    NextOnACall(cfg, steps, p, r, answer.Executing?);
    EnterOnTrackers(cfg, h, r, key);
    EnteredKeepsReading(cfg, steps, p, q, h, g, r, answer.Executing?, key);
  }

  lemma OtherStepKeepsFirst(steps: seq<Step>, s: Step, key: string)
    requires !s.EnterCall?
    ensures FirstAt(steps + [s], key) == FirstAt(steps, key)
  {
    FirstAtPush(steps, s, key);
  }

  lemma LeaveOnTrackers(cfg: Config, h: Hub, s: Step, key: string)
    requires s.LeaveCall?
    ensures var g, own := Apply(cfg, h, s), BilledTo(s.principal);
            var closes := key == own && own in h.budgets && s.slot < |OpenOf(h, own)|;
            && (key in g.budgets <==> key in h.budgets)
            && (key in h.budgets ==> g.budgets[key] == if closes then Released(h.budgets[key]) else h.budgets[key])
            && |OpenOf(g, key)| == |OpenOf(h, key)| - (if closes then 1 else 0)
  {
  }

  lemma LeaveKeepsReading(cfg: Config, steps: seq<Step>, p: Past, h: Hub, s: Step, key: string)
    requires ReadsFor(cfg, steps, p, h, key) && s.LeaveCall?
    ensures ReadsFor(cfg, steps + [s], Next(cfg, steps, p, s), Apply(cfg, h, s), key)
  {
    OtherStepKeepsFirst(steps, s, key);
    LeaveOnTrackers(cfg, h, s, key);
  }

  lemma HaltKeepsReading(cfg: Config, steps: seq<Step>, p: Past, h: Hub, s: Step, key: string)
    requires ReadsFor(cfg, steps, p, h, key) && (s.HaltSession? || s.ResumeSession?)
    ensures ReadsFor(cfg, steps + [s], Next(cfg, steps, p, s), Apply(cfg, h, s), key)
  {
    OtherStepKeepsFirst(steps, s, key);
  }

  /** In every run every tracker is what the history of its principal comes to. */
  lemma {:induction false} TrackersReadTheHistory(cfg: Config, steps: seq<Step>, key: string)
    ensures ReadsFor(cfg, steps, Reading(cfg, steps), Run(cfg, EMPTY_HUB, steps), key)
  {
    if steps != [] {
      var before, last := steps[..|steps| - 1], steps[|steps| - 1];
      var h, p := Run(cfg, EMPTY_HUB, before), Reading(cfg, before);
      assert before + [last] == steps;
      TrackersReadTheHistory(cfg, before, key);
      match last
      case EnterCall(r) =>
        TrackersReadTheHistory(cfg, before, BilledTo(r.principal));
        CallKeepsReading(cfg, before, p, h, r, key);
      case LeaveCall(_, _, _) => LeaveKeepsReading(cfg, before, p, h, last, key);
      case HaltSession(_, _, _) => HaltKeepsReading(cfg, before, p, h, last, key);
      case ResumeSession(_, _, _) => HaltKeepsReading(cfg, before, p, h, last, key);
    }
  }

  // ---------------------------------------------------------------- the answers

  /** After any history, a call reaches its executor exactly when the history of its principal, the halts
      of its session, the policy, its gate and its approval leave it free to. */
  lemma CallsReadTheHistory(cfg: Config, steps: seq<Step>, r: Request)
    ensures Enter(cfg, Run(cfg, EMPTY_HUB, steps), r).1.Executing?
       <==> Reaches(cfg, steps, Reading(cfg, steps), r)
  {
    TrackersReadTheHistory(cfg, steps, BilledTo(r.principal));
    ExecutingReadsTheHistory(cfg, steps, Reading(cfg, steps), r);
  }

  /** What is answered when policy and gate let a call through: the first obstacle in the history. */
  lemma RefusalsReadTheHistory(cfg: Config, steps: seq<Step>, r: Request)
    requires ReachesBudget(cfg, steps, r)
    ensures var answer := Enter(cfg, Run(cfg, EMPTY_HUB, steps), r).1;
            var p, key := Reading(cfg, steps), BilledTo(r.principal);
            var (total, perTool) := (TotalUsedUp(cfg, p, key), PerToolUsedUp(cfg, p, key, r.tool));
            var (runtime, parallel) := (RuntimeUsedUp(cfg, steps, key, r.at), ParallelUsedUp(cfg, p, key));
            && (answer == Denied(TotalExhausted(cfg.limits.maxTotal)) <==> total)
            && (answer == Denied(PerToolExhausted(r.tool)) <==> !total && perTool)
            && (answer == Denied(RuntimeExhausted(cfg.limits.maxRuntime)) <==> !total && !perTool && runtime)
            && (answer == Denied(ParallelCap(cfg.limits.maxParallel)) <==> !total && !perTool && !runtime && parallel)
            && (answer == Denied(ConnectionThenExecution) || answer == Denied(ExecutionThenConnection)
                <==> !total && !perTool && !runtime && !parallel && WouldMix(cfg, p, key, Kind(cfg, r.tool)))
            && (answer == Denied(ConnectionThenExecution) ==> Kind(cfg, r.tool) == Execution)
            && (answer == Denied(ExecutionThenConnection) ==> Kind(cfg, r.tool) == Connection)
  {
    var h, p, key := Run(cfg, EMPTY_HUB, steps), Reading(cfg, steps), BilledTo(r.principal);
    TrackersReadTheHistory(cfg, steps, key);
    CallMeetsItsHistory(cfg, steps, p, h, key, r.at);
    RefusalReadsTheHistory(cfg, steps, p, WithBudget(cfg, h, key, r.at).budgets[key], key, r);
    HaltedExactlyAfterAHalt(cfg, steps, r.session);
    BudgetAnswers(cfg, h, r);
  }

  /** Past policy and gate, a refusal of the budget is the answer. */
  lemma BudgetAnswers(cfg: Config, h: Hub, r: Request)
    requires HaltFor(cfg, h, r).None? && PolicyPasses(cfg, r.tool) && GatePasses(r)
    ensures var key, answer := BilledTo(r.principal), Enter(cfg, h, r).1;
            var refusal := Refusal(WithBudget(cfg, h, key, r.at).budgets[key], r.tool, cfg.CategoryOf(r.tool), r.at);
            && (refusal.Some? ==> answer == Denied(refusal.value))
            && (refusal.None? ==> answer.Denied? ==> answer.reason.ApprovalDenied?)
  {
  }

  lemma {:induction false} FirstCallIsFirst(steps: seq<Step>, key: string, i: nat)
    requires IsFirstCall(steps, key, i)
    ensures FirstAt(steps, key) == Some(steps[i].request.at)
  {
    var n := |steps| - 1;
    if i < n {
      FirstCallIsFirst(steps[..n], key, i);
    } else {
      NoCallNoFirst(steps[..n], key);
    }
  }

  lemma {:induction false} NoCallNoFirst(steps: seq<Step>, key: string)
    requires forall j :: 0 <= j < |steps| ==> !CallsFor(steps[j], key)
    ensures FirstAt(steps, key).None?
  {
    if steps != [] {
      NoCallNoFirst(steps[..|steps| - 1], key);
    }
  }

  /** The runtime of a principal counts from its own first call, which may itself have been denied: a
      later one that nothing else stops is refused for runtime exactly when that lies maxRuntime back. */
  lemma RuntimeCountsFromTheFirstCall(cfg: Config, steps: seq<Step>, r: Request, i: nat)
    requires cfg.limits.maxRuntime != 0.0 && IsFirstCall(steps, BilledTo(r.principal), i)
    requires ReachesBudget(cfg, steps, r)
    requires var p, key := Reading(cfg, steps), BilledTo(r.principal);
             !TotalUsedUp(cfg, p, key) && !PerToolUsedUp(cfg, p, key, r.tool)
    ensures Enter(cfg, Run(cfg, EMPTY_HUB, steps), r).1 == Denied(RuntimeExhausted(cfg.limits.maxRuntime))
       <==> r.at - steps[i].request.at >= cfg.limits.maxRuntime
  {
    FirstCallIsFirst(steps, BilledTo(r.principal), i);
    RefusalsReadTheHistory(cfg, steps, r);
  }

  /** The first call itself is refused for runtime only under a negative limit. */
  lemma FirstCallHasTheWholeRuntime(cfg: Config, steps: seq<Step>, r: Request)
    requires forall j :: 0 <= j < |steps| ==> !CallsFor(steps[j], BilledTo(r.principal))
    requires cfg.limits.maxRuntime > 0.0
    ensures Enter(cfg, Run(cfg, EMPTY_HUB, steps), r).1 != Denied(RuntimeExhausted(cfg.limits.maxRuntime))
  {
    var h, p, key := Run(cfg, EMPTY_HUB, steps), Reading(cfg, steps), BilledTo(r.principal);
    NoCallNoFirst(steps, key);
    TrackersReadTheHistory(cfg, steps, key);
    CallMeetsItsHistory(cfg, steps, p, h, key, r.at);
    RuntimeIsUntouched(cfg, steps, p, WithBudget(cfg, h, key, r.at).budgets[key], r);
    RuntimeAnswerIsARefusal(cfg, h, r);
  }

  lemma RuntimeIsUntouched(cfg: Config, steps: seq<Step>, p: Past, t: Tracker, r: Request)
    requires Meets(cfg, steps, p, t, BilledTo(r.principal), r.at) && FirstAt(steps, BilledTo(r.principal)).None?
    requires cfg.limits.maxRuntime > 0.0
    ensures Refusal(t, r.tool, cfg.CategoryOf(r.tool), r.at) != Some(RuntimeExhausted(cfg.limits.maxRuntime))
  {
  }

  lemma RuntimeAnswerIsARefusal(cfg: Config, h: Hub, r: Request)
    ensures var key, answer := BilledTo(r.principal), Enter(cfg, h, r).1;
            answer.Denied? && answer.reason.RuntimeExhausted? ==>
              Refusal(WithBudget(cfg, h, key, r.at).budgets[key], r.tool, cfg.CategoryOf(r.tool), r.at) == Some(answer.reason)
  {
  }

  /** In a halted session every call is told who halted it first since the last resume, and why. */
  lemma HaltAnswersReadTheHistory(cfg: Config, steps: seq<Step>, r: Request, i: nat)
    requires IsHalted(cfg, steps, r) && InForce(steps, r.session, i)
    ensures Enter(cfg, Run(cfg, EMPTY_HUB, steps), r).1 == Denied(SessionHalted(steps[i].operator, steps[i].reason))
  {
    HaltedExactlyAfterAHalt(cfg, steps, r.session);
  }

  /** Otherwise policy and gate answer first, each with what it says. */
  lemma PolicyAnswersReadTheHistory(cfg: Config, steps: seq<Step>, r: Request)
    requires !IsHalted(cfg, steps, r)
    ensures var answer := Enter(cfg, Run(cfg, EMPTY_HUB, steps), r).1;
            var p, category := cfg.policy, Kind(cfg, r.tool);
            && (r.tool in p.deniedTools ==> answer == Denied(InDenyList(r.tool)))
            && (!PolicyPasses(cfg, r.tool) && r.tool !in p.deniedTools ==>
                  answer == Denied(if p.allowedCategories != {} then CategoryNotAllowed(category) else FailClosed))
            && (PolicyPasses(cfg, r.tool) && r.gate.Rejects? ==> answer == Denied(ArgumentGate(r.gate.message)))
            && (PolicyPasses(cfg, r.tool) && r.gate.GateRaises? ==> answer == Escaped)
  {
    HaltedExactlyAfterAHalt(cfg, steps, r.session);
    PolicyAnswers(cfg, Run(cfg, EMPTY_HUB, steps), r);
  }

  /** ... and the approval last. */
  lemma ApprovalAnswersReadTheHistory(cfg: Config, steps: seq<Step>, r: Request)
    requires ReachesBudget(cfg, steps, r) && BudgetPasses(cfg, steps, Reading(cfg, steps), r)
    requires r.tool in cfg.policy.approvalTools && r.handler != Answers(true)
    ensures Enter(cfg, Run(cfg, EMPTY_HUB, steps), r).1
         == if r.handler.HandlerRaises? then Escaped else Denied(ApprovalDenied(NeedsApproval(r.tool)))
  {
    var h, q, key := Run(cfg, EMPTY_HUB, steps), Reading(cfg, steps), BilledTo(r.principal);
    HaltedExactlyAfterAHalt(cfg, steps, r.session);
    TrackersReadTheHistory(cfg, steps, key);
    CallMeetsItsHistory(cfg, steps, q, h, key, r.at);
    RefusalReadsTheHistory(cfg, steps, q, WithBudget(cfg, h, key, r.at).budgets[key], key, r);
    PolicyAnswers(cfg, h, r);
  }

  lemma PolicyAnswers(cfg: Config, h: Hub, r: Request)
    requires HaltFor(cfg, h, r).None?
    ensures var key, answer := BilledTo(r.principal), Enter(cfg, h, r).1;
            var p, category := cfg.policy, Kind(cfg, r.tool);
            && (r.tool in p.deniedTools ==> answer == Denied(InDenyList(r.tool)))
            && (!PolicyPasses(cfg, r.tool) && r.tool !in p.deniedTools ==>
                  answer == Denied(if p.allowedCategories != {} then CategoryNotAllowed(category) else FailClosed))
            && (PolicyPasses(cfg, r.tool) && r.gate.Rejects? ==> answer == Denied(ArgumentGate(r.gate.message)))
            && (PolicyPasses(cfg, r.tool) && r.gate.GateRaises? ==> answer == Escaped)
            && (PolicyPasses(cfg, r.tool) && GatePasses(r) && r.tool in p.approvalTools && r.handler != Answers(true)
                && Refusal(WithBudget(cfg, h, key, r.at).budgets[key], r.tool, category, r.at).None? ==>
                  answer == if r.handler.HandlerRaises? then Escaped else Denied(ApprovalDenied(NeedsApproval(r.tool))))
  {
  }
}
