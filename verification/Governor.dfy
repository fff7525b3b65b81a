/**
 The tool governor as a value: budget tracker, policy, kill-switch registry, artifact log, and the
 two halves of a governed call. `Enter` is everything up to the executor; `Leave` is everything
 after it. Between the two, any number of other steps may happen, so nested calls, and calls whose
 executors overlap, are runs of these steps. That one call is admitted and gets its slot in a single
 step is what a single thread guarantees; GovernorThreads takes the two apart.
 */
module Governor {
  import opened Collections

  // ---------------------------------------------------------------- requests, policy, limits

  datatype Category = Discovery | Connection | Execution | Other

  datatype Decision = Allow | Deny | ApprovalRequired

  /** Zero means unlimited; a negative limit is a limit that is already used up. */
  datatype Limits = Limits(
    maxTotal: int, maxPerTool: int, maxRuntime: real, maxParallel: int, separate: bool)

  datatype Policy = Policy(
    allowedTools: set<string>, deniedTools: set<string>, allowedCategories: set<Category>,
    approvalTools: set<string>, defaultAllow: bool)

  /** Each constructor is one of the fixed message texts together with what is filled into it. */
  datatype Reason =
    | InDenyList(tool: string) | NeedsApproval(tool: string) | InAllowList
    | CategoryAllowed(category: Category) | CategoryNotAllowed(category: Category)
    | AllowedByDefault | FailClosed
    | ArgumentGate(message: string)
    | TotalExhausted(limit: int) | PerToolExhausted(tool: string)
    | RuntimeExhausted(seconds: real) | ParallelCap(limit: int)
    | ConnectionThenExecution | ExecutionThenConnection
    | SessionHalted(operator: string, haltReason: string)
    | ApprovalDenied(of: Reason)

  datatype Config = Config(
    policy: Policy, registry: map<string, Category>, limits: Limits, supervised: bool)
  {
    function CategoryOf(tool: string): Category {
      if tool in registry then registry[tool] else Other
    }
  }

  /** What the argument gate registered for the tool does with this request. */
  datatype Gate = NoGate | Accepts | Rejects(message: string) | GateRaises

  /** What the approval handler does with this request. */
  datatype Handler = NoHandler | Answers(approve: bool) | HandlerRaises

  /** How an executor ends. `Aborts` is an exception that `except Exception` does not catch. */
  datatype Outcome = Returns(output: string) | Raises(error: string, errorType: string) | Aborts

  datatype Request = Request(
    id: string, tool: string, session: string, principal: string,
    at: real, gate: Gate, handler: Handler)

  // ---------------------------------------------------------------- budget tracker

  datatype Tracker = Tracker(
    limits: Limits, start: real, total: nat, perTool: map<string, nat>, inFlight: nat,
    connectionSeen: bool, executionSeen: bool)
  {
    function CallsTo(tool: string): nat {
      if tool in perTool then perTool[tool] else 0
    }
  }

  function NewTracker(limits: Limits, start: real): Tracker {
    Tracker(limits, start, 0, map[], 0, false, false)
  }

  /** None when the call is admitted, otherwise the reason it is not. */
  function Refusal(t: Tracker, tool: string, category: Category, now: real): Option<Reason> {
    var lim := t.limits;
    if lim.maxTotal != 0 && t.total >= lim.maxTotal then Some(TotalExhausted(lim.maxTotal))
    else if lim.maxPerTool != 0 && t.CallsTo(tool) >= lim.maxPerTool then Some(PerToolExhausted(tool))
    else if lim.maxRuntime != 0.0 && now - t.start >= lim.maxRuntime then Some(RuntimeExhausted(lim.maxRuntime))
    else if lim.maxParallel != 0 && t.inFlight >= lim.maxParallel then Some(ParallelCap(lim.maxParallel))
    else if lim.separate && category == Execution && t.connectionSeen then Some(ConnectionThenExecution)
    else if lim.separate && category == Connection && t.executionSeen then Some(ExecutionThenConnection)
    else None
  }

  function Acquired(t: Tracker, tool: string, category: Category): Tracker {
    t.(total := t.total + 1,
       perTool := t.perTool[tool := t.CallsTo(tool) + 1],
       inFlight := t.inFlight + 1,
       connectionSeen := t.connectionSeen || category == Connection,
       executionSeen := t.executionSeen || category == Execution)
  }

  function Released(t: Tracker): Tracker {
    t.(inFlight := if t.inFlight > 0 then t.inFlight - 1 else 0)
  }

  // ---------------------------------------------------------------- kill-switch registry

  datatype HaltEntry = HaltEntry(
    session: string, operator: string, reason: string,
    resumed: bool, resumedBy: string, resumeReason: string)

  type Halts = map<string, HaltEntry>

  function ActiveHalt(halts: Halts, session: string): Option<HaltEntry> {
    if session in halts && !halts[session].resumed then Some(halts[session]) else None
  }

  function Halted(halts: Halts, session: string, operator: string, reason: string): Halts {
    if ActiveHalt(halts, session).Some? then halts
    else halts[session := HaltEntry(session, operator, reason, false, "", "")]
  }

  function Resumed(halts: Halts, session: string, operator: string, reason: string): Halts {
    if ActiveHalt(halts, session).None? then halts
    else halts[session := halts[session].(resumed := true, resumedBy := operator, resumeReason := reason)]
  }

  // ---------------------------------------------------------------- artifacts

  /** The counters and flags of a tracker, as `stats()` exports them. */
  datatype Stats = Stats(
    total: nat, perTool: map<string, nat>, inFlight: nat, connectionSeen: bool, executionSeen: bool,
    limits: Limits)

  function StatsOf(t: Tracker): Stats {
    Stats(t.total, t.perTool, t.inFlight, t.connectionSeen, t.executionSeen, t.limits)
  }

  datatype Status = HaltedStatus | DeniedStatus | OkStatus | ErrorStatus

  datatype Artifact =
    | PolicyDecision(id: string, tool: string, decision: Decision, reason: Reason, category: Category, budget: Option<Stats>)
    | ApprovalRequest(id: string, tool: string, reason: Reason)
    | ApprovalLog(id: string, tool: string, approved: bool, reason: Reason)
    | ToolCallLog(id: string, tool: string, outcome: Outcome)
    | BudgetStats(id: string, tool: string, stats: Stats)
    | ResultSummary(id: string, tool: string, status: Status)

  /** What a governed call hands back before its executor runs. */
  datatype Answer =
    | Denied(reason: Reason)   // a ToolResult with allowed == False
    | Executing                // the executor is now running
    | Escaped                  // an exception of the gate or the handler left governed_call

  datatype OpenCall = OpenCall(id: string, tool: string)

  /** All trackers, the calls whose executor is running, the halts and the shared artifact list. */
  datatype Hub = Hub(
    budgets: map<string, Tracker>, open: map<string, seq<OpenCall>>, halts: Halts,
    artifacts: seq<Artifact>)

  const EMPTY_HUB := Hub(map[], map[], map[], [])

  function OpenOf(h: Hub, key: string): seq<OpenCall> {
    if key in h.open then h.open[key] else []
  }

  // ---------------------------------------------------------------- governed call

  function PrincipalKey(principal: string): string {
    if principal == "" then "default" else principal
  }

  function PolicyRuling(p: Policy, tool: string, category: Category): (Decision, Reason) {
    if tool in p.deniedTools then (Deny, InDenyList(tool))
    else if tool in p.approvalTools then (ApprovalRequired, NeedsApproval(tool))
    else if tool in p.allowedTools then (Allow, InAllowList)
    else if p.allowedCategories != {} then
      (if category in p.allowedCategories then (Allow, CategoryAllowed(category)) else (Deny, CategoryNotAllowed(category)))
    else if p.defaultAllow then (Allow, AllowedByDefault)
    else (Deny, FailClosed)
  }

  /** Policy, then argument gate, then budget: the first objection wins. */
  function Ruling(cfg: Config, t: Tracker, r: Request): (Decision, Reason) {
    var category := cfg.CategoryOf(r.tool);
    var (decision, reason) := PolicyRuling(cfg.policy, r.tool, category);
    if decision == Deny then (decision, reason)
    else if r.gate.Rejects? then (Deny, ArgumentGate(r.gate.message))
    else
      match Refusal(t, r.tool, category, r.at)
      case Some(why) => (Deny, why)
      case None => (decision, reason)
  }

  /** The gate is consulted only when the policy did not already deny. */
  predicate GateEscapes(cfg: Config, r: Request) {
    r.gate.GateRaises? && PolicyRuling(cfg.policy, r.tool, cfg.CategoryOf(r.tool)).0 != Deny
  }

  function HaltFor(cfg: Config, h: Hub, r: Request): Option<HaltEntry> {
    if cfg.supervised && r.session != "" then ActiveHalt(h.halts, r.session) else None
  }

  function WithBudget(cfg: Config, h: Hub, key: string, at: real): Hub {
    if key in h.budgets then h else h.(budgets := h.budgets[key := NewTracker(cfg.limits, at)])
  }

  function Logged(h: Hub, entries: seq<Artifact>): Hub {
    h.(artifacts := h.artifacts + entries)
  }

  function Started(cfg: Config, h: Hub, key: string, r: Request): Hub
    requires key in h.budgets
  {
    h.(budgets := h.budgets[key := Acquired(h.budgets[key], r.tool, cfg.CategoryOf(r.tool))],
       open := h.open[key := OpenOf(h, key) + [OpenCall(r.id, r.tool)]])
  }

  /** The ruling is logged; a required approval is asked for and logged; a denial is summarised. */
  function AfterRuling(r: Request, category: Category, decision: Decision, reason: Reason, stats: Stats):
    (seq<Artifact>, Answer)
  {
    var ruled := PolicyDecision(r.id, r.tool, decision, reason, category, Some(stats));
    var refused := ResultSummary(r.id, r.tool, DeniedStatus);
    var asked := ApprovalRequest(r.id, r.tool, reason);
    match decision
    case Deny => ([ruled, refused], Denied(reason))
    case Allow => ([ruled], Executing)
    case ApprovalRequired =>
      if r.handler.HandlerRaises? then ([ruled, asked], Escaped)
      else if r.handler == Answers(true) then
        ([ruled, asked, ApprovalLog(r.id, r.tool, true, reason)], Executing)
      else
        ([ruled, asked, ApprovalLog(r.id, r.tool, false, reason), refused], Denied(ApprovalDenied(reason)))
  }

  /** The artifacts written before the executor, and what the caller gets instead of it if anything. */
  function Decide(cfg: Config, h: Hub, r: Request): (seq<Artifact>, Answer)
    requires PrincipalKey(r.principal) in h.budgets
  {
    var category := cfg.CategoryOf(r.tool);
    match HaltFor(cfg, h, r)
    case Some(halt) =>
      var reason := SessionHalted(halt.operator, halt.reason);
      ([PolicyDecision(r.id, r.tool, Deny, reason, category, None), ResultSummary(r.id, r.tool, HaltedStatus)],
       Denied(reason))
    case None =>
      if GateEscapes(cfg, r) then ([], Escaped)
      else
        var t := h.budgets[PrincipalKey(r.principal)];
        var (decision, reason) := Ruling(cfg, t, r);
        AfterRuling(r, category, decision, reason, StatsOf(t))
  }

  function Enter(cfg: Config, h: Hub, r: Request): (Hub, Answer) {
    var key := PrincipalKey(r.principal);
    var g := WithBudget(cfg, h, key, r.at);
    var (entries, answer) := Decide(cfg, g, r);
    var g := Logged(g, entries);
    (if answer.Executing? then Started(cfg, g, key, r) else g, answer)
  }

  /** What the executor's end adds to the log before the budget is released. */
  function OutcomeLog(c: OpenCall, outcome: Outcome): seq<Artifact> {
    match outcome
    case Returns(_) => [ToolCallLog(c.id, c.tool, outcome), ResultSummary(c.id, c.tool, OkStatus)]
    case Raises(_, _) => [ToolCallLog(c.id, c.tool, outcome), ResultSummary(c.id, c.tool, ErrorStatus)]
    case Aborts => []
  }

  predicate IsOpen(h: Hub, key: string, slot: nat) {
    key in h.budgets && slot < |OpenOf(h, key)|
  }

  function Leave(h: Hub, key: string, slot: nat, outcome: Outcome): Hub
    requires IsOpen(h, key, slot)
  {
    var calls := OpenOf(h, key);
    var t := Released(h.budgets[key]);
    h.(budgets := h.budgets[key := t],
       open := h.open[key := calls[..slot] + calls[slot + 1..]],
       artifacts := h.artifacts + OutcomeLog(calls[slot], outcome)
                  + [BudgetStats(calls[slot].id, calls[slot].tool, StatsOf(t))])
  }

  // ---------------------------------------------------------------- runs

  /** `LeaveCall` names the principal and which of its open calls ends; one that names no open
      call is not a step the program can take and leaves the hub as it is. */
  datatype Step =
    | EnterCall(request: Request)
    | LeaveCall(principal: string, slot: nat, outcome: Outcome)
    | HaltSession(session: string, operator: string, reason: string)
    | ResumeSession(session: string, operator: string, reason: string)

  function Apply(cfg: Config, h: Hub, s: Step): Hub {
    match s
    case EnterCall(r) => Enter(cfg, h, r).0
    case LeaveCall(p, slot, outcome) =>
      if IsOpen(h, PrincipalKey(p), slot) then Leave(h, PrincipalKey(p), slot, outcome) else h
    case HaltSession(session, operator, reason) => h.(halts := Halted(h.halts, session, operator, reason))
    case ResumeSession(session, operator, reason) => h.(halts := Resumed(h.halts, session, operator, reason))
  }

  function Run(cfg: Config, h: Hub, steps: seq<Step>): Hub {
    if steps == [] then h
    else Apply(cfg, Run(cfg, h, steps[..|steps| - 1]), steps[|steps| - 1])
  }

  lemma RunOne(cfg: Config, h: Hub, s: Step)
    ensures Run(cfg, h, [s]) == Apply(cfg, h, s)
  {
    assert [s][..0] == [];
    assert Run(cfg, h, [s][..0]) == h;
  }

  lemma {:induction false} RunAppend(cfg: Config, h: Hub, a: seq<Step>, b: seq<Step>)
    ensures Run(cfg, h, a + b) == Run(cfg, Run(cfg, h, a), b)
  {
    if b == [] {
      assert a + b == a;
    } else {
      var n := |b| - 1;
      RunAppend(cfg, h, a, b[..n]);
      assert (a + b)[..|a + b| - 1] == a + b[..n];
      assert (a + b)[|a + b| - 1] == b[n];
    }
  }

  // ---------------------------------------------------------------- what every reachable state keeps

  /** A count stays within a limit; with a negative limit it never leaves zero. */
  predicate Within(limit: int, count: nat) {
    limit == 0 || count <= (if limit > 0 then limit else 0)
  }

  ghost predicate TrackerInv(t: Tracker) {
    && Within(t.limits.maxTotal, t.total)
    && Within(t.limits.maxParallel, t.inFlight)
    && (forall tool :: Within(t.limits.maxPerTool, t.CallsTo(tool)))
    && SumValues(t.perTool) == t.total
    && !(t.limits.separate && t.connectionSeen && t.executionSeen)
  }

  ghost predicate HubInv(cfg: Config, h: Hub) {
    && h.open.Keys <= h.budgets.Keys
    && forall key :: key in h.budgets ==>
      && TrackerInv(h.budgets[key])
      && h.budgets[key].limits == cfg.limits
      && h.budgets[key].inFlight == |OpenOf(h, key)|
  }

  lemma AcquireKeepsInv(t: Tracker, tool: string, category: Category, now: real)
    requires TrackerInv(t)
    requires Refusal(t, tool, category, now).None?
    ensures TrackerInv(Acquired(t, tool, category))
  {
    var u := Acquired(t, tool, category);
    SumValuesUpdate(t.perTool, tool, t.CallsTo(tool) + 1);
    forall other ensures Within(u.limits.maxPerTool, u.CallsTo(other)) {
      assert Within(t.limits.maxPerTool, t.CallsTo(other));
    }
  }

  lemma ReleaseKeepsInv(t: Tracker)
    requires TrackerInv(t)
    ensures TrackerInv(Released(t))
  {
    forall tool ensures Released(t).CallsTo(tool) == t.CallsTo(tool) {}
  }

  /** No executor runs unless the budget admitted the call. */
  lemma ExecutingWasAdmitted(cfg: Config, h: Hub, r: Request)
    requires PrincipalKey(r.principal) in h.budgets
    requires Decide(cfg, h, r).1.Executing?
    ensures Refusal(h.budgets[PrincipalKey(r.principal)], r.tool, cfg.CategoryOf(r.tool), r.at).None?
  {
  }

  lemma StartedKeepsInv(cfg: Config, h: Hub, r: Request)
    requires HubInv(cfg, h) && PrincipalKey(r.principal) in h.budgets
    requires Refusal(h.budgets[PrincipalKey(r.principal)], r.tool, cfg.CategoryOf(r.tool), r.at).None?
    ensures HubInv(cfg, Started(cfg, h, PrincipalKey(r.principal), r))
  {
    AcquireKeepsInv(h.budgets[PrincipalKey(r.principal)], r.tool, cfg.CategoryOf(r.tool), r.at);
  }

  lemma WithBudgetKeepsInv(cfg: Config, h: Hub, key: string, at: real)
    requires HubInv(cfg, h)
    ensures HubInv(cfg, WithBudget(cfg, h, key, at))
  {
  }

  lemma LoggedKeepsInv(cfg: Config, h: Hub, entries: seq<Artifact>)
    requires HubInv(cfg, h)
    ensures HubInv(cfg, Logged(h, entries))
  {
  }

  lemma EnterKeepsInv(cfg: Config, h: Hub, r: Request)
    requires HubInv(cfg, h)
    ensures HubInv(cfg, Enter(cfg, h, r).0)
  {
    var key := PrincipalKey(r.principal);
    var g := WithBudget(cfg, h, key, r.at);
    WithBudgetKeepsInv(cfg, h, key, r.at);
    var (entries, answer) := Decide(cfg, g, r);
    LoggedKeepsInv(cfg, g, entries);
    if answer.Executing? {
      ExecutingWasAdmitted(cfg, g, r);
      StartedKeepsInv(cfg, Logged(g, entries), r);
    }
  }

  lemma LeaveKeepsInv(cfg: Config, h: Hub, key: string, slot: nat, outcome: Outcome)
    requires HubInv(cfg, h) && IsOpen(h, key, slot)
    ensures HubInv(cfg, Leave(h, key, slot, outcome))
  {
    ReleaseKeepsInv(h.budgets[key]);
  }

  lemma ApplyKeepsInv(cfg: Config, h: Hub, s: Step)
    requires HubInv(cfg, h)
    ensures HubInv(cfg, Apply(cfg, h, s))
  {
    match s
    case EnterCall(r) => EnterKeepsInv(cfg, h, r);
    case LeaveCall(p, slot, outcome) =>
      if IsOpen(h, PrincipalKey(p), slot) {
        LeaveKeepsInv(cfg, h, PrincipalKey(p), slot, outcome);
      }
    case HaltSession(_, _, _) =>
    case ResumeSession(_, _, _) =>
  }

  lemma {:induction false} RunKeepsInv(cfg: Config, h: Hub, steps: seq<Step>)
    requires HubInv(cfg, h)
    ensures HubInv(cfg, Run(cfg, h, steps))
  {
    if steps != [] {
      var n := |steps| - 1;
      RunKeepsInv(cfg, h, steps[..n]);
      ApplyKeepsInv(cfg, Run(cfg, h, steps[..n]), steps[n]);
    }
  }

  /** Safety over every run: budgets are never exceeded, the per-tool counters add up, connection
      and execution never mix when separated, and `in_flight` is the number of running executors. */
  lemma BudgetsHoldInEveryRun(cfg: Config, steps: seq<Step>, key: string)
    requires key in Run(cfg, EMPTY_HUB, steps).budgets
    ensures var t := Run(cfg, EMPTY_HUB, steps).budgets[key];
            && Within(cfg.limits.maxTotal, t.total)
            && Within(cfg.limits.maxParallel, t.inFlight)
            && (forall tool :: Within(cfg.limits.maxPerTool, t.CallsTo(tool)))
            && SumValues(t.perTool) == t.total
            && !(cfg.limits.separate && t.connectionSeen && t.executionSeen)
            && t.inFlight == |OpenOf(Run(cfg, EMPTY_HUB, steps), key)|
  {
    RunKeepsInv(cfg, EMPTY_HUB, steps);
  }

  /** Every call that can end holds a slot, so `release` never meets a zero counter and takes off exactly one. */
  lemma ReleaseNeverMeetsZero(cfg: Config, steps: seq<Step>, key: string, slot: nat, outcome: Outcome)
    requires IsOpen(Run(cfg, EMPTY_HUB, steps), key, slot)
    ensures var h := Run(cfg, EMPTY_HUB, steps);
            && h.budgets[key].inFlight > 0
            && Leave(h, key, slot, outcome).budgets[key].inFlight == h.budgets[key].inFlight - 1
  {
    RunKeepsInv(cfg, EMPTY_HUB, steps);
  }

  // ---------------------------------------------------------------- exactly when an executor runs

  /** Admission is as permissive as the limits allow: a call is refused exactly when running it
      would leave the tracker outside a limit, or the runtime is used up. */
  lemma AdmittedExactlyWithinLimits(t: Tracker, tool: string, category: Category, now: real)
    requires TrackerInv(t)
    ensures Refusal(t, tool, category, now).None? <==>
            && TrackerInv(Acquired(t, tool, category))
            && (t.limits.maxRuntime == 0.0 || now - t.start < t.limits.maxRuntime)
  {
    var u := Acquired(t, tool, category);
    if Refusal(t, tool, category, now).None? {
      AcquireKeepsInv(t, tool, category, now);
    } else if TrackerInv(u) {
      assert Within(u.limits.maxPerTool, u.CallsTo(tool));
    }
  }

  /** The executor is reached exactly when the session is not halted, no list or category rule
      denies the tool, the gate does not object, the budget admits the call and, where the tool
      needs approval, the handler approves. The deny list beats every other list. */
  lemma ExecutorReachedExactlyWhen(cfg: Config, h: Hub, r: Request)
    ensures var p := cfg.policy;
            var category := cfg.CategoryOf(r.tool);
            var t := WithBudget(cfg, h, PrincipalKey(r.principal), r.at).budgets[PrincipalKey(r.principal)];
            Enter(cfg, h, r).1.Executing? <==>
              && !(cfg.supervised && r.session != "" && ActiveHalt(h.halts, r.session).Some?)
              && r.tool !in p.deniedTools
              && (r.tool in p.approvalTools || r.tool in p.allowedTools || category in p.allowedCategories
                  || (p.allowedCategories == {} && p.defaultAllow))
              && (r.gate.NoGate? || r.gate.Accepts?)
              && Refusal(t, r.tool, category, r.at).None?
              && (r.tool in p.approvalTools ==> r.handler == Answers(true))
  {
  }
}
