/** The audit report read off the artifact list, and its agreement with the live trackers. */
module GovernorReport {
  import opened Collections
  import opened Governor
  import opened GovernorRuns

  // ---------------------------------------------------------------- the report

  function Count(artifacts: seq<Artifact>, p: Artifact -> bool): nat {
    if artifacts == [] then 0
    else Count(artifacts[..|artifacts| - 1], p) + (if p(artifacts[|artifacts| - 1]) then 1 else 0)
  }

  predicate IsDecision(a: Artifact) { a.PolicyDecision? }
  predicate IsAllow(a: Artifact) { a.PolicyDecision? && a.decision == Allow }
  predicate IsDeny(a: Artifact) { a.PolicyDecision? && a.decision == Deny }
  predicate IsRequired(a: Artifact) { a.PolicyDecision? && a.decision == ApprovalRequired }
  predicate IsApprovalLog(a: Artifact) { a.ApprovalLog? }
  predicate IsApproved(a: Artifact) { a.ApprovalLog? && a.approved }
  predicate IsToolCall(a: Artifact) { a.ToolCallLog? }
  predicate IsStats(a: Artifact) { a.BudgetStats? }
  predicate IsSummary(a: Artifact) { a.ResultSummary? }

  datatype Report = Report(
    totalRequests: nat, allowed: nat, denied: nat, approvalRequests: nat, approved: nat, toolCalls: nat)

  function Summary(artifacts: seq<Artifact>): Report {
    Report(Count(artifacts, IsDecision), Count(artifacts, IsAllow), Count(artifacts, IsDeny),
           Count(artifacts, IsApprovalLog), Count(artifacts, IsApproved), Count(artifacts, IsToolCall))
  }

  /** The payload of the last budget artifact; None stands for the empty dictionary. */
  function BudgetSnapshot(artifacts: seq<Artifact>): Option<Stats> {
    if artifacts == [] then None
    else
      var last := artifacts[|artifacts| - 1];
      if last.BudgetStats? then Some(last.stats) else BudgetSnapshot(artifacts[..|artifacts| - 1])
  }

  /** `text` stands for the message texts: reasons that read the same are counted together. */
  function DenialBreakdown(text: Reason -> string, artifacts: seq<Artifact>): map<string, nat> {
    if artifacts == [] then map[]
    else
      var m := DenialBreakdown(text, artifacts[..|artifacts| - 1]);
      var last := artifacts[|artifacts| - 1];
      if IsDeny(last) then
        var message := text(last.reason);
        m[message := (if message in m then m[message] else 0) + 1]
      else m
  }

  /** The breakdown accounts for every denial, once each. */
  lemma {:induction false} BreakdownAddsUp(text: Reason -> string, artifacts: seq<Artifact>)
    ensures SumValues(DenialBreakdown(text, artifacts)) == Summary(artifacts).denied
  {
    if artifacts != [] {
      var n := |artifacts| - 1;
      BreakdownAddsUp(text, artifacts[..n]);
      var m := DenialBreakdown(text, artifacts[..n]);
      if IsDeny(artifacts[n]) {
        var message := text(artifacts[n].reason);
        SumValuesUpdate(m, message, (if message in m then m[message] else 0) + 1);
      }
    }
  }

  /** The positions of the denials whose reason reads `message`. */
  ghost function DenialsFor(text: Reason -> string, artifacts: seq<Artifact>, message: string): set<nat> {
    set i: nat | i < |artifacts| && IsDeny(artifacts[i]) && text(artifacts[i].reason) == message
  }

  lemma DenialsForLast(text: Reason -> string, artifacts: seq<Artifact>, message: string)
    requires artifacts != []
    ensures var n := |artifacts| - 1;
            DenialsFor(text, artifacts, message) == DenialsFor(text, artifacts[..n], message)
              + (if IsDeny(artifacts[n]) && text(artifacts[n].reason) == message then {n} else {})
  {
  }

  /** Each message's entry is the number of denials whose reason reads so. */
  lemma {:induction false} BreakdownPerReason(text: Reason -> string, artifacts: seq<Artifact>, message: string)
    ensures var m := DenialBreakdown(text, artifacts);
            |DenialsFor(text, artifacts, message)| == (if message in m then m[message] else 0)
  {
    if artifacts == [] {
      assert DenialsFor(text, artifacts, message) == {};
    } else {
      var n := |artifacts| - 1;
      BreakdownPerReason(text, artifacts[..n], message);
      DenialsForLast(text, artifacts, message);
      assert n !in DenialsFor(text, artifacts[..n], message);
    }
  }

  // ---------------------------------------------------------------- what escaped from the log

  /** Calls entered, and the exceptions that left `governed_call` instead of a result. */
  datatype Tally = Tally(calls: nat, gateEscapes: nat, handlerEscapes: nat, aborts: nat)

  const NO_TALLY := Tally(0, 0, 0, 0)

  function PlusTally(y: Tally, z: Tally): Tally {
    Tally(y.calls + z.calls, y.gateEscapes + z.gateEscapes, y.handlerEscapes + z.handlerEscapes, y.aborts + z.aborts)
  }

  /** One call, and where it escaped if it did. */
  function EnterTally(cfg: Config, r: Request, answer: Answer): Tally {
    Tally(1, if answer.Escaped? && GateEscapes(cfg, r) then 1 else 0,
          if answer.Escaped? && !GateEscapes(cfg, r) then 1 else 0, 0)
  }

  function TallyStep(cfg: Config, h: Hub, s: Step, y: Tally): Tally {
    match s
    case EnterCall(r) =>
      PlusTally(y, EnterTally(cfg, r, Enter(cfg, h, r).1))
    case LeaveCall(p, slot, outcome) =>
      if IsOpen(h, PrincipalKey(p), slot) && outcome.Aborts? then y.(aborts := y.aborts + 1) else y
    case HaltSession(_, _, _) => y
    case ResumeSession(_, _, _) => y
  }

  function RunTally(cfg: Config, steps: seq<Step>): Tally {
    if steps == [] then NO_TALLY
    else
      var before := steps[..|steps| - 1];
      TallyStep(cfg, Run(cfg, EMPTY_HUB, before), steps[|steps| - 1], RunTally(cfg, before))
  }

  // ---------------------------------------------------------------- the ledger balances

  function Totals(budgets: map<string, Tracker>): map<string, nat> {
    map key | key in budgets :: budgets[key].total
  }

  function OpenCounts(h: Hub): map<string, nat> {
    map key | key in h.budgets :: |OpenOf(h, key)|
  }

  /** Six accounts kept in balance by every step: each is a signed count over the artifact list. */
  datatype Account = Decided | Awaiting | Admitted | Finished | Unlogged | Unanswered

  function One(b: bool): int { if b then 1 else 0 }

  function Weight(c: Account, a: Artifact): int {
    match c
    case Decided => One(IsDecision(a))
    case Awaiting => One(IsRequired(a)) - One(IsApprovalLog(a))
    case Admitted => One(IsAllow(a)) + One(IsApproved(a))
    case Finished => One(IsStats(a))
    case Unlogged => One(IsStats(a)) - One(IsToolCall(a))
    case Unanswered => One(IsDecision(a)) - One(IsSummary(a))
  }

  function Balance(c: Account, artifacts: seq<Artifact>): int {
    if artifacts == [] then 0
    else Balance(c, artifacts[..|artifacts| - 1]) + Weight(c, artifacts[|artifacts| - 1])
  }

  /** What each account must show, from the calls made, admitted and still running. */
  function Expected(c: Account, y: Tally, admitted: int, running: int): int {
    match c
    case Decided => y.calls - y.gateEscapes
    case Awaiting => y.handlerEscapes
    case Admitted => admitted
    case Finished => admitted - running
    case Unlogged => y.aborts
    case Unanswered => running + y.aborts + y.handlerEscapes
  }

  lemma {:induction false} BalanceAppend(c: Account, s: seq<Artifact>, t: seq<Artifact>)
    ensures Balance(c, s + t) == Balance(c, s) + Balance(c, t)
  {
    if t == [] {
      assert s + t == s;
    } else {
      assert (s + t)[..|s + t| - 1] == s + t[..|t| - 1];
      BalanceAppend(c, s, t[..|t| - 1]);
    }
  }

  lemma {:induction false} BalanceShort(c: Account, t: seq<Artifact>)
    requires |t| <= 4
    ensures Balance(c, t) == (if |t| > 0 then Weight(c, t[0]) else 0) + (if |t| > 1 then Weight(c, t[1]) else 0)
                           + (if |t| > 2 then Weight(c, t[2]) else 0) + (if |t| > 3 then Weight(c, t[3]) else 0)
  {
    if t != [] {
      BalanceShort(c, t[..|t| - 1]);
    }
  }

  /** The accounts read as counts of artifacts. */
  lemma {:induction false} AccountsAreCounts(a: seq<Artifact>)
    ensures Balance(Decided, a) == Count(a, IsDecision)
    ensures Balance(Awaiting, a) == Count(a, IsRequired) - Count(a, IsApprovalLog)
    ensures Balance(Admitted, a) == Count(a, IsAllow) + Count(a, IsApproved)
    ensures Balance(Finished, a) == Count(a, IsStats)
    ensures Balance(Unlogged, a) == Count(a, IsStats) - Count(a, IsToolCall)
    ensures Balance(Unanswered, a) == Count(a, IsDecision) - Count(a, IsSummary)
    ensures Count(a, IsDecision) == Count(a, IsAllow) + Count(a, IsDeny) + Count(a, IsRequired)
  {
    if a != [] {
      AccountsAreCounts(a[..|a| - 1]);
    }
  }

  ghost predicate Balanced(c: Account, h: Hub, y: Tally) {
    Balance(c, h.artifacts) == Expected(c, y, SumValues(Totals(h.budgets)), SumValues(OpenCounts(h)))
  }

  lemma NewTrackerTotals(cfg: Config, h: Hub, key: string, at: real)
    requires h.open.Keys <= h.budgets.Keys && key !in h.budgets
    ensures Totals(WithBudget(cfg, h, key, at).budgets) == Totals(h.budgets)[key := 0]
    ensures OpenCounts(WithBudget(cfg, h, key, at)) == OpenCounts(h)[key := 0]
  {
  }

  lemma WithBudgetTotals(cfg: Config, h: Hub, key: string, at: real)
    requires h.open.Keys <= h.budgets.Keys
    ensures SumValues(Totals(WithBudget(cfg, h, key, at).budgets)) == SumValues(Totals(h.budgets))
    ensures SumValues(OpenCounts(WithBudget(cfg, h, key, at))) == SumValues(OpenCounts(h))
  {
    if key !in h.budgets {
      NewTrackerTotals(cfg, h, key, at);
      SumValuesUpdate(Totals(h.budgets), key, 0);
      SumValuesUpdate(OpenCounts(h), key, 0);
    }
  }

  lemma StartedTotals(cfg: Config, h: Hub, key: string, r: Request)
    requires key in h.budgets
    ensures SumValues(Totals(Started(cfg, h, key, r).budgets)) == SumValues(Totals(h.budgets)) + 1
    ensures SumValues(OpenCounts(Started(cfg, h, key, r))) == SumValues(OpenCounts(h)) + 1
  {
    StartedKeys(cfg, h, key, r);
    SumValuesUpdate(Totals(h.budgets), key, h.budgets[key].total + 1);
    OpenCountChanged(h, Started(cfg, h, key, r), key);
  }

  lemma StartedKeys(cfg: Config, h: Hub, key: string, r: Request)
    requires key in h.budgets
    ensures var g := Started(cfg, h, key, r);
            && g.budgets.Keys == h.budgets.Keys
            && Totals(g.budgets) == Totals(h.budgets)[key := h.budgets[key].total + 1]
            && |OpenOf(g, key)| == |OpenOf(h, key)| + 1
            && (forall k :: k != key ==> OpenOf(g, k) == OpenOf(h, k))
  {
  }

  lemma SameTotals(b: map<string, Tracker>, c: map<string, Tracker>)
    requires b.Keys == c.Keys && forall k :: k in b ==> b[k].total == c[k].total
    ensures Totals(b) == Totals(c)
  {
  }

  lemma OpenCountChanged(h: Hub, g: Hub, key: string)
    requires g.budgets.Keys == h.budgets.Keys && key in h.budgets
    requires forall k :: k != key ==> OpenOf(g, k) == OpenOf(h, k)
    ensures SumValues(OpenCounts(g)) == SumValues(OpenCounts(h)) - |OpenOf(h, key)| + |OpenOf(g, key)|
  {
    assert OpenCounts(g) == OpenCounts(h)[key := |OpenOf(g, key)|];
    SumValuesUpdate(OpenCounts(h), key, |OpenOf(g, key)|);
  }

  lemma LeaveTotals(h: Hub, key: string, slot: nat, outcome: Outcome)
    requires IsOpen(h, key, slot)
    ensures SumValues(Totals(Leave(h, key, slot, outcome).budgets)) == SumValues(Totals(h.budgets))
    ensures SumValues(OpenCounts(Leave(h, key, slot, outcome))) == SumValues(OpenCounts(h)) - 1
  {
    LeaveKeys(h, key, slot, outcome);
    SameTotals(h.budgets, Leave(h, key, slot, outcome).budgets);
    OpenCountChanged(h, Leave(h, key, slot, outcome), key);
  }

  lemma LeaveKeys(h: Hub, key: string, slot: nat, outcome: Outcome)
    requires IsOpen(h, key, slot)
    ensures var g := Leave(h, key, slot, outcome);
            && g.budgets.Keys == h.budgets.Keys
            && (forall k :: k in h.budgets ==> g.budgets[k].total == h.budgets[k].total)
            && |OpenOf(g, key)| == |OpenOf(h, key)| - 1
            && (forall k :: k != key ==> OpenOf(g, k) == OpenOf(h, k))
  {
  }

  lemma AfterRulingBalances(c: Account, r: Request, category: Category, decision: Decision, reason: Reason, stats: Stats)
    ensures var (entries, answer) := AfterRuling(r, category, decision, reason, stats);
            Balance(c, entries) == Expected(c, Tally(1, 0, One(answer.Escaped?), 0), One(answer.Executing?), One(answer.Executing?))
  {
    BalanceShort(c, AfterRuling(r, category, decision, reason, stats).0);
  }

  lemma HaltedBalances(c: Account, ruled: Artifact, refused: Artifact)
    requires ruled.PolicyDecision? && ruled.decision == Deny && refused.ResultSummary?
    ensures Balance(c, [ruled, refused]) == Expected(c, Tally(1, 0, 0, 0), 0, 0)
  {
    BalanceShort(c, [ruled, refused]);
  }

  /** What one `Enter` writes, counted: a balance sheet of its own. */
  lemma DecideBalances(c: Account, cfg: Config, h: Hub, r: Request)
    requires PrincipalKey(r.principal) in h.budgets
    ensures var (entries, answer) := Decide(cfg, h, r);
            Balance(c, entries)
              == Expected(c, EnterTally(cfg, r, answer), One(answer.Executing?), One(answer.Executing?))
  {
    var category := cfg.CategoryOf(r.tool);
    match HaltFor(cfg, h, r)
    case Some(halt) =>
      HaltedBalances(c, PolicyDecision(r.id, r.tool, Deny, SessionHalted(halt.operator, halt.reason), category, None),
                     ResultSummary(r.id, r.tool, HaltedStatus));
    case None =>
      if !GateEscapes(cfg, r) {
        var t := h.budgets[PrincipalKey(r.principal)];
        var (decision, reason) := Ruling(cfg, t, r);
        AfterRulingBalances(c, r, category, decision, reason, StatsOf(t));
      }
  }

  lemma EnterTotals(cfg: Config, h: Hub, r: Request)
    requires HubInv(cfg, h)
    ensures var (k, answer) := Enter(cfg, h, r);
            && SumValues(Totals(k.budgets)) == SumValues(Totals(h.budgets)) + One(answer.Executing?)
            && SumValues(OpenCounts(k)) == SumValues(OpenCounts(h)) + One(answer.Executing?)
  {
    var key := PrincipalKey(r.principal);
    var g := WithBudget(cfg, h, key, r.at);
    var (entries, answer) := Decide(cfg, g, r);
    WithBudgetTotals(cfg, h, key, r.at);
    var logged := Logged(g, entries);
    assert OpenCounts(logged) == OpenCounts(g);
    if answer.Executing? {
      StartedTotals(cfg, logged, key, r);
    }
  }

  lemma ExpectedAdds(c: Account, y: Tally, admitted: int, running: int, z: Tally, started: int)
    ensures Expected(c, PlusTally(y, z), admitted + started, running + started)
         == Expected(c, y, admitted, running) + Expected(c, z, started, started)
  {
  }

  lemma EnterEntries(c: Account, cfg: Config, h: Hub, r: Request)
    ensures var (k, answer) := Enter(cfg, h, r);
            Balance(c, k.artifacts) == Balance(c, h.artifacts)
              + Expected(c, EnterTally(cfg, r, answer), One(answer.Executing?), One(answer.Executing?))
  {
    var g := WithBudget(cfg, h, PrincipalKey(r.principal), r.at);
    var (entries, answer) := Decide(cfg, g, r);
    assert Enter(cfg, h, r).0.artifacts == h.artifacts + entries && Enter(cfg, h, r).1 == answer;
    BalanceAppend(c, h.artifacts, entries);
    DecideBalances(c, cfg, g, r);
  }

  lemma EnterBalanced(c: Account, cfg: Config, h: Hub, r: Request, y: Tally)
    requires HubInv(cfg, h) && Balanced(c, h, y)
    ensures Balanced(c, Enter(cfg, h, r).0, TallyStep(cfg, h, EnterCall(r), y))
  {
    var (k, answer) := Enter(cfg, h, r);
    EnterEntries(c, cfg, h, r);
    EnterTotals(cfg, h, r);
    ExpectedAdds(c, y, SumValues(Totals(h.budgets)), SumValues(OpenCounts(h)),
                 EnterTally(cfg, r, answer), One(answer.Executing?));
  }

  lemma OutcomeBalances(c: Account, call: OpenCall, outcome: Outcome, stats: Stats)
    ensures Balance(c, OutcomeLog(call, outcome) + [BudgetStats(call.id, call.tool, stats)])
         == Expected(c, NO_TALLY.(aborts := if outcome.Aborts? then 1 else 0), 0, -1)
  {
    BalanceShort(c, OutcomeLog(call, outcome) + [BudgetStats(call.id, call.tool, stats)]);
  }

  lemma LeaveEntries(c: Account, h: Hub, key: string, slot: nat, outcome: Outcome)
    requires IsOpen(h, key, slot)
    ensures Balance(c, Leave(h, key, slot, outcome).artifacts)
         == Balance(c, h.artifacts) + Expected(c, NO_TALLY.(aborts := if outcome.Aborts? then 1 else 0), 0, -1)
  {
    var call := OpenOf(h, key)[slot];
    var entries := OutcomeLog(call, outcome) + [BudgetStats(call.id, call.tool, StatsOf(Released(h.budgets[key])))];
    OutcomeBalances(c, call, outcome, StatsOf(Released(h.budgets[key])));
    BalanceAppend(c, h.artifacts, entries);
    assert Leave(h, key, slot, outcome).artifacts == h.artifacts + entries;
  }

  lemma ExpectedEnds(c: Account, y: Tally, admitted: int, running: int, aborted: nat)
    ensures Expected(c, y.(aborts := y.aborts + aborted), admitted, running - 1)
         == Expected(c, y, admitted, running) + Expected(c, NO_TALLY.(aborts := aborted), 0, -1)
  {
  }

  lemma LeaveBalanced(c: Account, h: Hub, key: string, slot: nat, outcome: Outcome, y: Tally)
    requires IsOpen(h, key, slot) && Balanced(c, h, y)
    ensures Balanced(c, Leave(h, key, slot, outcome), if outcome.Aborts? then y.(aborts := y.aborts + 1) else y)
  {
    LeaveTotals(h, key, slot, outcome);
    LeaveEntries(c, h, key, slot, outcome);
    ExpectedEnds(c, y, SumValues(Totals(h.budgets)), SumValues(OpenCounts(h)), if outcome.Aborts? then 1 else 0);
  }

  lemma HaltStepBalanced(c: Account, cfg: Config, h: Hub, s: Step, y: Tally)
    requires Balanced(c, h, y) && (s.HaltSession? || s.ResumeSession?)
    ensures Balanced(c, Apply(cfg, h, s), TallyStep(cfg, h, s, y))
  {
    assert OpenCounts(Apply(cfg, h, s)) == OpenCounts(h);
  }

  lemma LeaveStepBalanced(c: Account, cfg: Config, h: Hub, s: Step, y: Tally)
    requires Balanced(c, h, y) && s.LeaveCall?
    ensures Balanced(c, Apply(cfg, h, s), TallyStep(cfg, h, s, y))
  {
    if IsOpen(h, PrincipalKey(s.principal), s.slot) {
      LeaveBalanced(c, h, PrincipalKey(s.principal), s.slot, s.outcome, y);
    }
  }

  lemma StepBalanced(c: Account, cfg: Config, h: Hub, s: Step, y: Tally)
    requires HubInv(cfg, h) && Balanced(c, h, y)
    ensures Balanced(c, Apply(cfg, h, s), TallyStep(cfg, h, s, y))
  {
    match s
    case EnterCall(r) => EnterBalanced(c, cfg, h, r, y);
    case LeaveCall(_, _, _) => LeaveStepBalanced(c, cfg, h, s, y);
    case HaltSession(session, operator, reason) => HaltStepBalanced(c, cfg, h, s, y);
    case ResumeSession(session, operator, reason) => HaltStepBalanced(c, cfg, h, s, y);
  }

  /** In every reachable state, mid-run ones included, all six accounts balance. */
  lemma {:induction false} LedgerBalancesInEveryRun(c: Account, cfg: Config, steps: seq<Step>)
    ensures Balanced(c, Run(cfg, EMPTY_HUB, steps), RunTally(cfg, steps))
  {
    if steps == [] {
      assert Totals(EMPTY_HUB.budgets) == map[];
      assert OpenCounts(EMPTY_HUB) == map[];
    } else {
      var n := |steps| - 1;
      LedgerBalancesInEveryRun(c, cfg, steps[..n]);
      RunKeepsInv(cfg, EMPTY_HUB, steps[..n]);
      StepBalanced(c, cfg, Run(cfg, EMPTY_HUB, steps[..n]), steps[n], RunTally(cfg, steps[..n]));
    }
  }

  /** A run is complete when no executor is running any more. */
  ghost predicate Complete(h: Hub) {
    forall key :: key in h.budgets ==> OpenOf(h, key) == []
  }

  lemma {:induction false} SumOfZeros(m: map<string, nat>)
    requires forall key :: key in m ==> m[key] == 0
    ensures SumValues(m) == 0
    decreases |m|
  {
    if m != map[] {
      var k :| k in m;
      SumValuesSplit(m, k);
      SumOfZeros(m - {k});
    }
  }

  lemma ReportFromAccounts(a: seq<Artifact>, y: Tally, admitted: int, running: int)
    requires forall c: Account :: Balance(c, a) == Expected(c, y, admitted, running)
    ensures Explains(Summary(a), Count(a, IsStats), Count(a, IsSummary), y, admitted, running)
  {
    AccountsAreCounts(a);
    assert Expected(Decided, y, admitted, running) == y.calls - y.gateEscapes;
    assert Expected(Awaiting, y, admitted, running) == y.handlerEscapes;
    assert Expected(Unlogged, y, admitted, running) == y.aborts;
    assert Balance(Unanswered, a) == running + y.aborts + y.handlerEscapes;
  }

  /** Every count of the report, in terms of the calls made, the exceptions let out, the calls the
      trackers admitted and those still running. */
  predicate Explains(s: Report, stats: int, summaries: int, y: Tally, admitted: int, running: int) {
    && s.totalRequests == y.calls - y.gateEscapes
    && s.totalRequests == s.allowed + s.denied + s.approvalRequests + y.handlerEscapes
    && s.allowed + s.approved == admitted
    && stats == admitted - running
    && s.toolCalls == admitted - running - y.aborts
    && summaries == s.totalRequests - running - y.aborts - y.handlerEscapes
  }

  ghost predicate Reported(h: Hub, y: Tally) {
    Explains(Summary(h.artifacts), Count(h.artifacts, IsStats), Count(h.artifacts, IsSummary), y,
             SumValues(Totals(h.budgets)), SumValues(OpenCounts(h)))
  }

  /** In every reachable state. */
  lemma ReportInEveryRun(cfg: Config, steps: seq<Step>)
    ensures Reported(Run(cfg, EMPTY_HUB, steps), RunTally(cfg, steps))
  {
    var h, y := Run(cfg, EMPTY_HUB, steps), RunTally(cfg, steps);
    var admitted, running := SumValues(Totals(h.budgets)), SumValues(OpenCounts(h));
    forall c: Account ensures Balance(c, h.artifacts) == Expected(c, y, admitted, running) {
      LedgerBalancesInEveryRun(c, cfg, steps);
    }
    ReportFromAccounts(h.artifacts, y, admitted, running);
  }

  /** A required approval is asked for, and its handler raises. */
  predicate HandlerEscapes(cfg: Config, t: Tracker, r: Request) {
    && r.tool in cfg.policy.approvalTools && r.tool !in cfg.policy.deniedTools
    && (r.gate.NoGate? || r.gate.Accepts?)
    && Refusal(t, r.tool, cfg.CategoryOf(r.tool), r.at).None?
    && r.handler.HandlerRaises?
  }

  /** Exactly when an exception of the gate or the handler leaves `governed_call`, from what is known
      before it: the session is not halted, and either the gate raises for a tool the policy does not
      deny, or the tool needs an approval, nothing objects, and the handler raises. */
  predicate CallEscapes(cfg: Config, h: Hub, r: Request) {
    var key := PrincipalKey(r.principal);
    && HaltFor(cfg, h, r).None?
    && (GateEscapes(cfg, r) || HandlerEscapes(cfg, WithBudget(cfg, h, key, r.at).budgets[key], r))
  }

  lemma EscapesExactlyWhen(cfg: Config, h: Hub, r: Request)
    ensures Enter(cfg, h, r).1.Escaped? <==> CallEscapes(cfg, h, r)
  {
  }

  /** The step lets an exception out: a call that escapes, or an executor that ends with one that is
      not an `Exception`. */
  predicate StepEscapes(cfg: Config, h: Hub, s: Step) {
    match s
    case EnterCall(r) => CallEscapes(cfg, h, r)
    case LeaveCall(p, slot, outcome) => IsOpen(h, PrincipalKey(p), slot) && outcome.Aborts?
    case HaltSession(_, _, _) => false
    case ResumeSession(_, _, _) => false
  }

  ghost predicate NothingEscapes(cfg: Config, steps: seq<Step>) {
    forall i :: 0 <= i < |steps| ==> !StepEscapes(cfg, Run(cfg, EMPTY_HUB, steps[..i]), steps[i])
  }

  lemma StepTalliesEscapes(cfg: Config, h: Hub, s: Step, y: Tally)
    ensures Escapes(TallyStep(cfg, h, s, y)) == Escapes(y) + (if StepEscapes(cfg, h, s) then 1 else 0)
  {
    if s.EnterCall? {
      EscapesExactlyWhen(cfg, h, s.request);
    }
  }

  lemma NothingEscapesPush(cfg: Config, before: seq<Step>, s: Step)
    ensures NothingEscapes(cfg, before + [s])
       <==> NothingEscapes(cfg, before) && !StepEscapes(cfg, Run(cfg, EMPTY_HUB, before), s)
  {
    var steps := before + [s];
    assert steps[..|before|] == before && steps[|before|] == s;
    if NothingEscapes(cfg, steps) {
      forall i | 0 <= i < |before| ensures !StepEscapes(cfg, Run(cfg, EMPTY_HUB, before[..i]), before[i]) {
        assert steps[..i] == before[..i] && steps[i] == before[i];
      }
    }
    if NothingEscapes(cfg, before) && !StepEscapes(cfg, Run(cfg, EMPTY_HUB, before), s) {
      forall i | 0 <= i < |steps| ensures !StepEscapes(cfg, Run(cfg, EMPTY_HUB, steps[..i]), steps[i]) {
        if i < |before| {
          assert steps[..i] == before[..i] && steps[i] == before[i];
        }
      }
    }
  }

  function Escapes(y: Tally): nat { y.gateEscapes + y.handlerEscapes + y.aborts }

  lemma {:induction false} TalliesCountEscapes(cfg: Config, steps: seq<Step>)
    ensures Escapes(RunTally(cfg, steps)) == 0 <==> NothingEscapes(cfg, steps)
  {
    if steps != [] {
      var n := |steps| - 1;
      var before := steps[..n];
      TalliesCountEscapes(cfg, before);
      StepTalliesEscapes(cfg, Run(cfg, EMPTY_HUB, before), steps[n], RunTally(cfg, before));
      NothingEscapesPush(cfg, before, steps[n]);
      assert before + [steps[n]] == steps;
    }
  }

  /** Every call is decided, answered and counted, in agreement with the trackers. */
  predicate Tells(s: Report, stats: int, summaries: int, calls: int, admitted: int) {
    && s.totalRequests == s.allowed + s.denied + s.approvalRequests
    && s.totalRequests == calls == summaries
    && s.toolCalls == s.allowed + s.approved == stats == admitted
  }

  lemma TellsExactly(s: Report, stats: int, summaries: int, y: Tally, admitted: int)
    requires Explains(s, stats, summaries, y, admitted, 0)
    ensures s.allowed + s.approved == stats == admitted
    ensures Tells(s, stats, summaries, y.calls, admitted) <==> Escapes(y) == 0
  {
  }

  /** What the report says of admitted calls is what the trackers say. */
  ghost predicate AdmittedAgree(h: Hub) {
    var s := Summary(h.artifacts);
    s.allowed + s.approved == Count(h.artifacts, IsStats) == SumValues(Totals(h.budgets))
  }

  ghost predicate Agrees(h: Hub, y: Tally) {
    Tells(Summary(h.artifacts), Count(h.artifacts, IsStats), Count(h.artifacts, IsSummary), y.calls,
          SumValues(Totals(h.budgets)))
  }

  lemma AgreesExactly(h: Hub, y: Tally)
    requires Reported(h, y) && SumValues(OpenCounts(h)) == 0
    ensures AdmittedAgree(h) && (Agrees(h, y) <==> Escapes(y) == 0)
  {
    TellsExactly(Summary(h.artifacts), Count(h.artifacts, IsStats), Count(h.artifacts, IsSummary), y,
                 SumValues(Totals(h.budgets)));
  }

  /** The report of a run and its live state tell the same story. */
  ghost predicate ReportAgrees(cfg: Config, steps: seq<Step>) {
    Agrees(Run(cfg, EMPTY_HUB, steps), RunTally(cfg, steps))
  }

  lemma ReportAgreesExactlyWithoutTallies(cfg: Config, steps: seq<Step>)
    requires Complete(Run(cfg, EMPTY_HUB, steps))
    ensures AdmittedAgree(Run(cfg, EMPTY_HUB, steps))
    ensures ReportAgrees(cfg, steps) <==> Escapes(RunTally(cfg, steps)) == 0
  {
    ReportInEveryRun(cfg, steps);
    SumOfZeros(OpenCounts(Run(cfg, EMPTY_HUB, steps)));
    AgreesExactly(Run(cfg, EMPTY_HUB, steps), RunTally(cfg, steps));
  }

  /** In a completed run the report agrees with the live state exactly when no step let an exception
      out; the admitted calls, their budget artifacts and the trackers agree in any case. */
  lemma ReportAgreesExactlyWithoutEscapes(cfg: Config, steps: seq<Step>)
    requires Complete(Run(cfg, EMPTY_HUB, steps))
    ensures AdmittedAgree(Run(cfg, EMPTY_HUB, steps))
    ensures ReportAgrees(cfg, steps) <==> NothingEscapes(cfg, steps)
  {
    ReportAgreesExactlyWithoutTallies(cfg, steps);
    TalliesCountEscapes(cfg, steps);
  }

  /** No gate or handler of the run raises, and no executor aborts. */
  predicate NeverRaise(steps: seq<Step>) {
    forall i :: 0 <= i < |steps| ==>
      match steps[i]
      case EnterCall(r) => !r.gate.GateRaises? && !r.handler.HandlerRaises?
      case LeaveCall(_, _, outcome) => !outcome.Aborts?
      case _ => true
  }

  /** Well-behaved gates, handlers and executors are enough. */
  lemma ReportAgreesWhenNothingRaises(cfg: Config, steps: seq<Step>)
    requires Complete(Run(cfg, EMPTY_HUB, steps)) && NeverRaise(steps)
    ensures ReportAgrees(cfg, steps)
  {
    ReportAgreesExactlyWithoutEscapes(cfg, steps);
  }

  lemma EscapedGateIsSilent(cfg: Config, h: Hub, r: Request)
    requires HaltFor(cfg, h, r).None? && GateEscapes(cfg, r)
    ensures var (after, answer) := Enter(cfg, h, r);
            after.artifacts == h.artifacts && after.open == h.open && answer == Escaped
  {
  }

  /** A single call whose gate raises: made, but in no count of the report. */
  lemma RaisingGateHidesACall(cfg: Config, r: Request)
    requires r.gate.GateRaises? && r.tool in cfg.policy.allowedTools
    requires r.tool !in cfg.policy.deniedTools && r.tool !in cfg.policy.approvalTools
    ensures var h := Run(cfg, EMPTY_HUB, [EnterCall(r)]);
            && Complete(h) && RunTally(cfg, [EnterCall(r)]).calls == 1
            && Summary(h.artifacts).totalRequests == 0 && !ReportAgrees(cfg, [EnterCall(r)])
  {
    assert GateEscapes(cfg, r);
    EscapedGateIsSilent(cfg, EMPTY_HUB, r);
    OneCallTally(cfg, r);
    RunOne(cfg, EMPTY_HUB, EnterCall(r));
    var h := Run(cfg, EMPTY_HUB, [EnterCall(r)]);
    assert h.artifacts == [] && h.open == map[];
    assert Summary(h.artifacts).totalRequests == 0;
  }

  lemma OneCallTally(cfg: Config, r: Request)
    ensures RunTally(cfg, [EnterCall(r)]).calls == 1
  {
    var steps := [EnterCall(r)];
    assert steps[..|steps| - 1] == [];
    assert RunTally(cfg, []) == NO_TALLY;
  }

  /** In any state the decisions that have no result summary are the calls whose executor is running,
      those whose handler raised, and those whose executor aborted. */
  lemma OpenCallsAreTheMissingSummaries(cfg: Config, steps: seq<Step>)
    ensures var h := Run(cfg, EMPTY_HUB, steps);
            var y := RunTally(cfg, steps);
            Count(h.artifacts, IsDecision) - Count(h.artifacts, IsSummary)
            == SumValues(OpenCounts(h)) + y.handlerEscapes + y.aborts
  {
    ReportInEveryRun(cfg, steps);
  }

  /** Calls with nested calls always run to completion, so the agreement above applies to every
      sequence of governed calls, whatever their executors do in between. */
  lemma NestedCallsComplete(cfg: Config, acts: seq<Act>)
    ensures Complete(PerformAll(cfg, EMPTY_HUB, acts)) && AdmittedAgree(PerformAll(cfg, EMPTY_HUB, acts))
  {
    ActsRestoreOpen(cfg, EMPTY_HUB, acts);
    assert forall key :: OpenOf(EMPTY_HUB, key) == [];
    ReportAgreesExactlyWithoutTallies(cfg, FlattenAll(cfg, EMPTY_HUB, acts));
  }

  // ---------------------------------------------------------------- the budget snapshot

  /** Every call of the run is made by the same principal. */
  predicate OnePrincipal(steps: seq<Step>, key: string) {
    forall i :: 0 <= i < |steps| ==>
      match steps[i]
      case EnterCall(r) => PrincipalKey(r.principal) == key
      case LeaveCall(p, _, _) => PrincipalKey(p) == key
      case _ => true
  }

  lemma {:induction false} SnapshotPush(s: seq<Artifact>, t: seq<Artifact>)
    requires forall i :: 0 <= i < |t| ==> !t[i].BudgetStats?
    ensures BudgetSnapshot(s + t) == BudgetSnapshot(s)
  {
    if t == [] {
      assert s + t == s;
    } else {
      assert (s + t)[..|s + t| - 1] == s + t[..|t| - 1];
      SnapshotPush(s, t[..|t| - 1]);
    }
  }

  /** While nothing runs, the last budget artifact is the tracker's current state, or the tracker is untouched. */
  ghost predicate SnapshotCurrent(h: Hub, key: string) {
    && h.budgets.Keys <= {key}
    && (key in h.budgets && OpenOf(h, key) == [] ==>
        match BudgetSnapshot(h.artifacts)
        case Some(stats) => stats == StatsOf(h.budgets[key])
        case None => h.budgets[key].total == 0)
    && (key !in h.budgets ==> BudgetSnapshot(h.artifacts).None?)
  }

  lemma EnterKeepsSnapshot(cfg: Config, h: Hub, r: Request)
    requires HubInv(cfg, h) && SnapshotCurrent(h, PrincipalKey(r.principal))
    ensures SnapshotCurrent(Enter(cfg, h, r).0, PrincipalKey(r.principal))
  {
    var key := PrincipalKey(r.principal);
    var g := WithBudget(cfg, h, key, r.at);
    var (entries, answer) := Decide(cfg, g, r);
    SnapshotPush(h.artifacts, entries);
  }

  lemma LeaveKeepsSnapshot(cfg: Config, h: Hub, key: string, slot: nat, outcome: Outcome)
    requires IsOpen(h, key, slot) && SnapshotCurrent(h, key)
    ensures SnapshotCurrent(Leave(h, key, slot, outcome), key)
  {
    var g := Leave(h, key, slot, outcome);
    assert g.artifacts[|g.artifacts| - 1].BudgetStats?;
  }

  lemma {:induction false} SnapshotInEveryRun(cfg: Config, steps: seq<Step>, key: string)
    requires OnePrincipal(steps, key)
    ensures SnapshotCurrent(Run(cfg, EMPTY_HUB, steps), key)
  {
    if steps != [] {
      var n := |steps| - 1;
      assert OnePrincipal(steps[..n], key);
      SnapshotInEveryRun(cfg, steps[..n], key);
      RunKeepsInv(cfg, EMPTY_HUB, steps[..n]);
      var h := Run(cfg, EMPTY_HUB, steps[..n]);
      assert match steps[n]
        case EnterCall(r) => PrincipalKey(r.principal) == key
        case LeaveCall(p, _, _) => PrincipalKey(p) == key
        case _ => true;
      match steps[n]
      case EnterCall(r) => EnterKeepsSnapshot(cfg, h, r);
      case LeaveCall(p, slot, outcome) =>
        if IsOpen(h, key, slot) {
          LeaveKeepsSnapshot(cfg, h, key, slot, outcome);
        }
      case HaltSession(_, _, _) =>
      case ResumeSession(_, _, _) =>
    }
  }

  /** With a single tracker and no call running, `budget_snapshot` shows the tracker's counters and
      flags as they are now, however many denials came after the last executor. */
  lemma SnapshotShowsTheTracker(cfg: Config, steps: seq<Step>, key: string)
    requires OnePrincipal(steps, key) && Complete(Run(cfg, EMPTY_HUB, steps))
    requires key in Run(cfg, EMPTY_HUB, steps).budgets
    ensures var h := Run(cfg, EMPTY_HUB, steps);
            var t, snapshot := h.budgets[key], BudgetSnapshot(h.artifacts);
            if t.total == 0 then snapshot.None?
            else
              && snapshot.Some?
              && snapshot.value.total == t.total && snapshot.value.perTool == t.perTool
              && snapshot.value.inFlight == t.inFlight && snapshot.value.limits == t.limits
              && snapshot.value.connectionSeen == t.connectionSeen && snapshot.value.executionSeen == t.executionSeen
  {
    SnapshotInEveryRun(cfg, steps, key);
    LedgerBalancesInEveryRun(Finished, cfg, steps);
    var h := Run(cfg, EMPTY_HUB, steps);
    AccountsAreCounts(h.artifacts);
    if h.budgets[key].total == 0 {
      assert Totals(h.budgets) == map[key := 0];
      SumValuesOne(key, 0 as nat);
      NoStatsNoSnapshot(h.artifacts);
    }
  }

  lemma {:induction false} NoStatsNoSnapshot(artifacts: seq<Artifact>)
    requires Count(artifacts, IsStats) == 0
    ensures BudgetSnapshot(artifacts).None?
  {
    if artifacts != [] {
      NoStatsNoSnapshot(artifacts[..|artifacts| - 1]);
    }
  }
}
