/**
 What the log and the report say, read off what the callers were told: the answer each call got and how
 each executor ended.
 */
module GovernorLog {
  import opened Collections
  import opened Governor
  import opened GovernorRuns
  import opened GovernorReport

  /** What is counted: the six numbers of the report, and the result summaries by their status. */
  datatype Line = Requests | AllowedAtOnce | DeniedAtOnce | ApprovalsAsked | ApprovalsGiven | ToolCalls
                | Okays | Errors | Refusals | Halts

  /** The entry counts towards this line. */
  predicate CountsFor(line: Line, a: Artifact) {
    match line
    case Requests => IsDecision(a)
    case AllowedAtOnce => IsAllow(a)
    case DeniedAtOnce => IsDeny(a)
    case ApprovalsAsked => IsApprovalLog(a)
    case ApprovalsGiven => IsApproved(a)
    case ToolCalls => IsToolCall(a)
    case Okays => a.ResultSummary? && a.status == OkStatus
    case Errors => a.ResultSummary? && a.status == ErrorStatus
    case Refusals => a.ResultSummary? && a.status == DeniedStatus
    case Halts => a.ResultSummary? && a.status == HaltedStatus
  }

  function Entries(line: Line, artifacts: seq<Artifact>): nat {
    if artifacts == [] then 0
    else Entries(line, artifacts[..|artifacts| - 1]) + (if CountsFor(line, artifacts[|artifacts| - 1]) then 1 else 0)
  }

  // ---------------------------------------------------------------- what should stand there

  /** What a call counts towards, from the answer to it: an approval that was given is not an allowed
      request, one that was refused not a denied request, and an exception of the gate leaves nothing. */
  predicate CallCounts(line: Line, cfg: Config, r: Request, answer: Answer) {
    var onApproval := r.tool in cfg.policy.approvalTools;
    match line
    case Requests => !(answer.Escaped? && r.gate.GateRaises?)
    case AllowedAtOnce => answer.Executing? && !onApproval
    case DeniedAtOnce => answer.Denied? && !answer.reason.ApprovalDenied?
    case ApprovalsAsked => (answer.Executing? && onApproval) || (answer.Denied? && answer.reason.ApprovalDenied?)
    case ApprovalsGiven => answer.Executing? && onApproval
    case Refusals => answer.Denied? && !answer.reason.SessionHalted?
    case Halts => answer.Denied? && answer.reason.SessionHalted?
    case _ => false
  }

  /** What an executor's end counts towards. */
  predicate EndCounts(line: Line, outcome: Outcome) {
    match line
    case ToolCalls => outcome.Returns? || outcome.Raises?
    case Okays => outcome.Returns?
    case Errors => outcome.Raises?
    case _ => false
  }

  predicate StepCounts(line: Line, cfg: Config, h: Hub, s: Step) {
    match s
    case EnterCall(r) => CallCounts(line, cfg, r, Enter(cfg, h, r).1)
    case LeaveCall(p, slot, outcome) => IsOpen(h, PrincipalKey(p), slot) && EndCounts(line, outcome)
    case HaltSession(_, _, _) => false
    case ResumeSession(_, _, _) => false
  }

  function Told(line: Line, cfg: Config, steps: seq<Step>): nat {
    if steps == [] then 0
    else
      var before := steps[..|steps| - 1];
      Told(line, cfg, before) + (if StepCounts(line, cfg, Run(cfg, EMPTY_HUB, before), steps[|steps| - 1]) then 1 else 0)
  }

  // ---------------------------------------------------------------- the two agree

  lemma {:induction false} EntriesAppend(line: Line, s: seq<Artifact>, t: seq<Artifact>)
    ensures Entries(line, s + t) == Entries(line, s) + Entries(line, t)
  {
    if t == [] {
      assert s + t == s;
    } else {
      assert (s + t)[..|s + t| - 1] == s + t[..|t| - 1];
      EntriesAppend(line, s, t[..|t| - 1]);
    }
  }

  lemma {:induction false} EntriesShort(line: Line, t: seq<Artifact>)
    requires |t| <= 4
    ensures Entries(line, t) == (if |t| > 0 && CountsFor(line, t[0]) then 1 else 0) + (if |t| > 1 && CountsFor(line, t[1]) then 1 else 0)
                              + (if |t| > 2 && CountsFor(line, t[2]) then 1 else 0) + (if |t| > 3 && CountsFor(line, t[3]) then 1 else 0)
  {
    if t != [] {
      EntriesShort(line, t[..|t| - 1]);
    }
  }

  lemma RulingEntries(line: Line, cfg: Config, r: Request, decision: Decision, reason: Reason, stats: Stats)
    requires decision == ApprovalRequired <==> r.tool in cfg.policy.approvalTools && decision != Deny
    requires decision == Deny ==> !reason.ApprovalDenied? && !reason.SessionHalted?
    requires r.gate.GateRaises? ==> decision == Deny
    ensures var (entries, answer) := AfterRuling(r, cfg.CategoryOf(r.tool), decision, reason, stats);
            Entries(line, entries) == if CallCounts(line, cfg, r, answer) then 1 else 0
  {
    EntriesShort(line, AfterRuling(r, cfg.CategoryOf(r.tool), decision, reason, stats).0);
  }

  lemma DecisionEntries(line: Line, cfg: Config, h: Hub, r: Request)
    requires PrincipalKey(r.principal) in h.budgets
    ensures var (entries, answer) := Decide(cfg, h, r);
            Entries(line, entries) == if CallCounts(line, cfg, r, answer) then 1 else 0
  {
    if HaltFor(cfg, h, r).Some? || GateEscapes(cfg, r) {
      EntriesShort(line, Decide(cfg, h, r).0);
    } else {
      var t := h.budgets[PrincipalKey(r.principal)];
      var (decision, reason) := Ruling(cfg, t, r);
      RulingIsOrdinary(cfg, t, r);
      RulingEntries(line, cfg, r, decision, reason, StatsOf(t));
    }
  }

  lemma RulingIsOrdinary(cfg: Config, t: Tracker, r: Request)
    requires !GateEscapes(cfg, r)
    ensures var (decision, reason) := Ruling(cfg, t, r);
            && (decision == ApprovalRequired <==> r.tool in cfg.policy.approvalTools && decision != Deny)
            && (decision == Deny ==> !reason.ApprovalDenied? && !reason.SessionHalted?)
            && (r.gate.GateRaises? ==> decision == Deny)
  {
  }

  lemma EnterWrites(line: Line, cfg: Config, h: Hub, r: Request)
    ensures var (g, answer) := Enter(cfg, h, r);
            Entries(line, g.artifacts) == Entries(line, h.artifacts) + (if CallCounts(line, cfg, r, answer) then 1 else 0)
  {
    var g := WithBudget(cfg, h, PrincipalKey(r.principal), r.at);
    var (entries, answer) := Decide(cfg, g, r);
    assert Enter(cfg, h, r).0.artifacts == h.artifacts + entries && Enter(cfg, h, r).1 == answer;
    DecisionEntries(line, cfg, g, r);
    EntriesAppend(line, h.artifacts, entries);
  }

  lemma OutcomeEntries(line: Line, c: OpenCall, outcome: Outcome, stats: Stats)
    ensures Entries(line, OutcomeLog(c, outcome) + [BudgetStats(c.id, c.tool, stats)])
         == if EndCounts(line, outcome) then 1 else 0
  {
    EntriesShort(line, OutcomeLog(c, outcome) + [BudgetStats(c.id, c.tool, stats)]);
  }

  lemma EndWrites(line: Line, h: Hub, key: string, slot: nat, outcome: Outcome)
    requires IsOpen(h, key, slot)
    ensures Entries(line, Leave(h, key, slot, outcome).artifacts)
         == Entries(line, h.artifacts) + (if EndCounts(line, outcome) then 1 else 0)
  {
    var c, stats := OpenOf(h, key)[slot], StatsOf(Released(h.budgets[key]));
    var entries := OutcomeLog(c, outcome) + [BudgetStats(c.id, c.tool, stats)];
    OutcomeEntries(line, c, outcome, stats);
    EntriesAppend(line, h.artifacts, entries);
    assert Leave(h, key, slot, outcome).artifacts == h.artifacts + entries;
  }

  lemma StepWrites(line: Line, cfg: Config, h: Hub, s: Step)
    ensures Entries(line, Apply(cfg, h, s).artifacts)
         == Entries(line, h.artifacts) + (if StepCounts(line, cfg, h, s) then 1 else 0)
  {
    match s
    case EnterCall(r) => EnterWrites(line, cfg, h, r);
    case LeaveCall(p, slot, outcome) =>
      if IsOpen(h, PrincipalKey(p), slot) {
        EndWrites(line, h, PrincipalKey(p), slot, outcome);
      }
    case HaltSession(_, _, _) =>
    case ResumeSession(_, _, _) =>
  }

  lemma {:induction false} EntriesReadTheAnswers(line: Line, cfg: Config, steps: seq<Step>)
    ensures Entries(line, Run(cfg, EMPTY_HUB, steps).artifacts) == Told(line, cfg, steps)
  {
    if steps != [] {
      var before := steps[..|steps| - 1];
      EntriesReadTheAnswers(line, cfg, before);
      StepWrites(line, cfg, Run(cfg, EMPTY_HUB, before), steps[|steps| - 1]);
    }
  }

  lemma {:induction false} SummaryCountsEntries(a: seq<Artifact>)
    ensures Summary(a) == Report(Entries(Requests, a), Entries(AllowedAtOnce, a), Entries(DeniedAtOnce, a),
                                 Entries(ApprovalsAsked, a), Entries(ApprovalsGiven, a), Entries(ToolCalls, a))
  {
    if a != [] {
      SummaryCountsEntries(a[..|a| - 1]);
    }
  }

  /** In every run each number of the report, and each number of summaries of one status, is the number of
      answers and ends of its kind. */
  lemma ReportReadsTheAnswers(cfg: Config, steps: seq<Step>)
    ensures var s := Summary(Run(cfg, EMPTY_HUB, steps).artifacts);
            && s.totalRequests == Told(Requests, cfg, steps)
            && s.allowed == Told(AllowedAtOnce, cfg, steps)
            && s.denied == Told(DeniedAtOnce, cfg, steps)
            && s.approvalRequests == Told(ApprovalsAsked, cfg, steps)
            && s.approved == Told(ApprovalsGiven, cfg, steps)
            && s.toolCalls == Told(ToolCalls, cfg, steps)
    ensures forall line :: Entries(line, Run(cfg, EMPTY_HUB, steps).artifacts) == Told(line, cfg, steps)
  {
    SummaryCountsEntries(Run(cfg, EMPTY_HUB, steps).artifacts);
    forall line ensures Entries(line, Run(cfg, EMPTY_HUB, steps).artifacts) == Told(line, cfg, steps) {
      EntriesReadTheAnswers(line, cfg, steps);
    }
  }

  // ---------------------------------------------------------------- what an entry says

  function IdOf(a: Artifact): string { a.id }
  function ToolOf(a: Artifact): string { a.tool }

  /** These entries tell of this answer: all carry the call's id and tool, and only an exception of the gate
      leaves none. The single ruling comes first, with the category of the tool and, if the call is denied
      without anybody being asked, the reason that is answered; an approval is asked for the reason ruled. */
  predicate TellOf(entries: seq<Artifact>, cfg: Config, r: Request, answer: Answer) {
    && (forall a :: a in entries ==> IdOf(a) == r.id && ToolOf(a) == r.tool)
    && (entries == [] <==> answer.Escaped? && r.gate.GateRaises?)
    && (entries != [] ==> RuledFirst(entries, cfg, r, answer))
  }

  predicate RuledFirst(entries: seq<Artifact>, cfg: Config, r: Request, answer: Answer)
    requires entries != []
  {
    var ruling := entries[0];
    && ruling.PolicyDecision? && ruling.category == cfg.CategoryOf(r.tool)
    && (forall a :: a in entries && a.PolicyDecision? ==> a == ruling)
    && (forall a :: a in entries && (a.ApprovalRequest? || a.ApprovalLog?) ==> a.reason == ruling.reason)
    && (answer.Denied? && !answer.reason.ApprovalDenied? ==> ruling.decision == Deny && ruling.reason == answer.reason)
    && (answer.Denied? && answer.reason.ApprovalDenied? ==> ruling.decision == ApprovalRequired && ruling.reason == answer.reason.of)
    && (answer.Denied? && answer.reason.SessionHalted? <==> ruling.budget.None?)
  }

  lemma RulingTells(cfg: Config, r: Request, decision: Decision, reason: Reason, stats: Stats)
    requires decision == Deny ==> !reason.ApprovalDenied? && !reason.SessionHalted?
    requires r.gate.GateRaises? ==> decision == Deny
    ensures var (entries, answer) := AfterRuling(r, cfg.CategoryOf(r.tool), decision, reason, stats);
            TellOf(entries, cfg, r, answer)
  {
  }

  lemma DecisionTells(cfg: Config, h: Hub, r: Request)
    requires BilledTracker(h, r)
    ensures var (entries, answer) := Decide(cfg, h, r); TellOf(entries, cfg, r, answer)
  {
    if HaltFor(cfg, h, r).None? && !GateEscapes(cfg, r) {
      var t := h.budgets[PrincipalKey(r.principal)];
      var (decision, reason) := Ruling(cfg, t, r);
      RulingIsOrdinary(cfg, t, r);
      RulingTells(cfg, r, decision, reason, StatsOf(t));
    }
  }

  predicate BilledTracker(h: Hub, r: Request) { PrincipalKey(r.principal) in h.budgets }

  /** What a call writes before its executor. */
  lemma CallWritesItsAnswer(cfg: Config, h: Hub, r: Request)
    ensures var (g, answer) := Enter(cfg, h, r);
            h.artifacts <= g.artifacts && TellOf(g.artifacts[|h.artifacts|..], cfg, r, answer)
  {
    var g := WithBudget(cfg, h, PrincipalKey(r.principal), r.at);
    var (entries, answer) := Decide(cfg, g, r);
    DecisionTells(cfg, g, r);
    assert Enter(cfg, h, r).0.artifacts == h.artifacts + entries && Enter(cfg, h, r).1 == answer;
    assert (h.artifacts + entries)[|h.artifacts|..] == entries;
  }

  /** The counters and flags are those of the tracker. */
  predicate Shows(b: Stats, t: Tracker) {
    && b.total == t.total && b.perTool == t.perTool && b.inFlight == t.inFlight && b.limits == t.limits
    && b.connectionSeen == t.connectionSeen && b.executionSeen == t.executionSeen
  }

  /** Which counters the ruling carries. */
  lemma RulingShowsTheBudget(cfg: Config, h: Hub, r: Request)
    requires PrincipalKey(r.principal) in h.budgets
    ensures var t := h.budgets[PrincipalKey(r.principal)];
            forall a :: a in Enter(cfg, h, r).0.artifacts[|h.artifacts|..] && a.PolicyDecision? && a.budget.Some? ==>
              Shows(a.budget.value, t)
  {
    var (entries, answer) := Decide(cfg, h, r);
    assert Enter(cfg, h, r).0.artifacts == h.artifacts + entries;
    assert (h.artifacts + entries)[|h.artifacts|..] == entries;
  }

  /** What a call writes when it ends carries its id and tool and, unless it aborts, how it ended; the
      counters come last, after the slot is given back. */
  lemma EndWritesItsOutcome(h: Hub, key: string, slot: nat, outcome: Outcome)
    requires IsOpen(h, key, slot)
    ensures var g, c := Leave(h, key, slot, outcome), OpenOf(h, key)[slot];
            var entries := g.artifacts[|h.artifacts|..];
            && h.artifacts <= g.artifacts && entries != []
            && (forall a :: a in entries ==> IdOf(a) == c.id && ToolOf(a) == c.tool)
            && (forall a :: a in entries && a.ToolCallLog? ==> a.outcome == outcome)
            && entries[|entries| - 1].BudgetStats? && Shows(entries[|entries| - 1].stats, g.budgets[key])
  {
    var c := OpenOf(h, key)[slot];
    var entries := OutcomeLog(c, outcome) + [BudgetStats(c.id, c.tool, StatsOf(Released(h.budgets[key])))];
    assert Leave(h, key, slot, outcome).artifacts == h.artifacts + entries;
    assert (h.artifacts + entries)[|h.artifacts|..] == entries;
  }

  /** A call that reaches its executor is logged with the rule that let it through. */
  lemma AllowedCallNamesItsRule(cfg: Config, h: Hub, r: Request)
    requires Enter(cfg, h, r).1.Executing?
    ensures var p, ruled := cfg.policy, Enter(cfg, h, r).0.artifacts[|h.artifacts|..];
            && ruled != [] && ruled[0].PolicyDecision?
            && ruled[0].decision == (if r.tool in p.approvalTools then ApprovalRequired else Allow)
            && ruled[0].reason == (if r.tool in p.approvalTools then NeedsApproval(r.tool)
                                   else if r.tool in p.allowedTools then InAllowList
                                   else if p.allowedCategories != {} then CategoryAllowed(cfg.CategoryOf(r.tool))
                                   else AllowedByDefault)
  {
    var g := WithBudget(cfg, h, PrincipalKey(r.principal), r.at);
    var (entries, answer) := Decide(cfg, g, r);
    assert Enter(cfg, h, r).0.artifacts == h.artifacts + entries;
    assert (h.artifacts + entries)[|h.artifacts|..] == entries;
  }
}
