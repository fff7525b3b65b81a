/**
 The governor as the program runs it: trackers and the halt registry are objects changed in place,
 the artifact list and the per-principal keyring belong to the server, and a call's executor may
 issue further calls before it ends. Every method is tied to the value-level steps of `Governor`.
 */
module ToolServer {
  import opened Collections
  import opened Governor
  import opened GovernorRuns

  class BudgetTracker {
    const limits: Limits
    const start: real
    var totalCalls: nat
    var perTool: map<string, nat>
    var inFlight: nat
    var connectionSeen: bool
    var executionSeen: bool

    ghost function View(): Tracker
      reads this
    {
      Tracker(limits, start, totalCalls, perTool, inFlight, connectionSeen, executionSeen)
    }

    constructor (limits: Limits, now: real)
      ensures View() == NewTracker(limits, now)
      ensures start == now && totalCalls == inFlight == 0 && perTool == map[] && !connectionSeen && !executionSeen
    {
      this.limits := limits;
      start := now;
      totalCalls := 0;
      perTool := map[];
      inFlight := 0;
      connectionSeen := false;
      executionSeen := false;
    }

    method CanAdmit(tool: string, category: Category, now: real) returns (ok: bool, why: Reason)
      ensures ok == Refusal(View(), tool, category, now).None?
      ensures !ok ==> Refusal(View(), tool, category, now) == Some(why)
    {
      why := AllowedByDefault;
      if limits.maxTotal != 0 && totalCalls >= limits.maxTotal {
        return false, TotalExhausted(limits.maxTotal);
      }
      var calls := if tool in perTool then perTool[tool] else 0;
      if limits.maxPerTool != 0 && calls >= limits.maxPerTool {
        return false, PerToolExhausted(tool);
      }
      if limits.maxRuntime != 0.0 && now - start >= limits.maxRuntime {
        return false, RuntimeExhausted(limits.maxRuntime);
      }
      if limits.maxParallel != 0 && inFlight >= limits.maxParallel {
        return false, ParallelCap(limits.maxParallel);
      }
      if limits.separate {
        if category == Execution && connectionSeen {
          return false, ConnectionThenExecution;
        }
        if category == Connection && executionSeen {
          return false, ExecutionThenConnection;
        }
      }
      return true, why;
    }

    method Acquire(tool: string, category: Category)
      modifies this
      ensures View() == Acquired(old(View()), tool, category)
    {
      totalCalls := totalCalls + 1;
      perTool := perTool[tool := (if tool in perTool then perTool[tool] else 0) + 1];
      inFlight := inFlight + 1;
      if category == Connection {
        connectionSeen := true;
      } else if category == Execution {
        executionSeen := true;
      }
    }

    method Release()
      modifies this
      ensures View() == Released(old(View()))
    {
      if inFlight > 0 {
        inFlight := inFlight - 1;
      }
    }

    method GetStats() returns (stats: Stats)
      ensures stats == StatsOf(View())
    {
      stats := Stats(totalCalls, perTool, inFlight, connectionSeen, executionSeen, limits);
    }
  }

  class AgentSupervisor {
    var records: map<string, HaltEntry>

    constructor ()
      ensures records == map[]
    {
      records := map[];
    }

    /** Idempotent for a session that is already halted: the first entry stays. */
    method HaltSession(session: string, operator: string, reason: string) returns (entry: HaltEntry)
      modifies this
      ensures records == Halted(old(records), session, operator, reason)
      ensures ActiveHalt(records, session) == Some(entry)
    {
      if session in records && !records[session].resumed {
        return records[session];
      }
      entry := HaltEntry(session, operator, reason, false, "", "");
      records := records[session := entry];
    }

    method ResumeSession(session: string, operator: string, reason: string) returns (entry: Option<HaltEntry>)
      modifies this
      ensures records == Resumed(old(records), session, operator, reason)
      ensures entry.Some? <==> ActiveHalt(old(records), session).Some?
      ensures entry.Some? ==> session in records && entry.value == records[session] && entry.value.resumed
      ensures ActiveHalt(records, session).None?
    {
      if session !in records || records[session].resumed {
        return None;
      }
      var lifted := records[session].(resumed := true, resumedBy := operator, resumeReason := reason);
      records := records[session := lifted];
      entry := Some(lifted);
    }

    method IsHalted(session: string) returns (entry: Option<HaltEntry>)
      ensures entry == ActiveHalt(records, session)
    {
      if session !in records || records[session].resumed {
        return None;
      }
      return Some(records[session]);
    }

    /** The entries are those of `sessions`: each session that is halted now, once, and no other. */
    ghost predicate ListsActive(active: seq<HaltEntry>, sessions: seq<string>)
      reads this
    {
      && |active| == |sessions|
      && (forall i :: 0 <= i < |active| ==> ActiveHalt(records, sessions[i]) == Some(active[i]))
      && (forall i, j :: 0 <= i < j < |sessions| ==> sessions[i] != sessions[j])
      && (forall session :: ActiveHalt(records, session).Some? ==> session in sessions)
    }

    /** One entry for each session that is halted now, and nothing else. */
    method AllActive() returns (active: seq<HaltEntry>)
      ensures exists sessions :: ListsActive(active, sessions)
    {
      active := [];
      ghost var sessions: seq<string> := [];
      var todo := records.Keys;
      while todo != {}
        invariant todo <= records.Keys && |active| == |sessions|
        invariant forall i :: 0 <= i < |active| ==> ActiveHalt(records, sessions[i]) == Some(active[i])
        invariant forall i :: 0 <= i < |sessions| ==> sessions[i] !in todo
        invariant forall i, j :: 0 <= i < j < |sessions| ==> sessions[i] != sessions[j]
        invariant forall session :: session !in todo && ActiveHalt(records, session).Some? ==> session in sessions
        decreases |todo|
      {
        var session :| session in todo;
        todo := todo - {session};
        if !records[session].resumed {
          active := active + [records[session]];
          sessions := sessions + [session];
        }
      }
      assert ListsActive(active, sessions);
    }
  }

  class Server {
    const cfg: Config
    const supervisor: AgentSupervisor
    var budgets: map<string, BudgetTracker>
    var artifacts: seq<Artifact>
    /** The calls whose executor is running, per tracker: the interpreter's call stack. */
    ghost var open: map<string, seq<OpenCall>>

    ghost predicate Valid()
      reads this
    {
      forall a, b :: a in budgets && b in budgets && a != b ==> budgets[a] != budgets[b]
    }

    ghost function View(): Hub
      reads this, supervisor, budgets.Values
    {
      Hub(map key | key in budgets :: budgets[key].View(), open, supervisor.records, artifacts)
    }

    constructor (cfg: Config)
      ensures Valid() && View() == EMPTY_HUB && this.cfg == cfg && fresh(supervisor)
    {
      this.cfg := cfg;
      supervisor := new AgentSupervisor();
      budgets := map[];
      artifacts := [];
      open := map[];
    }

    method Log(a: Artifact)
      modifies this`artifacts
      ensures artifacts == old(artifacts) + [a]
    {
      artifacts := artifacts + [a];
    }

    /** The tracker of a principal, made on first use. */
    method BudgetForPrincipal(principal: string, now: real) returns (budget: BudgetTracker)
      requires Valid()
      modifies this`budgets
      ensures Valid()
      ensures View() == WithBudget(cfg, old(View()), PrincipalKey(principal), now)
      ensures PrincipalKey(principal) in budgets && budget == budgets[PrincipalKey(principal)]
      ensures forall key :: key in old(budgets) ==> key in budgets && budgets[key] == old(budgets[key])
      ensures forall key :: key in budgets && key !in old(budgets) ==>
        fresh(budgets[key]) && budgets[key].start == now && budgets[key].limits == cfg.limits && budgets[key].totalCalls == 0
    {
      var key := if principal == "" then "default" else principal;
      if key !in budgets {
        var made := new BudgetTracker(cfg.limits, now);
        budgets := budgets[key := made];
      }
      budget := budgets[key];
    }

    method PolicyAllows(tool: string, category: Category) returns (decision: Decision, reason: Reason)
      ensures (decision, reason) == PolicyRuling(cfg.policy, tool, category)
    {
      if tool in cfg.policy.deniedTools {
        return Deny, InDenyList(tool);
      }
      if tool in cfg.policy.approvalTools {
        return ApprovalRequired, NeedsApproval(tool);
      }
      if tool in cfg.policy.allowedTools {
        return Allow, InAllowList;
      }
      if cfg.policy.allowedCategories != {} && category in cfg.policy.allowedCategories {
        return Allow, CategoryAllowed(category);
      }
      if cfg.policy.allowedCategories != {} && category !in cfg.policy.allowedCategories {
        return Deny, CategoryNotAllowed(category);
      }
      if cfg.policy.defaultAllow {
        return Allow, AllowedByDefault;
      }
      return Deny, FailClosed;
    }

    /** What stays the same object while the keyring grows. */
    twostate predicate KeyringGrew()
      reads this
    {
      && (forall key :: key in old(budgets) ==> key in budgets && budgets[key] == old(budgets)[key])
      && (forall key :: key in budgets && key !in old(budgets) ==> fresh(budgets[key]))
    }

    /** Step 0 of a governed call: a halted session is denied before anything else is looked at. */
    method CheckKillSwitch(r: Request, category: Category) returns (halt: Option<HaltEntry>)
      requires category == cfg.CategoryOf(r.tool)
      modifies this`artifacts
      ensures cfg.supervised && r.session != "" ==> halt == ActiveHalt(supervisor.records, r.session)
      ensures !(cfg.supervised && r.session != "") ==> halt.None?
      ensures artifacts == old(artifacts) +
        match halt
        case None => []
        case Some(e) => [PolicyDecision(r.id, r.tool, Deny, SessionHalted(e.operator, e.reason), category, None),
                         ResultSummary(r.id, r.tool, HaltedStatus)]
    {
      halt := None;
      if cfg.supervised && r.session != "" {
        halt := supervisor.IsHalted(r.session);
        if halt.Some? {
          Log(PolicyDecision(r.id, r.tool, Deny, SessionHalted(halt.value.operator, halt.value.reason), category, None));
          Log(ResultSummary(r.id, r.tool, HaltedStatus));
        }
      }
    }

    /** Steps 1 to 3: policy, argument gate, budget admission. */
    method Rule(r: Request, budget: BudgetTracker, category: Category)
      returns (escaped: bool, decision: Decision, reason: Reason)
      requires category == cfg.CategoryOf(r.tool)
      ensures escaped == GateEscapes(cfg, r)
      ensures !escaped ==> (decision, reason) == Ruling(cfg, budget.View(), r)
    {
      escaped := false;
      decision, reason := PolicyAllows(r.tool, category);
      if decision != Deny {
        if r.gate.GateRaises? {
          return true, decision, reason;
        }
        if r.gate.Rejects? {
          decision, reason := Deny, ArgumentGate(r.gate.message);
        }
      }
      if decision != Deny {
        var ok, why := budget.CanAdmit(r.tool, category, r.at);
        if !ok {
          decision, reason := Deny, why;
        }
      }
    }

    /** Step 4: None when the handler raised, otherwise whether it approved. */
    method AskApproval(r: Request, reason: Reason) returns (approved: Option<bool>)
      modifies this`artifacts
      ensures approved == if r.handler.HandlerRaises? then None else Some(r.handler == Answers(true))
      ensures artifacts == old(artifacts) + [ApprovalRequest(r.id, r.tool, reason)] +
        match approved
        case None => []
        case Some(yes) => [ApprovalLog(r.id, r.tool, yes, reason)]
    {
      Log(ApprovalRequest(r.id, r.tool, reason));
      if r.handler.HandlerRaises? {
        return None;
      }
      var yes := r.handler.Answers? && r.handler.approve;
      Log(ApprovalLog(r.id, r.tool, yes, reason));
      return Some(yes);
    }

    /** Everything `governed_call` logs and decides before its executor runs. */
    method DecideCall(r: Request, budget: BudgetTracker) returns (answer: Answer)
      requires Valid() && PrincipalKey(r.principal) in budgets && budget == budgets[PrincipalKey(r.principal)]
      modifies this`artifacts
      ensures answer == Decide(cfg, old(View()), r).1
      ensures artifacts == old(artifacts) + Decide(cfg, old(View()), r).0
    {
      var category := if r.tool in cfg.registry then cfg.registry[r.tool] else Other;
      var halt := CheckKillSwitch(r, category);
      if halt.Some? {
        return Denied(SessionHalted(halt.value.operator, halt.value.reason));
      }
      var escaped, decision, reason := Rule(r, budget, category);
      if escaped {
        return Escaped;
      }
      assert old(View()).budgets[PrincipalKey(r.principal)] == budget.View();
      answer := ActOnRuling(r, budget, category, decision, reason);
    }

    /** Steps 4 and 5: log the ruling, ask for approval where it is required, deny or go on. */
    method ActOnRuling(r: Request, budget: BudgetTracker, category: Category, decision: Decision, reason: Reason)
      returns (answer: Answer)
      modifies this`artifacts
      ensures (artifacts, answer)
           == (old(artifacts) + AfterRuling(r, category, decision, reason, StatsOf(budget.View())).0,
               AfterRuling(r, category, decision, reason, StatsOf(budget.View())).1)
    {
      ghost var entries := AfterRuling(r, category, decision, reason, StatsOf(budget.View())).0;
      var stats := budget.GetStats();
      Log(PolicyDecision(r.id, r.tool, decision, reason, category, Some(stats)));
      if decision == Deny {
        Log(ResultSummary(r.id, r.tool, DeniedStatus));
        assert artifacts == old(artifacts) + entries;
        return Denied(reason);
      }
      if decision == ApprovalRequired {
        var approved := AskApproval(r, reason);
        if approved.None? {
          assert artifacts == old(artifacts) + entries;
          return Escaped;
        }
        if !approved.value {
          Log(ResultSummary(r.id, r.tool, DeniedStatus));
          assert artifacts == old(artifacts) + entries;
          return Denied(ApprovalDenied(reason));
        }
      }
      assert artifacts == old(artifacts) + entries;
      return Executing;
    }

    /** Step 6 begins: acquire the budget; the executor is running from here on. */
    method StartExecutor(r: Request, budget: BudgetTracker)
      requires Valid() && PrincipalKey(r.principal) in budgets && budget == budgets[PrincipalKey(r.principal)]
      modifies this`open, budget
      ensures Valid()
      ensures View() == Started(cfg, old(View()), PrincipalKey(r.principal), r)
    {
      ghost var key := PrincipalKey(r.principal);
      ghost var h := View();
      budget.Acquire(r.tool, if r.tool in cfg.registry then cfg.registry[r.tool] else Other);
      OneTrackerChanged(key);
      open := open[key := OpenOf(h, key) + [OpenCall(r.id, r.tool)]];
      OneTrackerChanged(key);
    }

    /** The first half of `governed_call`, up to the executor. */
    method Admit(r: Request) returns (answer: Answer)
      requires Valid()
      modifies this, budgets.Values
      ensures Valid() && KeyringGrew() && PrincipalKey(r.principal) in budgets
      ensures (View(), answer) == Enter(cfg, old(View()), r)
    {
      var budget := BudgetForPrincipal(r.principal, r.at);
      ghost var h := View();
      answer := DecideCall(r, budget);
      ghost var logged := Logged(h, Decide(cfg, h, r).0);
      assert View() == logged;
      if answer.Executing? {
        StartExecutor(r, budget);
      }
    }

    method LogOutcome(r: Request, outcome: Outcome)
      modifies this`artifacts
      ensures artifacts == old(artifacts) + OutcomeLog(OpenCall(r.id, r.tool), outcome)
    {
      match outcome {
        case Returns(_) =>
          Log(ToolCallLog(r.id, r.tool, outcome));
          Log(ResultSummary(r.id, r.tool, OkStatus));
        case Raises(_, _) =>
          Log(ToolCallLog(r.id, r.tool, outcome));
          Log(ResultSummary(r.id, r.tool, ErrorStatus));
        case Aborts =>
      }
    }

    /** Changing one tracker changes one entry of the view. */
    twostate lemma OneTrackerChanged(key: string)
      requires old(Valid()) && Valid() && key in budgets && budgets == old(budgets)
      requires forall k :: k in budgets && k != key ==> unchanged(budgets[k])
      ensures View().budgets == old(View()).budgets[key := budgets[key].View()]
    {
    }

    /** The second half: log how the executor ended, then always release and log the budget. */
    method Finish(r: Request, ghost slot: nat, outcome: Outcome)
      requires Valid() && PrincipalKey(r.principal) in budgets
      requires slot < |OpenOf(View(), PrincipalKey(r.principal))|
      requires OpenOf(View(), PrincipalKey(r.principal))[slot] == OpenCall(r.id, r.tool)
      modifies this`artifacts, this`open, budgets[PrincipalKey(r.principal)]
      ensures Valid() && KeyringGrew()
      ensures View() == Leave(old(View()), PrincipalKey(r.principal), slot, outcome)
    {
      var key := if r.principal == "" then "default" else r.principal;
      ghost var h := View();
      ghost var calls := OpenOf(h, key);
      LogOutcome(r, outcome);
      budgets[key].Release();
      OneTrackerChanged(key);
      var stats := budgets[key].GetStats();
      Log(BudgetStats(r.id, r.tool, stats));
      open := open[key := calls[..slot] + calls[slot + 1..]];
      OneTrackerChanged(key);
      assert View().artifacts == Leave(h, key, slot, outcome).artifacts;
    }

    /** A whole governed call: the executor may issue further calls, halts and resumes of its own. */
    method GovernedCall(r: Request, body: seq<Act>, outcome: Outcome) returns (answer: Answer)
      requires Valid()
      modifies this, supervisor, budgets.Values
      ensures Valid() && KeyringGrew()
      ensures View() == Perform(cfg, old(View()), Call(r, body, outcome))
      ensures answer == Enter(cfg, old(View()), r).1
      decreases Call(r, body, outcome), 0
    {
      ghost var h := View();
      answer := Admit(r);
      CallSplits(cfg, h, Call(r, body, outcome), View(), answer);
      if answer.Executing? {
        RunExecutor(r, body, outcome, |OpenOf(h, PrincipalKey(r.principal))|);
      }
    }

    method RunExecutor(r: Request, body: seq<Act>, outcome: Outcome, ghost slot: nat)
      requires Valid() && PrincipalKey(r.principal) in budgets
      requires IsOpen(PerformAll(cfg, View(), body), PrincipalKey(r.principal), slot)
      requires OpenOf(PerformAll(cfg, View(), body), PrincipalKey(r.principal))[slot] == OpenCall(r.id, r.tool)
      modifies this, supervisor, budgets.Values
      ensures Valid() && KeyringGrew()
      ensures View() == Leave(PerformAll(cfg, old(View()), body), PrincipalKey(r.principal), slot, outcome)
      decreases body, 1
    {
      PerformEach(body);
      Finish(r, slot, outcome);
    }

    method PerformAct(act: Act)
      requires Valid()
      modifies this, supervisor, budgets.Values
      ensures Valid() && KeyringGrew()
      ensures View() == Perform(cfg, old(View()), act)
      decreases act, 1
    {
      match act {
        case Call(r, body, outcome) =>
          var answer := GovernedCall(r, body, outcome);
        case Halt(session, operator, reason) =>
          RunOne(cfg, View(), Step.HaltSession(session, operator, reason));
          var entry := supervisor.HaltSession(session, operator, reason);
        case Resume(session, operator, reason) =>
          RunOne(cfg, View(), Step.ResumeSession(session, operator, reason));
          var entry := supervisor.ResumeSession(session, operator, reason);
      }
    }

    method PerformEach(acts: seq<Act>)
      requires Valid()
      modifies this, supervisor, budgets.Values
      ensures Valid() && KeyringGrew()
      ensures View() == PerformAll(cfg, old(View()), acts)
      decreases acts, 0
    {
      if acts != [] {
        PerformAllCons(cfg, View(), acts);
        PerformAct(acts[0]);
        PerformEach(acts[1..]);
      }
    }
  }
}
