/** Isolation between principals and the kill switch, over whole runs of the governor. */
module GovernorRuns {
  import opened Collections
  import opened Governor

  // ---------------------------------------------------------------- projection onto one principal

  /** Steps a principal sees: its own calls, and every halt and resume. */
  predicate Concerns(s: Step, key: string) {
    match s
    case EnterCall(r) => PrincipalKey(r.principal) == key
    case LeaveCall(p, _, _) => PrincipalKey(p) == key
    case HaltSession(_, _, _) => true
    case ResumeSession(_, _, _) => true
  }

  function Project(steps: seq<Step>, key: string): seq<Step> {
    if steps == [] then []
    else
      var before := Project(steps[..|steps| - 1], key);
      if Concerns(steps[|steps| - 1], key) then before + [steps[|steps| - 1]] else before
  }

  /** The answers a principal's calls get, in order. */
  function AnswersTo(cfg: Config, steps: seq<Step>, key: string): seq<Answer> {
    if steps == [] then []
    else
      var n := |steps| - 1;
      var before := AnswersTo(cfg, steps[..n], key);
      if steps[n].EnterCall? && PrincipalKey(steps[n].request.principal) == key then
        before + [Enter(cfg, Run(cfg, EMPTY_HUB, steps[..n]), steps[n].request).1]
      else before
  }

  /** What a principal can observe of a hub. */
  ghost predicate SameFor(key: string, h: Hub, g: Hub) {
    && h.halts == g.halts
    && OpenOf(h, key) == OpenOf(g, key)
    && (key in h.budgets <==> key in g.budgets)
    && (key in h.budgets ==> h.budgets[key] == g.budgets[key])
  }

  lemma OwnDecision(cfg: Config, key: string, h: Hub, g: Hub, r: Request)
    requires SameFor(key, h, g) && PrincipalKey(r.principal) == key && key in h.budgets
    ensures Decide(cfg, h, r) == Decide(cfg, g, r)
  {
  }

  lemma OwnBudget(cfg: Config, key: string, h: Hub, g: Hub, at: real)
    requires SameFor(key, h, g)
    ensures SameFor(key, WithBudget(cfg, h, key, at), WithBudget(cfg, g, key, at))
    ensures key in WithBudget(cfg, h, key, at).budgets
  {
  }

  lemma OwnStart(cfg: Config, key: string, h: Hub, g: Hub, r: Request, entries: seq<Artifact>)
    requires SameFor(key, h, g) && key in h.budgets
    ensures SameFor(key, Logged(h, entries), Logged(g, entries))
    ensures SameFor(key, Started(cfg, Logged(h, entries), key, r), Started(cfg, Logged(g, entries), key, r))
  {
  }

  lemma OwnEnterSeesOnlyOwnState(cfg: Config, key: string, h: Hub, g: Hub, r: Request)
    requires SameFor(key, h, g) && PrincipalKey(r.principal) == key
    ensures SameFor(key, Enter(cfg, h, r).0, Enter(cfg, g, r).0) && Enter(cfg, h, r).1 == Enter(cfg, g, r).1
  {
    var h', g' := WithBudget(cfg, h, key, r.at), WithBudget(cfg, g, key, r.at);
    OwnBudget(cfg, key, h, g, r.at);
    OwnDecision(cfg, key, h', g', r);
    OwnStart(cfg, key, h', g', r, Decide(cfg, h', r).0);
  }

  lemma OwnStepSeesOnlyOwnState(cfg: Config, key: string, h: Hub, g: Hub, s: Step)
    requires SameFor(key, h, g) && Concerns(s, key)
    ensures SameFor(key, Apply(cfg, h, s), Apply(cfg, g, s))
    ensures s.EnterCall? ==> Enter(cfg, h, s.request).1 == Enter(cfg, g, s.request).1
  {
    match s
    case EnterCall(r) => OwnEnterSeesOnlyOwnState(cfg, key, h, g, r);
    case LeaveCall(_, _, _) =>
    case HaltSession(_, _, _) =>
    case ResumeSession(_, _, _) =>
  }

  lemma OthersStepLeavesOwnState(cfg: Config, key: string, h: Hub, s: Step)
    requires !Concerns(s, key)
    ensures SameFor(key, Apply(cfg, h, s), h)
  {
  }

  lemma {:induction false} RunSeesOnlyOwnSteps(cfg: Config, steps: seq<Step>, key: string)
    ensures SameFor(key, Run(cfg, EMPTY_HUB, steps), Run(cfg, EMPTY_HUB, Project(steps, key)))
    ensures AnswersTo(cfg, steps, key) == AnswersTo(cfg, Project(steps, key), key)
  {
    if steps != [] {
      var n := |steps| - 1;
      var s, before := steps[n], Project(steps[..n], key);
      RunSeesOnlyOwnSteps(cfg, steps[..n], key);
      var h, g := Run(cfg, EMPTY_HUB, steps[..n]), Run(cfg, EMPTY_HUB, before);
      if Concerns(s, key) {
        OwnStepSeesOnlyOwnState(cfg, key, h, g, s);
        var own := before + [s];
        assert own[..|own| - 1] == before && own[|own| - 1] == s;
      } else {
        OthersStepLeavesOwnState(cfg, key, h, s);
      }
    }
  }

  /** In any interleaving of calls by any number of principals, each principal's answers and its
      final tracker are those of the run that contains only its own calls (and the same halts). */
  lemma PrincipalsAreIsolated(cfg: Config, steps: seq<Step>, principal: string)
    ensures var key := PrincipalKey(principal);
            var all, own := Run(cfg, EMPTY_HUB, steps), Run(cfg, EMPTY_HUB, Project(steps, key));
            && AnswersTo(cfg, steps, key) == AnswersTo(cfg, Project(steps, key), key)
            && (key in all.budgets <==> key in own.budgets)
            && (key in all.budgets ==> all.budgets[key] == own.budgets[key])
  {
    RunSeesOnlyOwnSteps(cfg, steps, PrincipalKey(principal));
  }

  /** Calls with an empty principal are billed to the tracker of "default". */
  lemma EmptyPrincipalIsDefault(cfg: Config, h: Hub, r: Request)
    requires r.principal == ""
    ensures Enter(cfg, h, r) == Enter(cfg, h, r.(principal := "default"))
  {
    var d := r.(principal := "default");
    assert PrincipalKey(d.principal) == "default";
    var g := WithBudget(cfg, h, "default", r.at);
    assert Ruling(cfg, g.budgets["default"], r) == Ruling(cfg, g.budgets["default"], d);
    assert Decide(cfg, g, r) == Decide(cfg, g, d);
  }

  // ---------------------------------------------------------------- kill switch

  predicate HaltsSession(s: Step, session: string) { s.HaltSession? && s.session == session }
  predicate ResumesSession(s: Step, session: string) { s.ResumeSession? && s.session == session }

  /** The halt at `i` is the one in force: the first halt of the session since its last resume. */
  ghost predicate InForce(steps: seq<Step>, session: string, i: nat) {
    && i < |steps| && HaltsSession(steps[i], session)
    && (forall j :: i < j < |steps| ==> !ResumesSession(steps[j], session))
    && (forall j :: 0 <= j < i && HaltsSession(steps[j], session) ==>
          exists k :: j < k < i && ResumesSession(steps[k], session))
  }

  lemma CallsLeaveHalts(cfg: Config, h: Hub, s: Step)
    requires s.EnterCall? || s.LeaveCall?
    ensures Apply(cfg, h, s).halts == h.halts
  {
  }

  lemma InForceExtends(steps: seq<Step>, session: string, i: nat)
    requires steps != [] && InForce(steps[..|steps| - 1], session, i)
    requires !ResumesSession(steps[|steps| - 1], session)
    ensures InForce(steps, session, i)
  {
    var before := steps[..|steps| - 1];
    assert forall j :: 0 <= j < |before| ==> before[j] == steps[j];
    forall j | 0 <= j < i && HaltsSession(steps[j], session)
      ensures exists k :: j < k < i && ResumesSession(steps[k], session)
    {
      assert HaltsSession(before[j], session);
      var k :| j < k < i && ResumesSession(before[k], session);
      assert ResumesSession(steps[k], session);
    }
  }

  lemma FreshHaltInForce(cfg: Config, steps: seq<Step>, session: string)
    requires steps != [] && HaltsSession(steps[|steps| - 1], session)
    requires ActiveHalt(Run(cfg, EMPTY_HUB, steps[..|steps| - 1]).halts, session).None?
    ensures InForce(steps, session, |steps| - 1)
  {
    var n := |steps| - 1;
    forall j | 0 <= j < n && HaltsSession(steps[j], session)
      ensures exists k :: j < k < n && ResumesSession(steps[k], session)
    {
      var k := InactiveWasResumed(cfg, steps[..n], session, j);
      assert ResumesSession(steps[k], session);
    }
  }

  lemma {:induction false} ActiveHaltIsInForce(cfg: Config, steps: seq<Step>, session: string) returns (i: nat)
    requires ActiveHalt(Run(cfg, EMPTY_HUB, steps).halts, session).Some?
    ensures InForce(steps, session, i)
    ensures ActiveHalt(Run(cfg, EMPTY_HUB, steps).halts, session)
         == Some(HaltEntry(session, steps[i].operator, steps[i].reason, false, "", ""))
  {
    var n := |steps| - 1;
    var h := Run(cfg, EMPTY_HUB, steps[..n]);
    if steps[n].EnterCall? || steps[n].LeaveCall? {
      CallsLeaveHalts(cfg, h, steps[n]);
    }
    if ActiveHalt(h.halts, session).Some? {
      i := ActiveHaltIsInForce(cfg, steps[..n], session);
      InForceExtends(steps, session, i);
    } else {
      i := n;
      FreshHaltInForce(cfg, steps, session);
    }
  }

  lemma {:induction false} InactiveWasResumed(cfg: Config, steps: seq<Step>, session: string, j: nat) returns (k: nat)
    requires ActiveHalt(Run(cfg, EMPTY_HUB, steps).halts, session).None?
    requires j < |steps| && HaltsSession(steps[j], session)
    ensures j < k < |steps| && ResumesSession(steps[k], session)
  {
    var n := |steps| - 1;
    var h := Run(cfg, EMPTY_HUB, steps[..n]);
    if ResumesSession(steps[n], session) && j < n {
      k := n;
    } else {
      assert !HaltsSession(steps[n], session);
      k := InactiveWasResumed(cfg, steps[..n], session, j);
    }
  }

  lemma OneHaltInForce(steps: seq<Step>, session: string, i: nat, j: nat)
    requires InForce(steps, session, i) && InForce(steps, session, j)
    ensures i == j
  {
  }

  /** A session is halted exactly when its last halt or resume is a halt, and the entry shown is
      that of the first halt since the last resume: repeated halts do not replace it. */
  lemma HaltedExactlyAfterAHalt(cfg: Config, steps: seq<Step>, session: string)
    ensures var active := ActiveHalt(Run(cfg, EMPTY_HUB, steps).halts, session);
            && (active.Some? <==>
                exists i :: 0 <= i < |steps| && HaltsSession(steps[i], session)
                  && forall j :: i < j < |steps| ==> !ResumesSession(steps[j], session))
            && (forall i: nat :: InForce(steps, session, i) ==>
                active == Some(HaltEntry(session, steps[i].operator, steps[i].reason, false, "", "")))
  {
    var active := ActiveHalt(Run(cfg, EMPTY_HUB, steps).halts, session);
    if active.Some? {
      var i := ActiveHaltIsInForce(cfg, steps, session);
      forall j: nat | InForce(steps, session, j) ensures j == i {
        OneHaltInForce(steps, session, i, j);
      }
    } else {
      forall i | 0 <= i < |steps| && HaltsSession(steps[i], session)
        ensures exists j :: i < j < |steps| && ResumesSession(steps[j], session)
      {
        var k := InactiveWasResumed(cfg, steps, session, i);
      }
    }
  }

  /** What a resume leaves in the registry: the halt's entry, closed, with who resumed and why; nothing is
      done without an active halt, and no other session is touched by either operation. */
  lemma ResumeClosesTheEntry(cfg: Config, h: Hub, session: string, operator: string, reason: string, other: string)
    ensures var halts := Apply(cfg, h, ResumeSession(session, operator, reason)).halts;
            var was := ActiveHalt(h.halts, session);
            && (was.Some? ==>
                  && session in halts
                  && halts[session] == HaltEntry(was.value.session, was.value.operator, was.value.reason, true, operator, reason))
            && (was.None? ==> halts == h.halts)
            && ActiveHalt(halts, session).None?
            && (other != session && other in h.halts ==> other in halts && halts[other] == h.halts[other])
            && (other != session && other !in h.halts ==> other !in halts)
    ensures var halts := Apply(cfg, h, HaltSession(session, operator, reason)).halts;
            && (other != session && other in h.halts ==> other in halts && halts[other] == h.halts[other])
            && (other != session && other !in h.halts ==> other !in halts)
  {
  }

  /** Once a session has been halted and not resumed, a call entered for it is answered with the halt,
      reaches no executor, and changes no counter: not even a call issued from inside another
      call's executor, since the run before it is arbitrary. */
  lemma HaltStopsEveryLaterCall(cfg: Config, steps: seq<Step>, i: nat, r: Request)
    requires cfg.supervised && r.session != ""
    requires i < |steps| && HaltsSession(steps[i], r.session)
    requires forall j :: i < j < |steps| ==> !ResumesSession(steps[j], r.session)
    ensures var h := Run(cfg, EMPTY_HUB, steps);
            var (g, answer) := Enter(cfg, h, r);
            && answer.Denied? && answer.reason.SessionHalted?
            && g.open == h.open && g.halts == h.halts
            && (forall key :: key in h.budgets ==> key in g.budgets && g.budgets[key] == h.budgets[key])
            && (forall key :: key in g.budgets && key !in h.budgets ==> g.budgets[key] == NewTracker(cfg.limits, r.at))
  {
    HaltedExactlyAfterAHalt(cfg, steps, r.session);
  }

  // ---------------------------------------------------------------- calls as trees

  /** A governed call together with everything its executor does before it ends. The body of a call
      that is not admitted is never performed. */
  datatype Act =
    | Call(request: Request, body: seq<Act>, outcome: Outcome)
    | Halt(session: string, operator: string, reason: string)
    | Resume(session: string, operator: string, reason: string)

  /** The steps an act takes from hub `h`. */
  function Flatten(cfg: Config, h: Hub, act: Act): seq<Step>
    decreases act
  {
    match act
    case Call(r, body, outcome) =>
      var (entered, answer) := Enter(cfg, h, r);
      if !answer.Executing? then [EnterCall(r)]
      else
        [EnterCall(r)] + FlattenAll(cfg, entered, body)
          + [LeaveCall(r.principal, |OpenOf(entered, PrincipalKey(r.principal))| - 1, outcome)]
    case Halt(session, operator, reason) => [HaltSession(session, operator, reason)]
    case Resume(session, operator, reason) => [ResumeSession(session, operator, reason)]
  }

  function FlattenAll(cfg: Config, h: Hub, acts: seq<Act>): seq<Step>
    decreases acts
  {
    if acts == [] then []
    else
      var first := Flatten(cfg, h, acts[0]);
      first + FlattenAll(cfg, Run(cfg, h, first), acts[1..])
  }

  function Perform(cfg: Config, h: Hub, act: Act): Hub {
    Run(cfg, h, Flatten(cfg, h, act))
  }

  function PerformAll(cfg: Config, h: Hub, acts: seq<Act>): Hub {
    Run(cfg, h, FlattenAll(cfg, h, acts))
  }

  lemma PerformAllCons(cfg: Config, h: Hub, acts: seq<Act>)
    requires acts != []
    ensures PerformAll(cfg, h, acts) == PerformAll(cfg, Perform(cfg, h, acts[0]), acts[1..])
  {
    RunAppend(cfg, h, Flatten(cfg, h, acts[0]), FlattenAll(cfg, Perform(cfg, h, acts[0]), acts[1..]));
  }

  lemma PerformCall(cfg: Config, h: Hub, act: Act)
    requires act.Call?
    ensures var (entered, answer) := Enter(cfg, h, act.request);
            var slot := |OpenOf(entered, PrincipalKey(act.request.principal))| - 1;
            Perform(cfg, h, act) ==
              if answer.Executing? then
                Apply(cfg, PerformAll(cfg, entered, act.body), LeaveCall(act.request.principal, slot, act.outcome))
              else entered
  {
    var r := act.request;
    var (entered, answer) := Enter(cfg, h, r);
    RunOne(cfg, h, EnterCall(r));
    if answer.Executing? {
      var slot := |OpenOf(entered, PrincipalKey(r.principal))| - 1;
      var body := FlattenAll(cfg, entered, act.body);
      var leave := LeaveCall(r.principal, slot, act.outcome);
      RunAppend(cfg, h, [EnterCall(r)] + body, [leave]);
      RunAppend(cfg, h, [EnterCall(r)], body);
      RunOne(cfg, PerformAll(cfg, entered, act.body), leave);
    }
  }

  /** The same calls are running in both hubs, and no tracker was lost. */
  ghost predicate SameOpen(h: Hub, g: Hub) {
    h.budgets.Keys <= g.budgets.Keys && forall key :: OpenOf(h, key) == OpenOf(g, key)
  }

  lemma EnterOpens(cfg: Config, h: Hub, r: Request)
    ensures var (entered, answer) := Enter(cfg, h, r);
            var key := PrincipalKey(r.principal);
            && h.budgets.Keys <= entered.budgets.Keys && key in entered.budgets
            && OpenOf(entered, key) == OpenOf(h, key) + (if answer.Executing? then [OpenCall(r.id, r.tool)] else [])
            && (forall other :: other != key ==> OpenOf(entered, other) == OpenOf(h, other))
  {
  }

  lemma LeaveCloses(h: Hub, g: Hub, key: string, outcome: Outcome)
    requires key in g.budgets && |OpenOf(g, key)| > 0
    requires OpenOf(h, key) == OpenOf(g, key)[..|OpenOf(g, key)| - 1]
    requires forall other :: other != key ==> OpenOf(g, other) == OpenOf(h, other)
    ensures forall other :: OpenOf(Leave(g, key, |OpenOf(g, key)| - 1, outcome), other) == OpenOf(h, other)
  {
    var calls := OpenOf(g, key);
    assert calls[..|calls| - 1] + calls[|calls|..] == calls[..|calls| - 1];
  }

  /** After the body has restored the open calls, leaving the slot on top restores those from before. */
  lemma EnterBodyLeave(h: Hub, entered: Hub, inner: Hub, key: string, call: OpenCall, outcome: Outcome)
    requires h.budgets.Keys <= entered.budgets.Keys && key in entered.budgets && SameOpen(entered, inner)
    requires OpenOf(entered, key) == OpenOf(h, key) + [call]
    requires forall other :: other != key ==> OpenOf(entered, other) == OpenOf(h, other)
    ensures IsOpen(inner, key, |OpenOf(entered, key)| - 1)
    ensures SameOpen(h, Leave(inner, key, |OpenOf(entered, key)| - 1, outcome))
  {
    assert OpenOf(inner, key)[..|OpenOf(h, key)|] == OpenOf(h, key);
    LeaveCloses(h, inner, key, outcome);
  }

  lemma {:induction false} ActRestoresOpen(cfg: Config, h: Hub, act: Act)
    ensures SameOpen(h, Perform(cfg, h, act))
    decreases act
  {
    match act
    case Call(r, body, outcome) =>
      PerformCall(cfg, h, act);
      EnterOpens(cfg, h, r);
      var key := PrincipalKey(r.principal);
      var (entered, answer) := Enter(cfg, h, r);
      if answer.Executing? {
        ActsRestoreOpen(cfg, entered, body);
        EnterBodyLeave(h, entered, PerformAll(cfg, entered, body), key, OpenCall(r.id, r.tool), outcome);
      }
    case Halt(session, operator, reason) => RunOne(cfg, h, HaltSession(session, operator, reason));
    case Resume(session, operator, reason) => RunOne(cfg, h, ResumeSession(session, operator, reason));
  }

  lemma {:induction false} ActsRestoreOpen(cfg: Config, h: Hub, acts: seq<Act>)
    ensures SameOpen(h, PerformAll(cfg, h, acts))
    decreases acts
  {
    if acts != [] {
      PerformAllCons(cfg, h, acts);
      ActRestoresOpen(cfg, h, acts[0]);
      ActsRestoreOpen(cfg, Perform(cfg, h, acts[0]), acts[1..]);
    }
  }

  /** A call that ran is its `Enter`, then its body, then the `Leave` of the slot it took. */
  lemma CallEndsWithItsOwnSlot(cfg: Config, h: Hub, act: Act)
    requires act.Call? && Enter(cfg, h, act.request).1.Executing?
    ensures var key := PrincipalKey(act.request.principal);
            var inner := PerformAll(cfg, Enter(cfg, h, act.request).0, act.body);
            var slot := |OpenOf(h, key)|;
            && IsOpen(inner, key, slot)
            && OpenOf(inner, key)[slot] == OpenCall(act.request.id, act.request.tool)
            && Perform(cfg, h, act) == Leave(inner, key, slot, act.outcome)
  {
    var r := act.request;
    PerformCall(cfg, h, act);
    EnterOpens(cfg, h, r);
    ActsRestoreOpen(cfg, Enter(cfg, h, r).0, act.body);
  }

  /** The same for any call, in terms of the hub it entered. */
  lemma CallSplits(cfg: Config, h: Hub, act: Act, entered: Hub, answer: Answer)
    requires act.Call? && (entered, answer) == Enter(cfg, h, act.request)
    ensures !answer.Executing? ==> Perform(cfg, h, act) == entered
    ensures answer.Executing? ==>
      var key, slot := PrincipalKey(act.request.principal), |OpenOf(h, PrincipalKey(act.request.principal))|;
      var inner := PerformAll(cfg, entered, act.body);
      && IsOpen(inner, key, slot)
      && OpenOf(inner, key)[slot] == OpenCall(act.request.id, act.request.tool)
      && Perform(cfg, h, act) == Leave(inner, key, slot, act.outcome)
  {
    if answer.Executing? {
      CallEndsWithItsOwnSlot(cfg, h, act);
    } else {
      CallThatNeverRan(cfg, h, act);
    }
  }

  lemma CallThatNeverRan(cfg: Config, h: Hub, act: Act)
    requires act.Call? && !Enter(cfg, h, act.request).1.Executing?
    ensures Perform(cfg, h, act) == Enter(cfg, h, act.request).0
  {
    PerformCall(cfg, h, act);
  }

  /** Whatever its executor does and however it ends, a call gives back exactly the slot it took:
      afterwards every tracker's in-flight count is what it was before, and zero for new trackers. */
  lemma CallRestoresInFlight(cfg: Config, h: Hub, act: Act)
    requires HubInv(cfg, h)
    ensures HubInv(cfg, Perform(cfg, h, act))
    ensures forall key :: key in h.budgets ==>
      key in Perform(cfg, h, act).budgets && Perform(cfg, h, act).budgets[key].inFlight == h.budgets[key].inFlight
    ensures forall key :: key in Perform(cfg, h, act).budgets && key !in h.budgets ==>
      Perform(cfg, h, act).budgets[key].inFlight == 0
  {
    ActRestoresOpen(cfg, h, act);
    RunKeepsInv(cfg, h, Flatten(cfg, h, act));
  }
}
