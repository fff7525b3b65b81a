/**
 Evaluating events against the adaptive thresholds: severities, the order of effects in
 `process_event`, and what holds over every run of it.
 */
module AlertAgents {
  import opened Collections
  import opened EventStores
  import opened Thresholds

  datatype Severity = Warning | Critical | Emergency

  function DetermineSeverity(cost: real, l: Levels): Option<Severity> {
    if cost >= l.emergency then Some(Emergency)
    else if cost >= l.critical then Some(Critical)
    else if cost >= l.warning then Some(Warning)
    else None
  }

  function ExceededThreshold(cost: real, l: Levels): real {
    if cost >= l.emergency then l.emergency
    else if cost >= l.critical then l.critical
    else l.warning
  }

  function LevelOf(l: Levels, s: Severity): real {
    match s
    case Warning => l.warning
    case Critical => l.critical
    case Emergency => l.emergency
  }

  datatype Alert = Alert(severity: Severity, event: Event, exceeded: real)

  datatype Action = BelowThreshold | Generated | EventsReplayed | OtherAction(name: string)

  datatype Note = Note(action: Action, target: string)

  /** What can go wrong inside `process_event`: the policy engine raises before anything is evaluated,
      building the alert raises before anything is recorded, or formatting it does after its cost was
      recorded. A raising dispatcher is caught. */
  datatype Fault = NoFault | PolicyRaises | BuildRaises | FormatRaises

  datatype Agent = Agent(store: seq<Event>, history: map<string, seq<real>>, audit: seq<Note>,
                         generated: seq<Alert>, dispatched: seq<Alert>)

  datatype Result = Raised | Quiet | Alerted(alert: Alert)

  function HistoryOf(history: map<string, seq<real>>, resourceType: string): seq<real> {
    if resourceType in history then history[resourceType] else []
  }

  function Recorded(history: map<string, seq<real>>, resourceType: string, cost: real): map<string, seq<real>> {
    history[resourceType := HistoryOf(history, resourceType) + [cost]]
  }

  function Evaluate(m: Numerics, s: Settings, a: Agent, e: Event): Option<Threshold> {
    Calculate(m, s, e.resourceType, HistoryOf(a.history, e.resourceType))
  }

  function Process(m: Numerics, s: Settings, a: Agent, e: Event, fault: Fault): (r: (Agent, Result)) {
    var stored := a.(store := Stored(a.store, e));
    if fault == PolicyRaises then (stored, Raised)
    else
      match Evaluate(m, s, a, e)
      case None => (stored, Raised)
      case Some(t) =>
        match DetermineSeverity(e.cost, t.levels)
        case None => (stored.(audit := a.audit + [Note(BelowThreshold, e.resourceId)]), Quiet)
        case Some(severity) =>
          if fault == BuildRaises then (stored, Raised)
          else
            var alert := Alert(severity, e, ExceededThreshold(e.cost, t.levels));
            var recorded := stored.(history := Recorded(a.history, e.resourceType, e.cost), generated := a.generated + [alert]);
            if fault == FormatRaises then (recorded, Raised)
            else
              (recorded.(audit := a.audit + [Note(Generated, e.resourceId)], dispatched := a.dispatched + [alert]),
               Alerted(alert))
  }

  datatype Input = Input(event: Event, fault: Fault)

  function Run(m: Numerics, s: Settings, a: Agent, inputs: seq<Input>): Agent {
    if inputs == [] then a
    else
      var n := |inputs| - 1;
      Process(m, s, Run(m, s, a, inputs[..n]), inputs[n].event, inputs[n].fault).0
  }

  // ---------------------------------------------------------------- one evaluation

  /** An alert exceeds the very level its severity names, and no alert means every level was missed. */
  lemma SeverityNamesTheExceededLevel(cost: real, l: Levels)
    ensures var severity := DetermineSeverity(cost, l);
            && (severity.None? <==> cost < l.warning && cost < l.critical && cost < l.emergency)
            && (severity == Some(Emergency) <==> cost >= l.emergency)
            && (severity == Some(Critical) <==> l.critical <= cost < l.emergency)
            && (severity == Some(Warning) <==> cost >= l.warning && cost < l.critical && cost < l.emergency)
            && (severity.Some? ==>
                  ExceededThreshold(cost, l) == LevelOf(l, severity.value) <= cost)
  {
  }

  /** A higher cost never gets a lower severity, whatever the levels. */
  lemma SeverityGrowsWithCost(low: real, high: real, l: Levels)
    requires low <= high
    ensures var a, b := DetermineSeverity(low, l), DetermineSeverity(high, l);
            && (a.Some? ==> b.Some?)
            && (a == Some(Critical) ==> b != Some(Warning))
            && (a == Some(Emergency) ==> b == Some(Emergency))
  {
  }

  /** The only change to a history: one cost at or above one of the levels just calculated from it. */
  lemma HistoryStep(m: Numerics, s: Settings, a: Agent, e: Event, fault: Fault, resourceType: string)
    ensures var before := HistoryOf(a.history, resourceType);
            var after := HistoryOf(Process(m, s, a, e, fault).0.history, resourceType);
            after == before
            || (after == before + [e.cost] && e.resourceType == resourceType
                && Calculate(m, s, resourceType, before).Some?
                && DetermineSeverity(e.cost, Calculate(m, s, resourceType, before).value.levels).Some?)
  {
  }

  // ---------------------------------------------------------------- the records agree

  /** The resources the trail says an alert was generated for. */
  function AlertedTargets(audit: seq<Note>): seq<string> {
    if audit == [] then []
    else
      var n := |audit| - 1;
      if audit[n].action == Generated then AlertedTargets(audit[..n]) + [audit[n].target] else AlertedTargets(audit[..n])
  }

  function ResourcesOf(alerts: seq<Alert>): seq<string> {
    if alerts == [] then [] else ResourcesOf(alerts[..|alerts| - 1]) + [alerts[|alerts| - 1].event.resourceId]
  }

  /** The costs of the alerts of one type. */
  function CostsOf(alerts: seq<Alert>, resourceType: string): seq<real> {
    if alerts == [] then []
    else
      var n := |alerts| - 1;
      if alerts[n].event.resourceType == resourceType then CostsOf(alerts[..n], resourceType) + [alerts[n].event.cost]
      else CostsOf(alerts[..n], resourceType)
  }

  /** The trail names the dispatched alerts in order, the history of a type is the costs of its generated
      alerts in order, and only alerts whose formatting raised were generated without being dispatched. */
  ghost predicate RecordsAgree(a: Agent, resourceType: string) {
    && AlertedTargets(a.audit) == ResourcesOf(a.dispatched)
    && HistoryOf(a.history, resourceType) == CostsOf(a.generated, resourceType)
    && |a.dispatched| <= |a.generated|
  }

  lemma NotePush(audit: seq<Note>, n: Note)
    ensures AlertedTargets(audit + [n])
         == if n.action == Generated then AlertedTargets(audit) + [n.target] else AlertedTargets(audit)
  {
    assert (audit + [n])[..|audit|] == audit;
  }

  lemma AlertPush(alerts: seq<Alert>, a: Alert, resourceType: string)
    ensures ResourcesOf(alerts + [a]) == ResourcesOf(alerts) + [a.event.resourceId]
    ensures CostsOf(alerts + [a], resourceType)
         == if a.event.resourceType == resourceType then CostsOf(alerts, resourceType) + [a.event.cost]
            else CostsOf(alerts, resourceType)
  {
    assert (alerts + [a])[..|alerts|] == alerts;
  }

  lemma AlertKeepsRecords(a: Agent, alert: Alert, resourceType: string)
    requires RecordsAgree(a, resourceType)
    ensures var e := alert.event;
            var recorded := a.(history := Recorded(a.history, e.resourceType, e.cost), generated := a.generated + [alert]);
            && RecordsAgree(recorded, resourceType)
            && RecordsAgree(recorded.(audit := a.audit + [Note(Generated, e.resourceId)], dispatched := a.dispatched + [alert]),
                            resourceType)
  {
    NotePush(a.audit, Note(Generated, alert.event.resourceId));
    AlertPush(a.generated, alert, resourceType);
    AlertPush(a.dispatched, alert, resourceType);
  }

  lemma ProcessKeepsRecords(m: Numerics, s: Settings, a: Agent, e: Event, fault: Fault, resourceType: string)
    requires RecordsAgree(a, resourceType)
    ensures RecordsAgree(Process(m, s, a, e, fault).0, resourceType)
  {
    var stored := a.(store := Stored(a.store, e));
    var t := Evaluate(m, s, a, e);
    if t.Some? {
      var severity := DetermineSeverity(e.cost, t.value.levels);
      if severity.None? {
        NotePush(a.audit, Note(BelowThreshold, e.resourceId));
      } else if fault != PolicyRaises && fault != BuildRaises {
        AlertKeepsRecords(stored, Alert(severity.value, e, ExceededThreshold(e.cost, t.value.levels)), resourceType);
      }
    }
  }

  /** Only an alert whose formatting raised is generated without being dispatched. */
  lemma UndispatchedOnlyWhenFormatRaises(m: Numerics, s: Settings, a: Agent, e: Event, fault: Fault)
    ensures var after := Process(m, s, a, e, fault).0;
            var more := (|after.generated| - |after.dispatched|) - (|a.generated| - |a.dispatched|);
            more == if fault == FormatRaises && after.generated != a.generated then 1 else 0
  {
  }

  predicate NeverFormatRaises(inputs: seq<Input>) {
    forall i :: 0 <= i < |inputs| ==> inputs[i].fault != FormatRaises
  }

  /** In every run audit trail, cost history and alert lists tell the same story; if formatting never
      raises, every alert that was generated was also dispatched. */
  lemma {:induction false} RecordsAgreeInEveryRun(m: Numerics, s: Settings, a: Agent, inputs: seq<Input>, resourceType: string)
    requires RecordsAgree(a, resourceType)
    ensures var after := Run(m, s, a, inputs);
            && RecordsAgree(after, resourceType)
            && (NeverFormatRaises(inputs) ==>
                  |after.generated| - |after.dispatched| == |a.generated| - |a.dispatched|)
  {
    if inputs != [] {
      var n := |inputs| - 1;
      RecordsAgreeInEveryRun(m, s, a, inputs[..n], resourceType);
      var before := Run(m, s, a, inputs[..n]);
      ProcessKeepsRecords(m, s, before, inputs[n].event, inputs[n].fault, resourceType);
      UndispatchedOnlyWhenFormatRaises(m, s, before, inputs[n].event, inputs[n].fault);
    }
  }

  // ---------------------------------------------------------------- the floor over runs

  predicate AllAtLeast(xs: seq<real>, floor: real) {
    forall i :: 0 <= i < |xs| ==> xs[i] >= floor
  }

  /** What alerts against levels above the floor is itself above the floor. */
  lemma AlertedCostIsAboveFloor(m: Numerics, s: Settings, resourceType: string, xs: seq<real>, cost: real, floor: real)
    requires GoodStatistics(m) && MonotoneRounding(m) && (m.round)(floor) == floor
    requires DefaultAbove(DefaultsFor(s, resourceType), floor) && AllAtLeast(xs, floor)
    requires Calculate(m, s, resourceType, xs).Some?
    requires DetermineSeverity(cost, Calculate(m, s, resourceType, xs).value.levels).Some?
    ensures cost >= floor
  {
    LevelsStayAboveFloor(m, s, resourceType, xs, floor);
  }

  lemma {:induction false} CostsStayAboveFloor(m: Numerics, s: Settings, a: Agent, inputs: seq<Input>,
                                               resourceType: string, floor: real)
    requires GoodStatistics(m) && MonotoneRounding(m) && (m.round)(floor) == floor
    requires DefaultAbove(DefaultsFor(s, resourceType), floor) && AllAtLeast(HistoryOf(a.history, resourceType), floor)
    ensures AllAtLeast(HistoryOf(Run(m, s, a, inputs).history, resourceType), floor)
  {
    if inputs != [] {
      var n := |inputs| - 1;
      var before := Run(m, s, a, inputs[..n]);
      var xs := HistoryOf(before.history, resourceType);
      CostsStayAboveFloor(m, s, a, inputs[..n], resourceType, floor);
      HistoryStep(m, s, before, inputs[n].event, inputs[n].fault, resourceType);
      if HistoryOf(Run(m, s, a, inputs).history, resourceType) != xs {
        AlertedCostIsAboveFloor(m, s, resourceType, xs, inputs[n].event.cost, floor);
      }
    }
  }

  lemma MeanStaysAboveFloor(m: Numerics, xs: seq<real>, floor: real)
    requires GoodStatistics(m) && |xs| >= 2 && AllAtLeast(xs, floor)
    ensures (m.mean)(xs) >= floor
  {
    assert Describes(xs, (m.mean)(xs), (m.stdev)(xs));
    MeanAboveFloor(xs, (m.mean)(xs), floor);
  }

  /** With a floor under the default levels of a type that rounding leaves where it is, no recorded cost
      of the type, no mean of them and no level calculated from them ever falls below it. */
  lemma NothingFallsBelowTheFloor(m: Numerics, s: Settings, a: Agent, inputs: seq<Input>, resourceType: string, floor: real)
    requires GoodStatistics(m) && MonotoneRounding(m) && (m.round)(floor) == floor
    requires DefaultAbove(DefaultsFor(s, resourceType), floor) && AllAtLeast(HistoryOf(a.history, resourceType), floor)
    ensures var xs := HistoryOf(Run(m, s, a, inputs).history, resourceType);
            && AllAtLeast(xs, floor)
            && (|xs| >= 2 ==> (m.mean)(xs) >= floor)
            && (Calculate(m, s, resourceType, xs).Some? ==> Above(Calculate(m, s, resourceType, xs).value.levels, floor))
  {
    var xs := HistoryOf(Run(m, s, a, inputs).history, resourceType);
    CostsStayAboveFloor(m, s, a, inputs, resourceType, floor);
    LevelsStayAboveFloor(m, s, resourceType, xs, floor);
    if |xs| >= 2 {
      MeanStaysAboveFloor(m, xs, floor);
    }
  }

  /** With ordered defaults the floor is the default warning level. */
  lemma WarningLevelIsTheFloor(m: Numerics, s: Settings, a: Agent, inputs: seq<Input>, resourceType: string)
    requires GoodStatistics(m) && MonotoneRounding(m) && HistoryOf(a.history, resourceType) == []
    requires var d := DefaultsFor(s, resourceType);
             && d.warning.Some? && (m.round)(d.warning.value) == d.warning.value
             && (Complete(d) ==> InOrder(LevelsIn(d)))
    ensures var floor := DefaultsFor(s, resourceType).warning.value;
            var xs := HistoryOf(Run(m, s, a, inputs).history, resourceType);
            var t := Calculate(m, s, resourceType, xs);
            AllAtLeast(xs, floor) && (t.Some? ==> t.value.levels.warning >= floor)
  {
    NothingFallsBelowTheFloor(m, s, a, inputs, resourceType, DefaultsFor(s, resourceType).warning.value);
  }

  // ---------------------------------------------------------------- exactly when an event alerts

  /** The history no longer relies on the defaults. */
  predicate Adapted(s: Settings, xs: seq<real>) {
    |xs| >= s.minDatapoints && |xs| >= 2
  }

  /** The answer to an event of this cost when the levels are `w`, `c` and `x`: an alert on that event from
      the warning level on, of the severity of the highest level reached, and naming that level. */
  predicate AnswersAt(r: Result, e: Event, w: real, c: real, x: real) {
    && (r.Alerted? <==> e.cost >= w) && (!r.Alerted? ==> r == Quiet)
    && (r.Alerted? ==>
          && r.alert.event == e
          && (r.alert.severity != Warning <==> e.cost >= c)
          && (r.alert.severity == Emergency <==> e.cost >= x)
          && r.alert.exceeded == if e.cost >= x then x else if e.cost >= c then c else w)
  }

  /** With too few costs of its type an event alerts at the configured levels, or at 500, 2000 and 5000
      when none are configured. */
  lemma AlertsAtTheDefaults(m: Numerics, s: Settings, a: Agent, e: Event, w: real, c: real, x: real)
    requires MonotoneRounding(m) && w <= c <= x
    requires |HistoryOf(a.history, e.resourceType)| < s.minDatapoints
    requires if e.resourceType in s.defaults then s.defaults[e.resourceType] == Default(Some(w), Some(c), Some(x))
             else w == 500.0 && c == 2000.0 && x == 5000.0
    ensures AnswersAt(Process(m, s, a, e, NoFault).1, e, (m.round)(w), (m.round)(c), (m.round)(x))
  {
  }

  /** With enough of them, at one, two and three deviations above their mean. */
  lemma AlertsAtTheDeviations(m: Numerics, s: Settings, a: Agent, e: Event)
    requires MonotoneRounding(m) && GoodStatistics(m) && Adapted(s, HistoryOf(a.history, e.resourceType))
    ensures var xs := HistoryOf(a.history, e.resourceType);
            var mean, sd := (m.mean)(xs), (m.stdev)(xs);
            AnswersAt(Process(m, s, a, e, NoFault).1, e,
                      (m.round)(mean + sd), (m.round)(mean + 2.0 * sd), (m.round)(mean + 3.0 * sd))
  {
    var xs := HistoryOf(a.history, e.resourceType);
    assert Describes(xs, (m.mean)(xs), (m.stdev)(xs));
  }

  /** What an event leaves behind: it is stored, and an alert, if it gets that far, adds its cost to the
      history of its type and itself to the lists; nothing else changes. */
  lemma EventLeavesItsMark(m: Numerics, s: Settings, a: Agent, e: Event, fault: Fault, other: string)
    ensures var (after, r) := Process(m, s, a, e, fault);
            && (forall stored :: stored in after.store <==> stored in a.store || (stored == e && !Knows(a.store, e.id)))
            && (other != e.resourceType ==> HistoryOf(after.history, other) == HistoryOf(a.history, other))
            && (fault == NoFault || r.Alerted? ==>
                  HistoryOf(after.history, e.resourceType)
                  == HistoryOf(a.history, e.resourceType) + (if r.Alerted? then [e.cost] else []))
            && (r.Alerted? ==>
                  && after.audit == a.audit + [Note(Generated, e.resourceId)]
                  && after.generated == a.generated + [r.alert] && after.dispatched == a.dispatched + [r.alert])
            && (r.Quiet? ==> after.audit == a.audit + [Note(BelowThreshold, e.resourceId)])
            && (r.Raised? ==> after.audit == a.audit)
            && (!r.Alerted? ==> after.dispatched == a.dispatched)
            && (r.Quiet? ==> after.generated == a.generated && after.history == a.history)
            && (fault == FormatRaises && after.generated != a.generated ==>
                  HistoryOf(after.history, e.resourceType) == HistoryOf(a.history, e.resourceType) + [e.cost])
            && (fault == PolicyRaises || fault == BuildRaises ==>
                  !r.Alerted? && after.history == a.history && after.generated == a.generated)
            && (fault == PolicyRaises ==> r == Raised)
  {
  }

  // ---------------------------------------------------------------- types that never alert

  lemma {:induction false} NothingIsRecorded(m: Numerics, s: Settings, a: Agent, inputs: seq<Input>, resourceType: string)
    requires HistoryOf(a.history, resourceType) == [] && Calculate(m, s, resourceType, []).None?
    ensures HistoryOf(Run(m, s, a, inputs).history, resourceType) == []
  {
    if inputs != [] {
      var n := |inputs| - 1;
      NothingIsRecorded(m, s, a, inputs[..n], resourceType);
      HistoryStep(m, s, Run(m, s, a, inputs[..n]), inputs[n].event, inputs[n].fault, resourceType);
    }
  }

  /** Whatever has been processed, the next event of the type raises. */
  ghost predicate AlwaysRaises(m: Numerics, s: Settings, a: Agent, resourceType: string) {
    forall inputs, e: Event, fault | e.resourceType == resourceType ::
      Process(m, s, Run(m, s, a, inputs), e, fault).1 == Raised
  }

  /** A type without history can never be evaluated, and so never leaves the defaults, exactly when its
      default lacks a level or `minDatapoints` is not positive. */
  lemma TypeNeverAlertsExactlyWhen(m: Numerics, s: Settings, a: Agent, e: Event)
    requires HistoryOf(a.history, e.resourceType) == []
    ensures AlwaysRaises(m, s, a, e.resourceType) <==> s.minDatapoints <= 0 || !Complete(DefaultsFor(s, e.resourceType))
  {
    if Calculate(m, s, e.resourceType, []).None? {
      forall inputs, e': Event, fault | e'.resourceType == e.resourceType
        ensures Process(m, s, Run(m, s, a, inputs), e', fault).1 == Raised
      {
        NothingIsRecorded(m, s, a, inputs, e.resourceType);
      }
    } else {
      assert Run(m, s, a, []) == a;
      assert Process(m, s, Run(m, s, a, []), e, NoFault).1 != Raised;
    }
  }

  // ---------------------------------------------------------------- the ratchet over runs

  /** The mean and the three levels of `ys` are at least those of `xs`. */
  ghost predicate Ratcheted(m: Numerics, xs: seq<real>, ys: seq<real>) {
    var a, b := Dynamic((m.mean)(xs), (m.stdev)(xs)), Dynamic((m.mean)(ys), (m.stdev)(ys));
    && (m.mean)(ys) >= (m.mean)(xs)
    && b.warning >= a.warning && b.critical >= a.critical && b.emergency >= a.emergency
  }

  lemma RatchetStep(m: Numerics, xs: seq<real>, x: real)
    requires GoodStatistics(m) && |xs| >= 2 && x >= (m.mean)(xs) + (m.stdev)(xs)
    ensures Ratcheted(m, xs, xs + [x])
  {
    var ys := xs + [x];
    var a, b, s, t := (m.mean)(xs), (m.mean)(ys), (m.stdev)(xs), (m.stdev)(ys);
    assert Describes(xs, a, s) && Describes(ys, b, t);
    LevelsNeverFall(xs, x, 0.0, a, b, s, t);
    LevelsNeverFall(xs, x, 1.0, a, b, s, t);
    LevelsNeverFall(xs, x, 2.0, a, b, s, t);
    LevelsNeverFall(xs, x, 3.0, a, b, s, t);
  }

  /** A cost that alerts on an adapted history is at least a deviation above its mean. */
  lemma AlertsReachTheWarning(m: Numerics, s: Settings, resourceType: string, xs: seq<real>, x: real)
    requires GoodStatistics(m) && NoRounding(m) && Adapted(s, xs)
    requires DetermineSeverity(x, Calculate(m, s, resourceType, xs).value.levels).Some?
    ensures x >= (m.mean)(xs) + (m.stdev)(xs)
  {
    assert Describes(xs, (m.mean)(xs), (m.stdev)(xs));
  }

  /** The history has grown, nothing has fallen, and what was added is at least the warning level of then. */
  ghost predicate RatchetedSince(m: Numerics, xs: seq<real>, ys: seq<real>) {
    xs <= ys && Ratcheted(m, xs, ys) && AllAtLeast(ys[|xs|..], Dynamic((m.mean)(xs), (m.stdev)(xs)).warning)
  }

  lemma RatchetContinues(m: Numerics, xs: seq<real>, ys: seq<real>, x: real)
    requires GoodStatistics(m) && |xs| >= 2 && RatchetedSince(m, xs, ys) && x >= (m.mean)(ys) + (m.stdev)(ys)
    ensures RatchetedSince(m, xs, ys + [x])
  {
    RatchetStep(m, ys, x);
    assert (ys + [x])[|xs|..] == ys[|xs|..] + [x];
  }

  /** On exact reals, once a type has adapted, its mean and its warning, critical and emergency levels
      never decrease again, and every cost recorded later is at least the warning level of then. */
  lemma {:induction false} LevelsRatchet(m: Numerics, s: Settings, a: Agent, inputs: seq<Input>, resourceType: string)
    requires GoodStatistics(m) && NoRounding(m) && Adapted(s, HistoryOf(a.history, resourceType))
    ensures var xs := HistoryOf(a.history, resourceType);
            var ys := HistoryOf(Run(m, s, a, inputs).history, resourceType);
            RatchetedSince(m, xs, ys)
  {
    if inputs != [] {
      var n := |inputs| - 1;
      var xs := HistoryOf(a.history, resourceType);
      var before, input := Run(m, s, a, inputs[..n]), inputs[n];
      var ys := HistoryOf(before.history, resourceType);
      LevelsRatchet(m, s, a, inputs[..n], resourceType);
      HistoryStep(m, s, before, input.event, input.fault, resourceType);
      if HistoryOf(Run(m, s, a, inputs).history, resourceType) != ys {
        AlertsReachTheWarning(m, s, resourceType, ys, input.event.cost);
        RatchetContinues(m, xs, ys, input.event.cost);
      }
    }
  }

  /** Of an adapted history with a positive deviation, at most a quarter of the other costs reach its
      critical level and at most a ninth its emergency level. */
  lemma FewCostsReachTheTop(m: Numerics, s: Settings, resourceType: string, xs: seq<real>)
    requires GoodStatistics(m) && NoRounding(m) && Adapted(s, xs) && (m.stdev)(xs) > 0.0
    ensures var l := Calculate(m, s, resourceType, xs).value.levels;
            && 4 * CountAtLeast(xs, l.critical) <= |xs| - 1
            && 9 * CountAtLeast(xs, l.emergency) <= |xs| - 1
  {
    var mean, sd := (m.mean)(xs), (m.stdev)(xs);
    assert Describes(xs, mean, sd);
    FewCostsAreExtreme(xs, 2.0, mean, sd);
    FewCostsAreExtreme(xs, 3.0, mean, sd);
    CountInReals(CountAtLeast(xs, mean + 2.0 * sd), 4, |xs|);
    CountInReals(CountAtLeast(xs, mean + 3.0 * sd), 9, |xs|);
  }

  lemma CountInReals(count: nat, k: nat, n: nat)
    requires count as real * k as real <= n as real - 1.0
    ensures k * count <= n - 1
  {
    assert (k * count) as real == count as real * k as real;
    assert (n - 1) as real == n as real - 1.0;
  }

  // ---------------------------------------------------------------- the objects

  class ThresholdEngine {
    const numerics: Numerics
    const settings: Settings
    var costHistory: map<string, seq<real>>

    constructor (numerics: Numerics, settings: Settings)
      ensures costHistory == map[] && this.numerics == numerics && this.settings == settings
    {
      this.numerics, this.settings, costHistory := numerics, settings, map[];
    }

    method RecordCost(resourceType: string, cost: real)
      modifies this
      ensures costHistory == Recorded(old(costHistory), resourceType, cost)
    {
      if resourceType !in costHistory {
        costHistory := costHistory[resourceType := []];
      }
      costHistory := costHistory[resourceType := costHistory[resourceType] + [cost]];
    }

    /** Enough costs: their mean and deviations, or the error for fewer than two of them. Too few: the
        defaults of the type, with half the warning level as baseline, or the error for a missing level. */
    method CalculateThreshold(resourceType: string) returns (t: Option<Threshold>)
      ensures t == Calculate(numerics, settings, resourceType, HistoryOf(costHistory, resourceType))
      ensures var n := |HistoryOf(costHistory, resourceType)|;
              t.None? <==> settings.minDatapoints <= n < 2
                           || (n < settings.minDatapoints && !Complete(DefaultsFor(settings, resourceType)))
    {
      var history := if resourceType in costHistory then costHistory[resourceType] else [];
      var baseline, warning, critical, emergency: real;
      if |history| >= settings.minDatapoints {
        if |history| < 2 {
          return None;
        }
        baseline := (numerics.mean)(history);
        var stddev := (numerics.stdev)(history);
        warning := baseline + stddev;
        critical := baseline + 2.0 * stddev;
        emergency := baseline + 3.0 * stddev;
      } else {
        var defaults := if resourceType in settings.defaults then settings.defaults[resourceType] else FALLBACK;
        if defaults.warning.None? || defaults.critical.None? || defaults.emergency.None? {
          return None;
        }
        baseline := defaults.warning.value * 0.5;
        warning, critical, emergency := defaults.warning.value, defaults.critical.value, defaults.emergency.value;
      }
      var levels := Levels((numerics.round)(warning), (numerics.round)(critical), (numerics.round)(emergency));
      return Some(Threshold(levels, (numerics.round)(baseline)));
    }
  }

  class AuditTrail {
    var notes: seq<Note>

    constructor ()
      ensures notes == []
    {
      notes := [];
    }

    method Log(action: Action, target: string)
      modifies this
      ensures notes == old(notes) + [Note(action, target)]
    {
      notes := notes + [Note(action, target)];
    }

    /** The notes with the action asked for, or all, cut to the latest ones; never more than the cap. */
    method GetEntries(action: Option<Action>, limit: int) returns (r: seq<Note>)
      ensures IsLatest(r, NotesWith(notes, action), if limit <= 10000 then limit else 10000)
    {
      var cut := if limit <= MAX_AUDIT_QUERY then limit else MAX_AUDIT_QUERY;
      var results := [];
      for i := 0 to |notes|
        invariant results == NotesWith(notes[..i], action)
      {
        assert notes[..i + 1][..i] == notes[..i];
        if action.Some? && notes[i].action != action.value {
          continue;
        }
        results := results + [notes[i]];
      }
      assert notes[..|notes|] == notes;
      if cut > 0 {
        return if cut <= |results| then results[|results| - cut..] else results;
      }
      return if -cut <= |results| then results[-cut..] else [];
    }
  }

  const MAX_AUDIT_QUERY := 10000

  function NotesWith(notes: seq<Note>, action: Option<Action>): seq<Note> {
    if notes == [] then []
    else
      var n := |notes| - 1;
      if action.None? || notes[n].action == action.value then NotesWith(notes[..n], action) + [notes[n]]
      else NotesWith(notes[..n], action)
  }

  lemma {:induction false} NotesWithAre(notes: seq<Note>, action: Option<Action>, n: Note)
    ensures n in NotesWith(notes, action) <==> n in notes && (action.None? || n.action == action.value)
    ensures action.None? ==> NotesWith(notes, action) == notes
  {
    if notes != [] {
      var k := |notes| - 1;
      NotesWithAre(notes[..k], action, n);
      assert notes == notes[..k] + [notes[k]];
    }
  }

  class AlertAgent {
    const thresholds: ThresholdEngine
    const events: InMemoryEventStore
    const audit: AuditTrail
    var generated: seq<Alert>
    var dispatched: seq<Alert>

    ghost predicate Valid()
      reads this, events
    {
      events.Valid()
    }

    ghost function View(): Agent
      reads this, thresholds, events, audit
    {
      Agent(events.events, thresholds.costHistory, audit.notes, generated, dispatched)
    }

    constructor (thresholds: ThresholdEngine, events: InMemoryEventStore, audit: AuditTrail)
      requires events.Valid()
      ensures Valid() && View() == Agent(events.events, thresholds.costHistory, audit.notes, [], [])
      ensures this.thresholds == thresholds && this.events == events && this.audit == audit
    {
      this.thresholds, this.events, this.audit := thresholds, events, audit;
      generated, dispatched := [], [];
    }

    /** `evaluate_event`: the alert, if one is warranted, also goes to the engine's own list. */
    method EvaluateEvent(e: Event, fault: Fault) returns (raised: bool, alert: Option<Alert>)
      modifies this`generated
      ensures var t := Calculate(thresholds.numerics, thresholds.settings, e.resourceType,
                                 HistoryOf(thresholds.costHistory, e.resourceType));
              && (raised <==> t.None? || (fault == BuildRaises && DetermineSeverity(e.cost, t.value.levels).Some?))
              && (!raised ==>
                    var severity := DetermineSeverity(e.cost, t.value.levels);
                    alert == if severity.None? then None
                             else Some(Alert(severity.value, e, ExceededThreshold(e.cost, t.value.levels))))
              && generated == (if !raised && alert.Some? then old(generated) + [alert.value] else old(generated))
    {
      var threshold := thresholds.CalculateThreshold(e.resourceType);
      if threshold.None? {
        return true, None;
      }
      var severity := DetermineSeverity(e.cost, threshold.value.levels);
      if severity.None? {
        return false, None;
      }
      if fault == BuildRaises {
        return true, None;
      }
      var made := Alert(severity.value, e, ExceededThreshold(e.cost, threshold.value.levels));
      generated := generated + [made];
      return false, Some(made);
    }

    method ProcessEvent(e: Event, fault: Fault) returns (r: Result)
      requires Valid()
      modifies this, thresholds, events, audit
      ensures Valid()
      ensures (View(), r) == Process(thresholds.numerics, thresholds.settings, old(View()), e, fault)
    {
      events.Store(e);
      if fault == PolicyRaises {
        return Raised;
      }
      var raised, alert := EvaluateEvent(e, fault);
      if raised {
        return Raised;
      }
      match alert
      case None =>
        audit.Log(BelowThreshold, e.resourceId);
        return Quiet;
      case Some(made) =>
        thresholds.RecordCost(e.resourceType, e.cost);
        if fault == FormatRaises {
          return Raised;
        }
        audit.Log(Generated, e.resourceId);
        dispatched := dispatched + [made];
        return Alerted(made);
    }
  }
}
