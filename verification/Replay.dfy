/**
 Replaying events that were stored but never evaluated: finding them through the audit trail,
 processing each of them once, and what is left to find afterwards.
 */
module Replays {
  import opened Collections
  import opened EventStores
  import opened Thresholds
  import opened AlertAgents

  const QUERY_LIMIT := 10000
  const MAX_REPLAYED_HISTORY := 50000

  predicate Evaluates(n: Note) {
    n.action == BelowThreshold || n.action == Generated
  }

  /** The resources the trail says were evaluated. */
  function EvaluatedTargets(entries: seq<Note>): set<string> {
    set n | n in entries && Evaluates(n) :: n.target
  }

  function Unevaluated(events: seq<Event>, targets: set<string>): seq<Event> {
    if events == [] then []
    else
      var n := |events| - 1;
      Unevaluated(events[..n], targets) + (if events[n].resourceId in targets then [] else [events[n]])
  }

  /** What `get_unevaluated_events` finds, looking at the latest ten thousand of each. */
  function Orphans(a: Agent): seq<Event> {
    Unevaluated(LastLimit(a.store, QUERY_LIMIT), EvaluatedTargets(LastLimit(a.audit, QUERY_LIMIT)))
  }

  /** Those not replayed in this session already. */
  function Fresh(orphans: seq<Event>, replayed: set<string>): seq<Event> {
    if orphans == [] then []
    else
      var n := |orphans| - 1;
      Fresh(orphans[..n], replayed) + (if orphans[n].id in replayed then [] else [orphans[n]])
  }

  function FaultAt(faults: seq<Fault>, i: nat): Fault {
    if i < |faults| then faults[i] else NoFault
  }

  /** `oks[k]` says whether attempt `k` succeeded; `done` are the ids of those that did. */
  datatype Progress = Progress(agent: Agent, oks: seq<bool>, done: set<string>, replayed: nat, alerts: nat, errors: nat)

  function Attempted(p: Progress, id: string, after: Agent, result: Result): Progress {
    match result
    case Raised => p.(agent := after, oks := p.oks + [false], errors := p.errors + 1)
    case Quiet => p.(agent := after, oks := p.oks + [true], done := p.done + {id}, replayed := p.replayed + 1)
    case Alerted(_) =>
      p.(agent := after, oks := p.oks + [true], done := p.done + {id}, replayed := p.replayed + 1, alerts := p.alerts + 1)
  }

  /** Processing the events in order; an exception is counted and the next event taken. */
  function ReplayAll(m: Numerics, s: Settings, a: Agent, todo: seq<Event>, faults: seq<Fault>): Progress {
    if todo == [] then Progress(a, [], {}, 0, 0, 0)
    else
      var n := |todo| - 1;
      var p := ReplayAll(m, s, a, todo[..n], faults);
      var (after, result) := Process(m, s, p.agent, todo[n], FaultAt(faults, n));
      Attempted(p, todo[n].id, after, result)
  }

  function Logged(a: Agent): Agent {
    a.(audit := a.audit + [Note(EventsReplayed, "event_replay")])
  }

  // ---------------------------------------------------------------- finding

  lemma {:induction false} UnevaluatedAre(events: seq<Event>, targets: set<string>, e: Event)
    ensures e in Unevaluated(events, targets) <==> e in events && e.resourceId !in targets
  {
    if events != [] {
      UnevaluatedAre(events[..|events| - 1], targets, e);
    }
  }

  lemma {:induction false} FreshAre(orphans: seq<Event>, replayed: set<string>, e: Event)
    ensures e in Fresh(orphans, replayed) <==> e in orphans && e.id !in replayed
  {
    if orphans != [] {
      FreshAre(orphans[..|orphans| - 1], replayed, e);
    }
  }

  lemma DistinctPrefix(events: seq<Event>)
    requires DistinctIds(events) && events != []
    ensures var n := |events| - 1;
            DistinctIds(events[..n]) && !Knows(events[..n], events[n].id)
  {
    var n := |events| - 1;
    assert forall i :: 0 <= i < n ==> events[..n][i] == events[i] && events[i].id != events[n].id;
  }

  lemma NewIdKeepsDistinct(events: seq<Event>, e: Event)
    requires DistinctIds(events) && !Knows(events, e.id)
    ensures DistinctIds(events + [e])
  {
    var all := events + [e];
    forall i, j | 0 <= i < j < |all| ensures all[i].id != all[j].id {
      assert j == |events| ==> events[i].id != e.id;
    }
  }

  lemma {:induction false} SelectionsAreDistinct(events: seq<Event>, targets: set<string>, replayed: set<string>)
    requires DistinctIds(events)
    ensures DistinctIds(Unevaluated(events, targets)) && DistinctIds(Fresh(events, replayed))
    ensures forall id :: Knows(Unevaluated(events, targets), id) || Knows(Fresh(events, replayed), id) ==> Knows(events, id)
  {
    if events != [] {
      var n := |events| - 1;
      DistinctPrefix(events);
      SelectionsAreDistinct(events[..n], targets, replayed);
      var u, f := Unevaluated(events[..n], targets), Fresh(events[..n], replayed);
      NewIdKeepsDistinct(u, events[n]);
      NewIdKeepsDistinct(f, events[n]);
      assert events == events[..n] + [events[n]];
      forall id ensures (Knows(u + [events[n]], id) || Knows(f + [events[n]], id) || Knows(u, id) || Knows(f, id))
                          ==> Knows(events, id) {
        KnowsPush(u, events[n], id);
        KnowsPush(f, events[n], id);
        KnowsPush(events[..n], events[n], id);
      }
    }
  }

  // ---------------------------------------------------------------- one pass

  /** Some attempt on an event of resource `t` succeeded. */
  predicate SucceededFor(todo: seq<Event>, oks: seq<bool>, t: string)
    requires |oks| == |todo|
  {
    exists k :: 0 <= k < |todo| && oks[k] && todo[k].resourceId == t
  }

  /** The attempt on event `id` succeeded. */
  predicate SucceededAs(todo: seq<Event>, oks: seq<bool>, id: string)
    requires |oks| == |todo|
  {
    exists k :: 0 <= k < |todo| && oks[k] && todo[k].id == id
  }

  lemma SucceededPush(todo: seq<Event>, oks: seq<bool>, e: Event, ok: bool, name: string)
    requires |oks| == |todo|
    ensures SucceededFor(todo + [e], oks + [ok], name) <==> SucceededFor(todo, oks, name) || (ok && e.resourceId == name)
    ensures SucceededAs(todo + [e], oks + [ok], name) <==> SucceededAs(todo, oks, name) || (ok && e.id == name)
  {
    var all, flags := todo + [e], oks + [ok];
    assert all[|todo|] == e && flags[|todo|] == ok;
    if SucceededFor(todo, oks, name) {
      var k :| 0 <= k < |todo| && oks[k] && todo[k].resourceId == name;
      assert flags[k] && all[k].resourceId == name;
    }
    if SucceededAs(todo, oks, name) {
      var k :| 0 <= k < |todo| && oks[k] && todo[k].id == name;
      assert flags[k] && all[k].id == name;
    }
  }

  lemma SuccessIsForItsResource(todo: seq<Event>, oks: seq<bool>, e: Event)
    requires |oks| == |todo| && DistinctIds(todo) && e in todo
    ensures SucceededAs(todo, oks, e.id) ==> SucceededFor(todo, oks, e.resourceId)
  {
    if SucceededAs(todo, oks, e.id) {
      var k :| 0 <= k < |todo| && oks[k] && todo[k].id == e.id;
      var i :| 0 <= i < |todo| && todo[i] == e;
      assert i == k;
    }
  }

  /** An event's success is on the trail under its resource; a failure leaves the trail alone. */
  lemma ProcessLeavesATrace(m: Numerics, s: Settings, a: Agent, e: Event, fault: Fault)
    ensures var (after, result) := Process(m, s, a, e, fault);
            && after.store == Stored(a.store, e)
            && EvaluatedTargets(after.audit) == EvaluatedTargets(a.audit) + (if result == Raised then {} else {e.resourceId})
            && |after.audit| == |a.audit| + (if result == Raised then 0 else 1)
  {
    var (after, result) := Process(m, s, a, e, fault);
    if result != Raised {
      TargetsPush(a.audit, after.audit[|a.audit|]);
      assert after.audit == a.audit + [after.audit[|a.audit|]];
    }
  }

  lemma TargetsPush(entries: seq<Note>, n: Note)
    ensures EvaluatedTargets(entries + [n]) == EvaluatedTargets(entries) + (if Evaluates(n) then {n.target} else {})
  {
    var all := entries + [n];
    forall t ensures t in EvaluatedTargets(all) <==> t in EvaluatedTargets(entries) || (Evaluates(n) && t == n.target) {
      if t in EvaluatedTargets(entries) {
        var k :| k in entries && Evaluates(k) && k.target == t;
        assert k in all;
      }
      if Evaluates(n) && t == n.target {
        assert n in all;
      }
    }
  }

  lemma KnownInPrefix(events: seq<Event>, e: Event)
    requires e in events
    ensures Knows(events, e.id)
  {
    var i :| 0 <= i < |events| && events[i] == e;
  }

  /** The counts of a pass. */
  lemma {:induction false} PassCounts(m: Numerics, s: Settings, a: Agent, todo: seq<Event>, faults: seq<Fault>)
    requires forall k :: 0 <= k < |todo| ==> Knows(a.store, todo[k].id)
    ensures var p := ReplayAll(m, s, a, todo, faults);
            && |p.oks| == |todo| && p.agent.store == a.store
            && |p.agent.audit| <= |a.audit| + |todo|
            && p.replayed + p.errors == |todo| && p.alerts <= p.replayed
            && (p.errors == 0 ==> forall k :: 0 <= k < |p.oks| ==> p.oks[k])
  {
    if todo != [] {
      var n := |todo| - 1;
      PassCounts(m, s, a, todo[..n], faults);
      ProcessLeavesATrace(m, s, ReplayAll(m, s, a, todo[..n], faults).agent, todo[n], FaultAt(faults, n));
    }
  }

  /** Exactly the resources with a success are on the trail beyond those that were, and exactly the ids
      that succeeded are remembered. */
  predicate Traced(a: Agent, todo: seq<Event>, p: Progress, name: string) {
    && |p.oks| == |todo|
    && (name in EvaluatedTargets(p.agent.audit) <==>
          name in EvaluatedTargets(a.audit) || SucceededFor(todo, p.oks, name))
    && (name in p.done <==> SucceededAs(todo, p.oks, name))
  }

  lemma OneMoreTraced(m: Numerics, s: Settings, a: Agent, todo: seq<Event>, p: Progress, e: Event, fault: Fault, name: string)
    requires Traced(a, todo, p, name)
    ensures var (after, result) := Process(m, s, p.agent, e, fault);
            Traced(a, todo + [e], Attempted(p, e.id, after, result), name)
  {
    var (after, result) := Process(m, s, p.agent, e, fault);
    ProcessLeavesATrace(m, s, p.agent, e, fault);
    SucceededPush(todo, p.oks, e, result != Raised, name);
  }

  lemma {:induction false} PassIsTraced(m: Numerics, s: Settings, a: Agent, todo: seq<Event>, faults: seq<Fault>, name: string)
    ensures Traced(a, todo, ReplayAll(m, s, a, todo, faults), name)
  {
    if todo != [] {
      var n := |todo| - 1;
      PassIsTraced(m, s, a, todo[..n], faults, name);
      OneMoreTraced(m, s, a, todo[..n], ReplayAll(m, s, a, todo[..n], faults), todo[n], FaultAt(faults, n), name);
      assert todo[..n] + [todo[n]] == todo;
    }
  }

  function CountTrue(oks: seq<bool>): nat {
    if oks == [] then 0 else CountTrue(oks[..|oks| - 1]) + (if oks[|oks| - 1] then 1 else 0)
  }

  /** What a pass counts is what happened: successes, failures, and alerts that were dispatched. */
  lemma {:induction false} PassCountsWhatHappened(m: Numerics, s: Settings, a: Agent, todo: seq<Event>, faults: seq<Fault>)
    ensures var p := ReplayAll(m, s, a, todo, faults);
            && |p.oks| == |todo|
            && p.replayed == CountTrue(p.oks) && p.errors == |todo| - p.replayed
            && |p.agent.dispatched| == |a.dispatched| + p.alerts
  {
    if todo != [] {
      var n := |todo| - 1;
      PassCountsWhatHappened(m, s, a, todo[..n], faults);
      var p := ReplayAll(m, s, a, todo[..n], faults);
      var (after, result) := Process(m, s, p.agent, todo[n], FaultAt(faults, n));
      assert (p.oks + [result != Raised])[..n] == p.oks;
    }
  }

  /** What a pass makes of the agent is what processing the same events one after another makes of it,
      failed ones included; `inputs` are these events with what goes wrong with each. */
  lemma {:induction false} PassIsARun(m: Numerics, s: Settings, a: Agent, todo: seq<Event>, faults: seq<Fault>, inputs: seq<Input>)
    requires |inputs| == |todo|
    requires forall i :: 0 <= i < |todo| ==> inputs[i].event == todo[i]
    requires forall i :: 0 <= i < |todo| ==> inputs[i].fault == if i < |faults| then faults[i] else NoFault
    ensures ReplayAll(m, s, a, todo, faults).agent == Run(m, s, a, inputs)
  {
    if todo != [] {
      var n := |todo| - 1;
      PassIsARun(m, s, a, todo[..n], faults, inputs[..n]);
    }
  }

  /** Store and trail are within what one query returns, even after the pass. */
  predicate UnderCaps(a: Agent, attempts: nat) {
    |a.store| <= QUERY_LIMIT && |a.audit| + attempts + 1 <= QUERY_LIMIT
  }

  lemma OrphansAreStored(a: Agent, replayed: set<string>)
    requires DistinctIds(a.store) && |a.store| <= QUERY_LIMIT && |a.audit| <= QUERY_LIMIT
    ensures Orphans(a) == Unevaluated(a.store, EvaluatedTargets(a.audit))
    ensures DistinctIds(Fresh(Orphans(a), replayed))
    ensures forall e :: e in Fresh(Orphans(a), replayed) <==>
                        e in a.store && e.resourceId !in EvaluatedTargets(a.audit) && e.id !in replayed
    ensures forall k :: 0 <= k < |Fresh(Orphans(a), replayed)| ==> Knows(a.store, Fresh(Orphans(a), replayed)[k].id)
  {
    var targets := EvaluatedTargets(a.audit);
    assert Orphans(a) == Unevaluated(a.store, targets);
    var todo := Fresh(Orphans(a), replayed);
    SelectionsAreDistinct(a.store, targets, replayed);
    SelectionsAreDistinct(Orphans(a), targets, replayed);
    forall e ensures e in todo <==> e in a.store && e.resourceId !in targets && e.id !in replayed {
      UnevaluatedAre(a.store, targets, e);
      FreshAre(Orphans(a), replayed, e);
    }
    forall k | 0 <= k < |todo| ensures Knows(a.store, todo[k].id) {
      KnownInPrefix(a.store, todo[k]);
    }
  }

  /** One replay pass from any state under the caps: it tries every fresh orphan exactly once, leaves the
      store alone, and what it leaves unevaluated is exactly the orphans none of whose resource's events
      succeeded. */
  lemma ReplayIsExact(m: Numerics, s: Settings, a: Agent, replayed: set<string>, faults: seq<Fault>, e: Event)
    requires DistinctIds(a.store)
    requires UnderCaps(a, |Fresh(Orphans(a), replayed)|)
    ensures var todo := Fresh(Orphans(a), replayed);
            var p := ReplayAll(m, s, a, todo, faults);
            var after := Logged(p.agent);
            && DistinctIds(todo) && |p.oks| == |todo|
            && (e in todo <==> e in a.store && e.resourceId !in EvaluatedTargets(a.audit) && e.id !in replayed)
            && after.store == a.store
            && (e in Orphans(after) <==> e in Orphans(a) && !SucceededFor(todo, p.oks, e.resourceId))
  {
    var todo := Fresh(Orphans(a), replayed);
    OrphansAreStored(a, replayed);
    PassCounts(m, s, a, todo, faults);
    PassIsTraced(m, s, a, todo, faults, e.resourceId);
    var before := ReplayAll(m, s, a, todo, faults).agent;
    var after := Logged(before);
    TargetsPush(before.audit, Note(EventsReplayed, "event_replay"));
    OrphansAreStored(after, {});
    UnevaluatedAre(a.store, EvaluatedTargets(a.audit), e);
    UnevaluatedAre(a.store, EvaluatedTargets(after.audit), e);
  }

  // ---------------------------------------------------------------- over a session

  /** Everything replayed in this session is stored and on the trail. */
  ghost predicate Consistent(a: Agent, replayed: set<string>) {
    forall i :: 0 <= i < |a.store| && a.store[i].id in replayed ==> a.store[i].resourceId in EvaluatedTargets(a.audit)
  }

  /** From a consistent state a pass leaves unevaluated only events that failed in it; with no failure
      nothing is left, so the next replay finds a clean store. */
  lemma OnlyFailuresRemain(m: Numerics, s: Settings, a: Agent, replayed: set<string>, faults: seq<Fault>)
    requires DistinctIds(a.store) && Consistent(a, replayed)
    requires UnderCaps(a, |Fresh(Orphans(a), replayed)|)
    ensures var todo := Fresh(Orphans(a), replayed);
            var p := ReplayAll(m, s, a, todo, faults);
            && todo == Orphans(a) && |p.oks| == |todo|
            && (forall e :: e in Orphans(Logged(p.agent)) ==> e in todo && !SucceededAs(todo, p.oks, e.id))
            && (p.errors == 0 ==> Orphans(Logged(p.agent)) == [])
  {
    var todo := Fresh(Orphans(a), replayed);
    var p := ReplayAll(m, s, a, todo, faults);
    NothingReplayedIsOrphaned(a, replayed);
    OrphansAreStored(a, replayed);
    PassCounts(m, s, a, todo, faults);
    forall e | e in Orphans(Logged(p.agent))
      ensures e in todo && !SucceededFor(todo, p.oks, e.resourceId) && !SucceededAs(todo, p.oks, e.id)
    {
      ReplayIsExact(m, s, a, replayed, faults, e);
      SuccessIsForItsResource(todo, p.oks, e);
    }
    if p.errors == 0 {
      forall e | e in todo ensures SucceededFor(todo, p.oks, e.resourceId) {
        var k :| 0 <= k < |todo| && todo[k] == e;
        assert p.oks[k];
      }
      if Orphans(Logged(p.agent)) != [] {
        SomethingIsLeft(Orphans(Logged(p.agent)), todo, p.oks);
      }
    }
  }

  lemma SomethingIsLeft(left: seq<Event>, todo: seq<Event>, oks: seq<bool>)
    requires |oks| == |todo| && left != []
    requires forall e :: e in todo ==> SucceededFor(todo, oks, e.resourceId)
    ensures exists e :: e in left && !(e in todo && !SucceededFor(todo, oks, e.resourceId))
  {
    assert left[0] in left;
  }

  lemma NothingReplayedIsOrphaned(a: Agent, replayed: set<string>)
    requires Consistent(a, replayed) && |a.store| <= QUERY_LIMIT && |a.audit| <= QUERY_LIMIT
    ensures Fresh(Orphans(a), replayed) == Orphans(a)
  {
    var targets := EvaluatedTargets(a.audit);
    var orphans := Orphans(a);
    forall i | 0 <= i < |orphans| ensures orphans[i].id !in replayed {
      UnevaluatedAre(a.store, targets, orphans[i]);
    }
    AllFresh(Orphans(a), replayed);
  }

  lemma {:induction false} AllFresh(orphans: seq<Event>, replayed: set<string>)
    requires forall i :: 0 <= i < |orphans| ==> orphans[i].id !in replayed
    ensures Fresh(orphans, replayed) == orphans
  {
    if orphans != [] {
      var n := |orphans| - 1;
      AllFresh(orphans[..n], replayed);
      assert orphans == orphans[..n] + [orphans[n]];
    }
  }

  lemma ProcessingKeepsConsistent(m: Numerics, s: Settings, a: Agent, replayed: set<string>, e: Event, fault: Fault)
    requires Consistent(a, replayed) && (forall id :: id in replayed ==> Knows(a.store, id))
    ensures var after := Process(m, s, a, e, fault).0;
            Consistent(after, replayed) && (forall id :: id in replayed ==> Knows(after.store, id))
  {
    var after := Process(m, s, a, e, fault).0;
    ProcessLeavesATrace(m, s, a, e, fault);
    forall id | id in replayed ensures Knows(after.store, id) {
      KnowsPush(a.store, e, id);
    }
    assert !Knows(a.store, e.id) ==> e.id !in replayed;
  }

  /** Whatever the queries reach, a pass tries stored events only. */
  lemma FreshAreStored(a: Agent, replayed: set<string>)
    ensures forall e :: e in Fresh(Orphans(a), replayed) ==> e in a.store && Knows(a.store, e.id)
    ensures forall k :: 0 <= k < |Fresh(Orphans(a), replayed)| ==> Knows(a.store, Fresh(Orphans(a), replayed)[k].id)
  {
    var todo := Fresh(Orphans(a), replayed);
    forall e | e in todo ensures e in a.store && Knows(a.store, e.id) {
      FreshAre(Orphans(a), replayed, e);
      UnevaluatedAre(LastLimit(a.store, QUERY_LIMIT), EvaluatedTargets(LastLimit(a.audit, QUERY_LIMIT)), e);
      KnownInPrefix(a.store, e);
    }
    forall k | 0 <= k < |todo| ensures Knows(a.store, todo[k].id) {
      assert todo[k] in todo;
    }
  }

  lemma ReplayingKeepsConsistent(m: Numerics, s: Settings, a: Agent, replayed: set<string>, faults: seq<Fault>)
    requires DistinctIds(a.store) && Consistent(a, replayed) && (forall id :: id in replayed ==> Knows(a.store, id))
    ensures var p := ReplayAll(m, s, a, Fresh(Orphans(a), replayed), faults);
            var after := Logged(p.agent);
            && after.store == a.store
            && Consistent(after, replayed + p.done) && (forall id :: id in replayed + p.done ==> Knows(after.store, id))
  {
    var todo := Fresh(Orphans(a), replayed);
    FreshAreStored(a, replayed);
    PassCounts(m, s, a, todo, faults);
    var p := ReplayAll(m, s, a, todo, faults);
    var after := Logged(p.agent);
    TargetsPush(p.agent.audit, Note(EventsReplayed, "event_replay"));
    forall i | 0 <= i < |a.store| && a.store[i].id in replayed + p.done
      ensures a.store[i].resourceId in EvaluatedTargets(after.audit)
    {
      PassIsTraced(m, s, a, todo, faults, a.store[i].resourceId);
      PassIsTraced(m, s, a, todo, faults, a.store[i].id);
      if a.store[i].id in p.done {
        StoredSuccess(a, todo, p.oks, i);
      }
    }
    forall id | id in p.done ensures Knows(after.store, id) {
      PassIsTraced(m, s, a, todo, faults, id);
      var k :| 0 <= k < |todo| && p.oks[k] && todo[k].id == id;
      assert Knows(a.store, todo[k].id);
    }
  }

  lemma StoredSuccess(a: Agent, todo: seq<Event>, oks: seq<bool>, i: nat)
    requires DistinctIds(a.store) && |oks| == |todo| && i < |a.store|
    requires forall e :: e in todo ==> e in a.store
    requires SucceededAs(todo, oks, a.store[i].id)
    ensures SucceededFor(todo, oks, a.store[i].resourceId)
  {
    var k :| 0 <= k < |todo| && oks[k] && todo[k].id == a.store[i].id;
    assert todo[k] in a.store;
    var j :| 0 <= j < |a.store| && a.store[j] == todo[k];
    assert i == j;
  }

  // ---------------------------------------------------------------- the server

  datatype Report = Skipped | Clean | Completed(found: nat, replayed: nat, alerts: nat, errors: nat)

  /** Exactly as many ids go as there are too many. */
  predicate BoundedTo(ids: set<string>, remembered: set<string>) {
    && remembered <= ids
    && |remembered| == (if |ids| <= MAX_REPLAYED_HISTORY then |ids| else MAX_REPLAYED_HISTORY)
    && (|ids| <= MAX_REPLAYED_HISTORY ==> remembered == ids)
  }

  /** What one pass makes of an agent and of the ids replayed so far. */
  ghost predicate PassDone(m: Numerics, s: Settings, a: Agent, replayed: set<string>, faults: seq<Fault>,
                           after: Agent, remembered: set<string>, report: Report)
  {
    var todo := Fresh(Orphans(a), replayed);
    if todo == [] then report == Clean && after == a && remembered == replayed
    else
      var p := ReplayAll(m, s, a, todo, faults);
      && report == Completed(|todo|, p.replayed, p.alerts, p.errors)
      && after == Logged(p.agent)
      && BoundedTo(replayed + p.done, remembered)
  }

  /** How many ids are left, and which: all of them up to fifty thousand. */
  lemma BoundIsExact(ids: set<string>, remembered: set<string>)
    requires BoundedTo(ids, remembered)
    ensures remembered <= ids && |remembered| <= 50000
    ensures |ids| <= 50000 ==> remembered == ids
    ensures |ids| > 50000 ==> |remembered| == 50000
  {
  }

  /** What a pass reports. */
  lemma ReportsAddUp(m: Numerics, s: Settings, a: Agent, replayed: set<string>, faults: seq<Fault>,
                     after: Agent, remembered: set<string>, report: Report)
    requires PassDone(m, s, a, replayed, faults, after, remembered, report)
    ensures report != Skipped
    ensures var todo := Fresh(Orphans(a), replayed);
            && (report == Clean <==> todo == [])
            && (report == Clean ==> after == a && remembered == replayed)
            && (report.Completed? ==>
                  && report.found == |todo|
                  && report.replayed + report.errors == |todo| && report.alerts <= report.replayed
                  && report.replayed == CountTrue(ReplayAll(m, s, a, todo, faults).oks)
                  && |after.dispatched| == |a.dispatched| + report.alerts
                  && after.audit != [] && after.audit[|after.audit| - 1] == Note(EventsReplayed, "event_replay"))
  {
    var todo := Fresh(Orphans(a), replayed);
    FreshAreStored(a, replayed);
    PassCounts(m, s, a, todo, faults);
    PassCountsWhatHappened(m, s, a, todo, faults);
  }

  lemma UnfilteredLists(notes: seq<Note>, stored: seq<Event>, entries: seq<Note>, events: seq<Event>)
    requires IsLatest(entries, NotesWith(notes, None), QUERY_LIMIT)
    requires IsLatest(events, Matching(stored, NO_FILTER), QUERY_LIMIT)
    ensures entries == LastLimit(notes, QUERY_LIMIT) && events == LastLimit(stored, QUERY_LIMIT)
  {
    NotesWithAre(notes, None, Note(EventsReplayed, ""));
    WithoutFilterAllMatch(stored);
    LatestIsUnique(entries, notes, QUERY_LIMIT);
    LatestIsUnique(events, stored, QUERY_LIMIT);
  }

  class Server {
    const agent: AlertAgent
    var replayedIds: set<string>
    var inProgress: bool

    constructor (agent: AlertAgent)
      ensures this.agent == agent && replayedIds == {} && !inProgress
    {
      this.agent, replayedIds, inProgress := agent, {}, false;
    }

    /** A replay asked for while one is running changes nothing; otherwise one pass is made. */
    method ReplayEvents(faults: seq<Fault>) returns (report: Report)
      requires agent.Valid()
      modifies this, agent, agent.thresholds, agent.events, agent.audit
      ensures agent.Valid() && inProgress == old(inProgress)
      ensures old(inProgress) ==> report == Skipped && agent.View() == old(agent.View()) && replayedIds == old(replayedIds)
      ensures !old(inProgress) ==>
        PassDone(agent.thresholds.numerics, agent.thresholds.settings, old(agent.View()), old(replayedIds), faults,
                 agent.View(), replayedIds, report)
    {
      if inProgress {
        return Skipped;
      }
      inProgress := true;
      report := DoReplay(faults);
      inProgress := false;
    }

    /** Fetch the fresh orphans, process each, cut the history of replayed ids back to its bound by
        dropping arbitrary ids, and note the pass on the trail. */
    method DoReplay(faults: seq<Fault>) returns (report: Report)
      requires agent.Valid()
      modifies this`replayedIds, agent, agent.thresholds, agent.events, agent.audit
      ensures agent.Valid()
      ensures PassDone(agent.thresholds.numerics, agent.thresholds.settings, old(agent.View()), old(replayedIds), faults,
                       agent.View(), replayedIds, report)
    {
      var unevaluated := GetUnevaluatedEvents();
      var todo := Fresh(unevaluated, replayedIds);
      if todo == [] {
        return Clean;
      }
      var replayed, alerts, errors := ProcessAll(todo, faults);
      BoundHistory();
      agent.audit.Log(EventsReplayed, "event_replay");
      report := Completed(|todo|, replayed, alerts, errors);
    }

    /** The stored events whose resource no evaluating note names, as far as the two queries reach. */
    method GetUnevaluatedEvents() returns (unevaluated: seq<Event>)
      ensures unevaluated == Orphans(agent.View())
    {
      var entries := agent.audit.GetEntries(None, QUERY_LIMIT);
      var events := agent.events.Query(NO_FILTER, QUERY_LIMIT);
      UnfilteredLists(agent.audit.notes, agent.events.events, entries, events);
      unevaluated := SelectUnevaluated(events, EvaluatedTargets(entries));
    }

    static method SelectUnevaluated(events: seq<Event>, targets: set<string>) returns (unevaluated: seq<Event>)
      ensures unevaluated == Unevaluated(events, targets)
    {
      unevaluated := [];
      for i := 0 to |events|
        invariant unevaluated == Unevaluated(events[..i], targets)
      {
        assert events[..i + 1][..i] == events[..i];
        if events[i].resourceId !in targets {
          unevaluated := unevaluated + [events[i]];
        }
      }
      assert events[..|events|] == events;
    }

    method ProcessAll(todo: seq<Event>, faults: seq<Fault>) returns (replayed: nat, alerts: nat, errors: nat)
      requires agent.Valid()
      modifies this`replayedIds, agent, agent.thresholds, agent.events, agent.audit
      ensures agent.Valid()
      ensures var p := ReplayAll(agent.thresholds.numerics, agent.thresholds.settings, old(agent.View()), todo, faults);
              agent.View() == p.agent && replayed == p.replayed && alerts == p.alerts && errors == p.errors
              && replayedIds == old(replayedIds) + p.done
    {
      replayed, alerts, errors := 0, 0, 0;
      ghost var m, s, a := agent.thresholds.numerics, agent.thresholds.settings, agent.View();
      for i := 0 to |todo|
        invariant agent.Valid()
        invariant var p := ReplayAll(m, s, a, todo[..i], faults);
                  agent.View() == p.agent && replayed == p.replayed && alerts == p.alerts && errors == p.errors
                  && replayedIds == old(replayedIds) + p.done
      {
        assert todo[..i + 1][..i] == todo[..i];
        var result := agent.ProcessEvent(todo[i], FaultAt(faults, i));
        match result
        case Raised =>
          errors := errors + 1;
        case Quiet =>
          replayed := replayed + 1;
          replayedIds := replayedIds + {todo[i].id};
        case Alerted(_) =>
          replayed := replayed + 1;
          replayedIds := replayedIds + {todo[i].id};
          alerts := alerts + 1;
      }
      assert todo[..|todo|] == todo;
    }

    method BoundHistory()
      modifies this`replayedIds
      ensures BoundedTo(old(replayedIds), replayedIds)
    {
      while |replayedIds| > MAX_REPLAYED_HISTORY
        invariant replayedIds <= old(replayedIds)
        invariant |old(replayedIds)| <= MAX_REPLAYED_HISTORY ==> replayedIds == old(replayedIds)
        invariant |old(replayedIds)| > MAX_REPLAYED_HISTORY ==> |replayedIds| >= MAX_REPLAYED_HISTORY
      {
        var id :| id in replayedIds;
        replayedIds := replayedIds - {id};
      }
    }
  }
}
