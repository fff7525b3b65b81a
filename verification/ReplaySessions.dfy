/**
 Replay over whole server sessions: events are ingested with or without evaluation, other components
 write to the audit trail, and passes are made, with ids of replayed events forgotten once there are
 too many of them.
 */
module ReplaySessions {
  import opened Collections
  import opened EventStores
  import opened Thresholds
  import opened AlertAgents
  import opened Replays

  datatype Session = Session(agent: Agent, replayed: set<string>)

  const START := Session(Agent([], map[], [], [], []), {})

  datatype SessionStep =
    | Ingest(batch: seq<Event>)                               // stored, not evaluated
    | ProcessOne(event: Event, fault: Fault)                  // stored and evaluated
    | OtherNote(name: string, target: string)                 // another component writes to the trail
    | Pass(faults: seq<Fault>, forgotten: set<string>)        // a replay, and the ids it drops if it must

  /** What a pass would try now. */
  function Todo(x: Session): seq<Event> {
    Fresh(Orphans(x.agent), x.replayed)
  }

  /** Ids are dropped only when there are too many. */
  function Bounded(ids: set<string>, forgotten: set<string>): set<string> {
    if |ids| > MAX_REPLAYED_HISTORY then ids - forgotten else ids
  }

  function WithNote(a: Agent, name: string, target: string): Agent {
    a.(audit := a.audit + [Note(OtherAction(name), target)])
  }

  function Apply(m: Numerics, s: Settings, x: Session, step: SessionStep): Session {
    match step
    case Ingest(batch) => x.(agent := x.agent.(store := StoredAll(x.agent.store, batch)))
    case ProcessOne(e, fault) => x.(agent := Process(m, s, x.agent, e, fault).0)
    case OtherNote(name, target) => x.(agent := WithNote(x.agent, name, target))
    case Pass(faults, forgotten) =>
      if Todo(x) == [] then x
      else
        var p := ReplayAll(m, s, x.agent, Todo(x), faults);
        Session(Logged(p.agent), Bounded(x.replayed + p.done, forgotten))
  }

  function Continue(m: Numerics, s: Settings, x: Session, steps: seq<SessionStep>): Session {
    if steps == [] then x
    else Apply(m, s, Continue(m, s, x, steps[..|steps| - 1]), steps[|steps| - 1])
  }

  /** The pass the server's objects make is such a step, whichever ids they drop. */
  lemma ServerPassIsAStep(m: Numerics, s: Settings, a: Agent, replayed: set<string>, faults: seq<Fault>,
                          after: Agent, remembered: set<string>, report: Report)
    returns (forgotten: set<string>)
    requires PassDone(m, s, a, replayed, faults, after, remembered, report)
    ensures Apply(m, s, Session(a, replayed), Pass(faults, forgotten)) == Session(after, remembered)
  {
    forgotten := {};
    if Todo(Session(a, replayed)) != [] {
      var all := replayed + ReplayAll(m, s, a, Todo(Session(a, replayed)), faults).done;
      forgotten := all - remembered;
      assert all - forgotten == remembered;
    }
  }

  /** What the other steps do: ingesting only stores, an event that is processed without an exception is
      on the trail from then on, and other components only write their note. */
  lemma StepsDoTheirPart(m: Numerics, s: Settings, x: Session, batch: seq<Event>, e: Event, fault: Fault, name: string, target: string)
    ensures var y := Apply(m, s, x, Ingest(batch));
            && y.replayed == x.replayed && y.agent.audit == x.agent.audit && y.agent.history == x.agent.history
            && x.agent.store <= y.agent.store && forall id :: Knows(y.agent.store, id) <==> Knows(x.agent.store, id) || Knows(batch, id)
    ensures var y, r := Apply(m, s, x, ProcessOne(e, fault)), Process(m, s, x.agent, e, fault).1;
            && y.replayed == x.replayed && Knows(y.agent.store, e.id)
            && (r != Raised ==> e.resourceId in EvaluatedTargets(y.agent.audit))
            && (r.Alerted? ==> y.agent.dispatched == x.agent.dispatched + [r.alert])
            && (r == Raised ==> y.agent.audit == x.agent.audit)
    ensures var y := Apply(m, s, x, OtherNote(name, target));
            && y.replayed == x.replayed && y.agent == x.agent.(audit := x.agent.audit + [Note(OtherAction(name), target)])
  {
    StoredAllKeepsAndKnows(x.agent.store, batch);
    ProcessLeavesATrace(m, s, x.agent, e, fault);
    KnowsPush(x.agent.store, e, e.id);
  }

  // ---------------------------------------------------------------- what every session keeps

  /** Ids in the store are distinct, and everything remembered as replayed is stored and on the trail. */
  ghost predicate SessionOk(x: Session) {
    && DistinctIds(x.agent.store) && Consistent(x.agent, x.replayed)
    && forall id :: id in x.replayed ==> Knows(x.agent.store, id)
  }

  lemma KnownIsNotNew(store: seq<Event>, more: seq<Event>, i: nat, id: string)
    requires DistinctIds(more) && store <= more && Knows(store, id) && i < |more| && more[i].id == id
    ensures i < |store|
  {
    var j :| 0 <= j < |store| && store[j].id == id;
    assert more[j] == store[j];
  }

  lemma IngestKeepsOk(m: Numerics, s: Settings, x: Session, batch: seq<Event>)
    requires SessionOk(x)
    ensures SessionOk(Apply(m, s, x, Ingest(batch)))
  {
    var y := Apply(m, s, x, Ingest(batch));
    StoredAllKeepsAndKnows(x.agent.store, batch);
    forall i | 0 <= i < |y.agent.store| && y.agent.store[i].id in y.replayed
      ensures y.agent.store[i].resourceId in EvaluatedTargets(y.agent.audit)
    {
      KnownIsNotNew(x.agent.store, y.agent.store, i, y.agent.store[i].id);
      assert y.agent.store[i] == x.agent.store[i];
    }
  }

  lemma ProcessKeepsOk(m: Numerics, s: Settings, x: Session, e: Event, fault: Fault)
    requires SessionOk(x)
    ensures SessionOk(Apply(m, s, x, ProcessOne(e, fault)))
  {
    ProcessingKeepsConsistent(m, s, x.agent, x.replayed, e, fault);
    ProcessLeavesATrace(m, s, x.agent, e, fault);
    if !Knows(x.agent.store, e.id) {
      NewIdKeepsDistinct(x.agent.store, e);
    }
  }

  lemma NoteKeepsOk(m: Numerics, s: Settings, x: Session, name: string, target: string)
    requires SessionOk(x)
    ensures SessionOk(Apply(m, s, x, OtherNote(name, target)))
  {
    TargetsPush(x.agent.audit, Note(OtherAction(name), target));
  }

  lemma BoundedKeepsOk(x: Session, forgotten: set<string>)
    requires SessionOk(x)
    ensures SessionOk(x.(replayed := Bounded(x.replayed, forgotten)))
  {
    assert Bounded(x.replayed, forgotten) <= x.replayed;
  }

  /** A pass that has something to try, before ids are dropped. */
  function Passed(m: Numerics, s: Settings, x: Session, faults: seq<Fault>): Session {
    var p := ReplayAll(m, s, x.agent, Todo(x), faults);
    Session(Logged(p.agent), x.replayed + p.done)
  }

  lemma PassApplied(m: Numerics, s: Settings, x: Session, faults: seq<Fault>, forgotten: set<string>)
    ensures var y := Apply(m, s, x, Pass(faults, forgotten));
            if Todo(x) == [] then y == x
            else y == Passed(m, s, x, faults).(replayed := Bounded(Passed(m, s, x, faults).replayed, forgotten))
  {
  }

  lemma PassedIsOk(m: Numerics, s: Settings, x: Session, faults: seq<Fault>)
    requires SessionOk(x)
    ensures SessionOk(Passed(m, s, x, faults))
  {
    ReplayingKeepsConsistent(m, s, x.agent, x.replayed, faults);
  }

  lemma PassKeepsOk(m: Numerics, s: Settings, x: Session, faults: seq<Fault>, forgotten: set<string>)
    requires SessionOk(x)
    ensures SessionOk(Apply(m, s, x, Pass(faults, forgotten)))
  {
    PassApplied(m, s, x, faults, forgotten);
    PassedIsOk(m, s, x, faults);
    BoundedKeepsOk(Passed(m, s, x, faults), forgotten);
  }

  lemma {:induction false} SessionsStayOk(m: Numerics, s: Settings, steps: seq<SessionStep>)
    ensures SessionOk(Continue(m, s, START, steps))
  {
    if steps != [] {
      var n := |steps| - 1;
      var x := Continue(m, s, START, steps[..n]);
      SessionsStayOk(m, s, steps[..n]);
      match steps[n]
      case Ingest(batch) => IngestKeepsOk(m, s, x, batch);
      case ProcessOne(e, fault) => ProcessKeepsOk(m, s, x, e, fault);
      case OtherNote(name, target) => NoteKeepsOk(m, s, x, name, target);
      case Pass(faults, forgotten) => PassKeepsOk(m, s, x, faults, forgotten);
    }
  }

  lemma NothingFoundNothingTried(x: Session)
    requires Orphans(x.agent) == []
    ensures Todo(x) == []
  {
  }

  lemma PassIsComplete(m: Numerics, s: Settings, x: Session, faults: seq<Fault>, forgotten: set<string>)
    requires SessionOk(x) && UnderCaps(x.agent, |Todo(x)|)
    ensures var y := Apply(m, s, x, Pass(faults, forgotten));
            var p := ReplayAll(m, s, x.agent, Todo(x), faults);
            && Todo(x) == Orphans(x.agent) && |p.oks| == |Todo(x)|
            && (forall e :: e in Orphans(y.agent) ==> e in Todo(x) && !SucceededAs(Todo(x), p.oks, e.id))
            && (p.errors == 0 ==> Todo(y) == [])
  {
    var y := Apply(m, s, x, Pass(faults, forgotten));
    OnlyFailuresRemain(m, s, x.agent, x.replayed, faults);
    PassApplied(m, s, x, faults, forgotten);
    if Todo(x) == [] {
      assert Orphans(y.agent) == [];
    } else {
      var p := ReplayAll(m, s, x.agent, Todo(x), faults);
      assert y.agent == Logged(p.agent);
      if p.errors == 0 {
        NothingFoundNothingTried(y);
      }
    }
  }

  /** At every pass of every session that finds store and trail under the caps: every unevaluated event
      is tried, only events that failed in this pass are unevaluated after it, and if none failed the next
      replay finds nothing to do. */
  lemma ReplayIsCompleteInEverySession(m: Numerics, s: Settings, steps: seq<SessionStep>, faults: seq<Fault>,
                                       forgotten: set<string>)
    requires var x := Continue(m, s, START, steps); UnderCaps(x.agent, |Todo(x)|)
    ensures var x := Continue(m, s, START, steps);
            var y := Apply(m, s, x, Pass(faults, forgotten));
            var p := ReplayAll(m, s, x.agent, Todo(x), faults);
            && Todo(x) == Orphans(x.agent) && |p.oks| == |Todo(x)|
            && (forall e :: e in Orphans(y.agent) ==> e in Todo(x) && !SucceededAs(Todo(x), p.oks, e.id))
            && (p.errors == 0 ==> Todo(y) == [])
  {
    SessionsStayOk(m, s, steps);
    PassIsComplete(m, s, Continue(m, s, START, steps), faults, forgotten);
  }

  // ---------------------------------------------------------------- beyond the caps

  /** The last note that evaluates `r` stands at `i`. */
  predicate LastEvaluation(audit: seq<Note>, r: string, i: nat) {
    && i < |audit| && Evaluates(audit[i]) && audit[i].target == r
    && forall k :: i < k < |audit| ==> !(Evaluates(audit[k]) && audit[k].target == r)
  }

  /** A resource counts as evaluated exactly while its last evaluation is among the latest notes. */
  lemma EvaluatedExactlyWhileInReach(audit: seq<Note>, r: string, i: nat, limit: nat)
    requires limit > 0 && LastEvaluation(audit, r, i)
    ensures r in EvaluatedTargets(LastLimit(audit, limit)) <==> |audit| - i <= limit
  {
    var latest := LastLimit(audit, limit);
    var skipped := |audit| - |latest|;
    if skipped <= i {
      assert latest[i - skipped] == audit[i];
    } else {
      forall n | n in latest && Evaluates(n) ensures n.target != r {
        var k :| 0 <= k < |latest| && latest[k] == n;
        assert audit[skipped + k] == n;
      }
    }
  }

  function OtherNotes(n: nat): seq<SessionStep> {
    seq(n, _ => OtherNote("", ""))
  }

  lemma {:induction false} AfterOtherNotes(m: Numerics, s: Settings, x: Session, n: nat, r: string, i: nat)
    requires LastEvaluation(x.agent.audit, r, i)
    ensures var y := Continue(m, s, x, OtherNotes(n));
            && y.replayed == x.replayed && y.agent.store == x.agent.store
            && |y.agent.audit| == |x.agent.audit| + n && LastEvaluation(y.agent.audit, r, i)
  {
    if n > 0 {
      assert OtherNotes(n)[..n - 1] == OtherNotes(n - 1);
      AfterOtherNotes(m, s, x, n - 1, r, i);
    }
  }

  /** Enough unrelated notes, exactly as many as push the last evaluation out of reach, make a replayed
      event unevaluated again; it is then reported but not tried. */
  lemma OtherNotesHideAnEvaluation(m: Numerics, s: Settings, x: Session, e: Event, i: nat, n: nat)
    requires e in LastLimit(x.agent.store, QUERY_LIMIT) && e.id in x.replayed
    requires LastEvaluation(x.agent.audit, e.resourceId, i)
    ensures var y := Continue(m, s, x, OtherNotes(n));
            && (e in Orphans(y.agent) <==> |x.agent.audit| + n - i > 10000)
            && e !in Todo(y)
  {
    var y := Continue(m, s, x, OtherNotes(n));
    AfterOtherNotes(m, s, x, n, e.resourceId, i);
    EvaluatedExactlyWhileInReach(y.agent.audit, e.resourceId, i, QUERY_LIMIT);
    UnevaluatedAre(LastLimit(y.agent.store, QUERY_LIMIT), EvaluatedTargets(LastLimit(y.agent.audit, QUERY_LIMIT)), e);
    FreshAre(Orphans(y.agent), y.replayed, e);
  }

  /** A session that gets there: one event is ingested, replayed with success, and then enough other
      notes are written. */
  lemma ReplayedEventGetsStuck(m: Numerics, s: Settings, e: Event, n: nat)
    requires s.minDatapoints > 0 && Complete(DefaultsFor(s, e.resourceType))
    ensures var x := Continue(m, s, START, [Ingest([e]), Pass([], {})]);
            var y := Continue(m, s, x, OtherNotes(n));
            && y.replayed == {e.id} && y.agent.store == [e]
            && (e in Orphans(y.agent) <==> n + 2 > 10000)
            && e !in Todo(y)
  {
    var x := Continue(m, s, START, [Ingest([e]), Pass([], {})]);
    FirstReplay(m, s, e);
    OtherNotesHideAnEvaluation(m, s, x, e, 0, n);
    AfterOtherNotes(m, s, x, n, e.resourceId, 0);
  }

  /** The event is on the trail and remembered, and the pass has been noted. */
  predicate ReplayedOnce(x: Session, e: Event) {
    && x.replayed == {e.id} && x.agent.store == [e]
    && |x.agent.audit| == 2 && LastEvaluation(x.agent.audit, e.resourceId, 0)
  }

  lemma FirstReplay(m: Numerics, s: Settings, e: Event)
    requires s.minDatapoints > 0 && Complete(DefaultsFor(s, e.resourceType))
    ensures ReplayedOnce(Continue(m, s, START, [Ingest([e]), Pass([], {})]), e)
  {
    var steps := [Ingest([e]), Pass([], {})];
    assert steps[..1] == [Ingest([e])];
    FirstIngest(m, s, e);
    FirstPass(m, s, e);
  }

  lemma FirstPass(m: Numerics, s: Settings, e: Event)
    requires s.minDatapoints > 0 && Complete(DefaultsFor(s, e.resourceType))
    ensures ReplayedOnce(Apply(m, s, Session(Agent([e], map[], [], [], []), {}), Pass([], {})), e)
  {
    var x := Session(Agent([e], map[], [], [], []), {});
    OneOrphan(x, e);
    OneAttempt(m, s, x.agent, e);
    PassApplied(m, s, x, [], {});
    assert |{e.id}| == 1;
  }

  lemma FirstIngest(m: Numerics, s: Settings, e: Event)
    ensures Continue(m, s, START, [Ingest([e])]) == Session(Agent([e], map[], [], [], []), {})
  {
    var first := [Ingest([e])];
    assert first[..0] == [] && Continue(m, s, START, []) == START;
    assert StoredAll([], [e]) == [e] by {
      assert [e][..0] == [];
      assert StoredAll([], []) == [];
    }
  }

  lemma OneOrphan(x: Session, e: Event)
    requires x.agent.store == [e] && x.agent.audit == [] && x.replayed == {}
    ensures Todo(x) == [e]
  {
    assert LastLimit(x.agent.audit, QUERY_LIMIT) == [];
    assert EvaluatedTargets([]) == {};
    assert [e][..0] == [];
    assert Unevaluated([e], {}) == [e];
    assert Fresh([e], {}) == [e];
  }

  lemma OneAttempt(m: Numerics, s: Settings, a: Agent, e: Event)
    requires s.minDatapoints > 0 && Complete(DefaultsFor(s, e.resourceType)) && a == Agent([e], map[], [], [], [])
    ensures var p := ReplayAll(m, s, a, [e], []);
            && p.done == {e.id} && p.agent.store == [e]
            && |p.agent.audit| == 1 && Evaluates(p.agent.audit[0]) && p.agent.audit[0].target == e.resourceId
  {
    assert [e][..0] == [];
    assert ReplayAll(m, s, a, [], []) == Progress(a, [], {}, 0, 0, 0);
    assert Knows(a.store, e.id) by {
      assert a.store[0].id == e.id;
    }
    assert Evaluate(m, s, a, e).Some?;
  }

  // ---------------------------------------------------------------- until when it is stuck

  /** The pass drops the id: there are too many, and this is one of those dropped. */
  predicate Drops(m: Numerics, s: Settings, x: Session, step: SessionStep, id: string) {
    && step.Pass? && Todo(x) != []
    && |x.replayed + ReplayAll(m, s, x.agent, Todo(x), step.faults).done| > MAX_REPLAYED_HISTORY
    && id in step.forgotten
  }

  /** The pass replays the event with success, and does not drop it at once. */
  predicate Learns(m: Numerics, s: Settings, x: Session, step: SessionStep, id: string) {
    && step.Pass? && Todo(x) != [] && !Drops(m, s, x, step, id)
    && id in ReplayAll(m, s, x.agent, Todo(x), step.faults).done
  }

  lemma RememberedAfterStep(m: Numerics, s: Settings, x: Session, step: SessionStep, id: string)
    ensures id in Apply(m, s, x, step).replayed <==>
      !Drops(m, s, x, step, id) && (id in x.replayed || Learns(m, s, x, step, id))
  {
  }

  /** Step `j` of the continuation dropped the id, and no later one replayed it again. */
  ghost predicate DroppedAt(m: Numerics, s: Settings, x: Session, more: seq<SessionStep>, id: string, j: nat) {
    && j < |more| && Drops(m, s, Continue(m, s, x, more[..j]), more[j], id)
    && forall k :: j < k < |more| ==> !Learns(m, s, Continue(m, s, x, more[..k]), more[k], id)
  }

  ghost predicate Dropped(m: Numerics, s: Settings, x: Session, more: seq<SessionStep>, id: string) {
    exists j: nat :: DroppedAt(m, s, x, more, id, j)
  }

  lemma DroppedAtPush(m: Numerics, s: Settings, x: Session, more: seq<SessionStep>, step: SessionStep, id: string, j: nat)
    requires j < |more|
    ensures DroppedAt(m, s, x, more + [step], id, j) <==>
      DroppedAt(m, s, x, more, id, j) && !Learns(m, s, Continue(m, s, x, more), step, id)
  {
    var all := more + [step];
    assert all[..|more|] == more && all[|more|] == step;
    assert forall k :: 0 <= k < |more| ==> all[..k] == more[..k] && all[k] == more[k];
  }

  lemma DroppedPush(m: Numerics, s: Settings, x: Session, more: seq<SessionStep>, step: SessionStep, id: string)
    ensures var y := Continue(m, s, x, more);
            Dropped(m, s, x, more + [step], id) <==>
              Drops(m, s, y, step, id) || (Dropped(m, s, x, more, id) && !Learns(m, s, y, step, id))
  {
    var all, y := more + [step], Continue(m, s, x, more);
    assert all[..|more|] == more && all[|more|] == step;
    if Dropped(m, s, x, all, id) {
      var j: nat :| DroppedAt(m, s, x, all, id, j);
      if j < |more| {
        DroppedAtPush(m, s, x, more, step, id, j);
      }
    }
    if Drops(m, s, y, step, id) {
      assert DroppedAt(m, s, x, all, id, |more|);
    } else if Dropped(m, s, x, more, id) && !Learns(m, s, y, step, id) {
      var j: nat :| DroppedAt(m, s, x, more, id, j);
      DroppedAtPush(m, s, x, more, step, id, j);
    }
  }

  ghost predicate Remembered(m: Numerics, s: Settings, x: Session, more: seq<SessionStep>, id: string) {
    id in Continue(m, s, x, more).replayed <==> !Dropped(m, s, x, more, id)
  }

  lemma OneMoreStepRemembered(m: Numerics, s: Settings, x: Session, more: seq<SessionStep>, step: SessionStep, id: string)
    requires Remembered(m, s, x, more, id)
    ensures Remembered(m, s, x, more + [step], id)
  {
    var y := Continue(m, s, x, more);
    assert (more + [step])[..|more|] == more;
    DroppedPush(m, s, x, more, step, id);
    RememberedAfterStep(m, s, y, step, id);
    LearnsOrDrops(m, s, y, step, id);
  }

  lemma LearnsOrDrops(m: Numerics, s: Settings, x: Session, step: SessionStep, id: string)
    ensures !(Learns(m, s, x, step, id) && Drops(m, s, x, step, id))
  {
  }

  lemma EndsInItsLast(steps: seq<SessionStep>)
    requires steps != []
    ensures steps[..|steps| - 1] + [steps[|steps| - 1]] == steps
  {
  }

  lemma NothingDroppedYet(m: Numerics, s: Settings, x: Session, id: string)
    requires id in x.replayed
    ensures Remembered(m, s, x, [], id)
  {
  }

  /** A replayed id is remembered exactly until it is dropped, and again once replayed again. */
  lemma {:induction false} RememberedUntilDropped(m: Numerics, s: Settings, x: Session, more: seq<SessionStep>, id: string)
    requires id in x.replayed
    ensures Remembered(m, s, x, more, id)
  {
    if more == [] {
      NothingDroppedYet(m, s, x, id);
    } else {
      var less, last := more[..|more| - 1], more[|more| - 1];
      RememberedUntilDropped(m, s, x, less, id);
      OneMoreStepRemembered(m, s, x, less, last, id);
      assert less + [last] == more by { EndsInItsLast(more); }
    }
  }

  /** From any state in which an event counts as replayed, and over any continuation: a pass would try the
      event exactly when its id has been dropped since, no evaluation of its resource is in reach, and the
      event itself still is. */
  lemma TriedAgainExactlyOnceDropped(m: Numerics, s: Settings, x: Session, more: seq<SessionStep>, e: Event)
    requires e.id in x.replayed
    ensures var y := Continue(m, s, x, more);
            e in Todo(y) <==>
              && Dropped(m, s, x, more, e.id)
              && e.resourceId !in EvaluatedTargets(LastLimit(y.agent.audit, QUERY_LIMIT))
              && e in LastLimit(y.agent.store, QUERY_LIMIT)
  {
    var y := Continue(m, s, x, more);
    RememberedUntilDropped(m, s, x, more, e.id);
    UnevaluatedAre(LastLimit(y.agent.store, QUERY_LIMIT), EvaluatedTargets(LastLimit(y.agent.audit, QUERY_LIMIT)), e);
    FreshAre(Orphans(y.agent), y.replayed, e);
  }
}
