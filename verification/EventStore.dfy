/** The in-memory event store: a list and an index of the ids in it, kept in step. */
module EventStores {
  import opened Collections

  datatype Event = Event(
    id: string, provider: string, stamp: int, resourceType: string, resourceId: string,
    creatorIdentity: string, creatorEmail: string, cost: real)

  predicate Knows(events: seq<Event>, id: string) {
    exists i :: 0 <= i < |events| && events[i].id == id
  }

  /** Storing an event whose id is known changes nothing. */
  function Stored(events: seq<Event>, e: Event): seq<Event> {
    if Knows(events, e.id) then events else events + [e]
  }

  function StoredAll(events: seq<Event>, batch: seq<Event>): seq<Event> {
    if batch == [] then events else Stored(StoredAll(events, batch[..|batch| - 1]), batch[|batch| - 1])
  }

  ghost predicate DistinctIds(events: seq<Event>) {
    forall i, j :: 0 <= i < j < |events| ==> events[i].id != events[j].id
  }

  /** Python's s[-limit:], which for a limit of zero is the whole list. */
  function LastLimit<T>(s: seq<T>, limit: int): seq<T> {
    if limit > 0 then (if limit <= |s| then s[|s| - limit..] else s)
    else if -limit <= |s| then s[-limit..] else []
  }

  /** `r` is what s[-limit:] leaves of `s`: a suffix, at most `limit` long for a positive limit, all of it
      for zero, and without the first ones for a negative limit. */
  predicate IsLatest<T(==)>(r: seq<T>, s: seq<T>, limit: int) {
    && |r| <= |s| && r == s[|s| - |r|..]
    && |r| == (if limit > 0 then (if limit <= |s| then limit else |s|)
               else if -limit <= |s| then |s| + limit
               else 0)
  }

  lemma LatestIsUnique<T>(r: seq<T>, s: seq<T>, limit: int)
    requires IsLatest(r, s, limit)
    ensures r == LastLimit(s, limit)
  {
  }

  /** There always is such a list: the last `limit` elements, in order, for a positive limit. */
  lemma LastLimitIsLatest<T>(s: seq<T>, limit: int)
    ensures IsLatest(LastLimit(s, limit), s, limit)
    ensures (limit > 0 && |s| <= limit) || limit == 0 ==> LastLimit(s, limit) == s
    ensures 0 < limit < |s| ==>
      && |LastLimit(s, limit)| == limit
      && forall k :: 0 <= k < limit ==> LastLimit(s, limit)[k] == s[|s| - limit + k]
  {
  }

  /** The filters of a query; an empty text or None asks for nothing. */
  datatype Filter = Filter(provider: string, resourceType: string, creator: string, since: Option<int>, until: Option<int>)

  const NO_FILTER := Filter("", "", "", None, None)

  predicate Matches(q: Filter, e: Event) {
    && (q.provider != "" ==> e.provider == q.provider)
    && (q.resourceType != "" ==> e.resourceType == q.resourceType)
    && (q.creator != "" ==> e.creatorEmail == q.creator || e.creatorIdentity == q.creator)
    && (q.since.Some? ==> e.stamp >= q.since.value)
    && (q.until.Some? ==> e.stamp <= q.until.value)
  }

  function Matching(events: seq<Event>, q: Filter): seq<Event> {
    if events == [] then []
    else
      var n := |events| - 1;
      if Matches(q, events[n]) then Matching(events[..n], q) + [events[n]] else Matching(events[..n], q)
  }

  lemma {:induction false} MatchingAre(events: seq<Event>, q: Filter, e: Event)
    ensures e in Matching(events, q) <==>
      && e in events
      && (q.provider == "" || e.provider == q.provider)
      && (q.resourceType == "" || e.resourceType == q.resourceType)
      && (q.creator == "" || q.creator == e.creatorEmail || q.creator == e.creatorIdentity)
      && (q.since.Some? ==> q.since.value <= e.stamp)
      && (q.until.Some? ==> e.stamp <= q.until.value)
  {
    if events != [] {
      var n := |events| - 1;
      MatchingAre(events[..n], q, e);
      assert events == events[..n] + [events[n]];
    }
  }

  lemma {:induction false} WithoutFilterAllMatch(events: seq<Event>)
    ensures Matching(events, NO_FILTER) == events
  {
    if events != [] {
      var n := |events| - 1;
      WithoutFilterAllMatch(events[..n]);
      assert events == events[..n] + [events[n]];
    }
  }

  lemma {:induction false} StoredAllKeepsAndKnows(events: seq<Event>, batch: seq<Event>)
    ensures events <= StoredAll(events, batch)
    ensures forall id :: Knows(StoredAll(events, batch), id) <==> Knows(events, id) || Knows(batch, id)
    ensures DistinctIds(events) ==> DistinctIds(StoredAll(events, batch))
  {
    if batch != [] {
      var n := |batch| - 1;
      var before, after := StoredAll(events, batch[..n]), StoredAll(events, batch);
      StoredAllKeepsAndKnows(events, batch[..n]);
      forall id ensures Knows(after, id) <==> Knows(events, id) || Knows(batch, id) {
        KnowsPush(batch[..n], batch[n], id);
        KnowsPush(before, batch[n], id);
        assert batch[..n] + [batch[n]] == batch;
      }
    }
  }

  /** What ingesting keeps of a batch: for each new id the first event that carries it, as it is, behind
      what was there. */
  lemma {:induction false} StoredAllAre(events: seq<Event>, batch: seq<Event>, e: Event)
    ensures e in StoredAll(events, batch) <==>
      e in events || exists i :: 0 <= i < |batch| && batch[i] == e && !Knows(events, e.id) && !Knows(batch[..i], e.id)
  {
    if batch != [] {
      var n := |batch| - 1;
      StoredAllAre(events, batch[..n], e);
      StoredAllKeepsAndKnows(events, batch[..n]);
      assert forall i :: 0 <= i < n ==> batch[..n][..i] == batch[..i] && batch[..n][i] == batch[i];
    }
  }

  lemma KnowsPush(events: seq<Event>, e: Event, id: string)
    ensures Knows(events + [e], id) <==> Knows(events, id) || e.id == id
  {
    var all := events + [e];
    if Knows(events, id) {
      var i :| 0 <= i < |events| && events[i].id == id;
      assert all[i].id == id;
    }
    if e.id == id {
      assert all[|events|].id == id;
    }
  }

  /** Ingesting is idempotent: what is already stored, in whatever order it comes again, adds nothing. */
  lemma {:induction false} StoringAgainChangesNothing(events: seq<Event>, again: seq<Event>)
    requires forall i :: 0 <= i < |again| ==> Knows(events, again[i].id)
    ensures StoredAll(events, again) == events
  {
    if again != [] {
      StoringAgainChangesNothing(events, again[..|again| - 1]);
    }
  }

  class InMemoryEventStore {
    var events: seq<Event>
    var index: set<string>

    ghost predicate Valid()
      reads this
    {
      && DistinctIds(events)
      && (forall i :: 0 <= i < |events| ==> events[i].id in index)
      && (forall id :: id in index ==> Knows(events, id))
    }

    constructor ()
      ensures Valid() && events == []
    {
      events, index := [], {};
    }

    method Store(e: Event)
      requires Valid()
      modifies this
      ensures Valid() && events == Stored(old(events), e)
    {
      if e.id !in index {
        IndexPush(events, e, index);
        events := events + [e];
        index := index + {e.id};
      }
    }

    /** The count is the number of events that were new. */
    method StoreBatch(batch: seq<Event>) returns (count: nat)
      requires Valid()
      modifies this
      ensures Valid() && events == StoredAll(old(events), batch) && |events| == |old(events)| + count
    {
      count := 0;
      for i := 0 to |batch|
        invariant Valid() && events == StoredAll(old(events), batch[..i]) && |events| == |old(events)| + count
      {
        assert batch[..i + 1][..i] == batch[..i];
        if batch[i].id !in index {
          IndexPush(events, batch[i], index);
          events := events + [batch[i]];
          index := index + {batch[i].id};
          count := count + 1;
        }
      }
      assert batch[..|batch|] == batch;
    }

    /** The events that pass every filter, in order, cut to the latest ones. */
    method Query(q: Filter, limit: int) returns (r: seq<Event>)
      ensures IsLatest(r, Matching(events, q), limit)
    {
      var results := [];
      for i := 0 to |events|
        invariant results == Matching(events[..i], q)
      {
        assert events[..i + 1][..i] == events[..i];
        var e := events[i];
        if q.provider != "" && e.provider != q.provider {
          continue;
        }
        if q.resourceType != "" && e.resourceType != q.resourceType {
          continue;
        }
        if q.creator != "" && q.creator != e.creatorEmail && q.creator != e.creatorIdentity {
          continue;
        }
        if q.since.Some? && e.stamp < q.since.value {
          continue;
        }
        if q.until.Some? && e.stamp > q.until.value {
          continue;
        }
        results := results + [e];
      }
      assert events[..|events|] == events;
      if limit > 0 {
        return if limit <= |results| then results[|results| - limit..] else results;
      }
      return if -limit <= |results| then results[-limit..] else [];
    }

    method Exists(id: string) returns (yes: bool)
      requires Valid()
      ensures yes <==> Knows(events, id)
    {
      return id in index;
    }
  }

  lemma IndexPush(events: seq<Event>, e: Event, index: set<string>)
    requires e.id !in index && DistinctIds(events)
    requires forall i :: 0 <= i < |events| ==> events[i].id in index
    requires forall id :: id in index ==> Knows(events, id)
    ensures Stored(events, e) == events + [e] && DistinctIds(events + [e])
    ensures forall id :: id in index + {e.id} ==> Knows(events + [e], id)
  {
    forall id | id in index + {e.id} ensures Knows(events + [e], id) {
      KnowsPush(events, e, id);
    }
  }
}
