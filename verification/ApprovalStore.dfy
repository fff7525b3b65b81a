/**
 The approval store as the program runs it: request objects shared with their callers, whose verdict
 and decisions are changed in place, held in an insertion-ordered dictionary.
 */
module ApprovalStores {
  import opened Collections
  import opened Approvals

  /** `list_pending` lists this record. */
  predicate Listed(r: Record, session: string, approver: string, now: int) {
    r.verdict == Pending && now <= r.expiresAt && Selected(r, session, approver)
  }

  class ApprovalRequest {
    const id: string
    const session: string
    const requestedBy: string
    const pool: seq<string>
    const quorum: int
    const expiresAt: int
    var verdict: Verdict
    var decisions: seq<Decision>

    constructor (r: Record)
      ensures View() == r
    {
      id, session, requestedBy, pool := r.id, r.session, r.requestedBy, r.pool;
      quorum, expiresAt, verdict, decisions := r.quorum, r.expiresAt, r.verdict, r.decisions;
    }

    ghost function View(): Record
      reads this
    {
      Record(id, session, requestedBy, pool, quorum, expiresAt, verdict, decisions)
    }

    predicate PastExpiry(now: int)
      ensures PastExpiry(now) <==> expiresAt < now
    {
      now > expiresAt
    }

    /** Counts the approvals among the decisions. */
    method Satisfied() returns (yes: bool)
      ensures yes == IsSatisfied(View())
    {
      var approvals := 0;
      for i := 0 to |decisions|
        invariant approvals == CountApprovals(decisions[..i])
      {
        if decisions[i].verdict == Approved {
          approvals := approvals + 1;
        }
        assert decisions[..i + 1][..i] == decisions[..i];
      }
      assert decisions[..|decisions|] == decisions;
      yes := approvals >= quorum;
    }
  }

  lemma SameElements(s: Store, t: Store)
    requires |s| == |t| && forall j :: 0 <= j < |s| ==> s[j] == t[j]
    ensures s == t
  {
  }

  lemma PutPlaces(before: Store, r: Record)
    ensures Put(before, r) == if Find(before, r.id).Some? then before[Find(before, r.id).value := r] else before + [r]
  {
  }

  lemma StoredAt(before: Store, after: Store, i: nat, r: Record)
    requires |after| == |before| && Find(before, r.id) == Some(i) && after[i] == r
    requires forall j :: 0 <= j < |before| && j != i ==> after[j] == before[j]
    ensures after == Put(before, r)
  {
    PutPlaces(before, r);
    SameElements(after, before[i := r]);
  }

  lemma StoredLast(before: Store, after: Store, r: Record)
    requires |after| == |before| + 1 && Find(before, r.id).None? && after[|before|] == r
    requires forall j :: 0 <= j < |before| ==> after[j] == before[j]
    ensures after == Put(before, r)
  {
    assert Put(before, r) == before + [r] by { PutPlaces(before, r); }
    assert after == before + [r] by { OneMoreElement(before, after, r); }
  }

  lemma OneMoreElement(s: Store, t: Store, r: Record)
    requires |t| == |s| + 1 && t[|s|] == r && forall j :: 0 <= j < |s| ==> t[j] == s[j]
    ensures t == s + [r]
  {
  }

  lemma RespondNowhere(sign: string -> string, store: Store, id: string, approver: string, verdict: Verdict,
                       notes: string, now: int)
    requires Find(store, id).None? || (verdict != Approved && verdict != Denied)
    ensures Apply(sign, store, Respond(id, approver, verdict, notes, now)) == store
  {
  }

  lemma RespondAt(sign: string -> string, store: Store, i: nat, id: string, approver: string, verdict: Verdict,
                  notes: string, now: int)
    requires Find(store, id) == Some(i) && (verdict == Approved || verdict == Denied)
    ensures Apply(sign, store, Respond(id, approver, verdict, notes, now))
         == store[i := Decide(sign, store[i], approver, verdict, notes, now).0]
  {
  }

  lemma OneMorePending(store: Store, i: nat, session: string, approver: string, now: int)
    requires i < |store|
    ensures var r, before, after := store[i], ListPending(store[..i], session, approver, now),
                                    ListPending(store[..i + 1], session, approver, now);
            if Listed(r, session, approver, now) then after == before + [r] else after == before
  {
    assert store[..i + 1][..i] == store[..i];
  }

  lemma OneMoreExpired(store: Store, i: nat, now: int)
    requires i < |store|
    ensures var r, before, after := store[i], ListExpired(store[..i], now), ListExpired(store[..i + 1], now);
            if r.verdict == Pending && r.expiresAt < now then after == before + [r] else after == before
  {
    assert store[..i + 1][..i] == store[..i];
  }

  class ApprovalStore {
    const sign: string -> string
    var records: map<string, ApprovalRequest>
    /** The dictionary's insertion order. */
    var order: seq<string>

    ghost predicate Valid()
      reads this
    {
      && (forall i :: 0 <= i < |order| ==> order[i] in records)
      && (forall id :: id in records ==> id in order && records[id].id == id)
      && (forall i, j :: 0 <= i < j < |order| ==> order[i] != order[j])
    }

    ghost function ViewOf(ids: seq<string>): Store
      requires forall i :: 0 <= i < |ids| ==> ids[i] in records
      reads this, records.Values
      ensures |ViewOf(ids)| == |ids|
      ensures forall i :: 0 <= i < |ids| ==> ViewOf(ids)[i] == records[ids[i]].View()
    {
      if ids == [] then [] else ViewOf(ids[..|ids| - 1]) + [records[ids[|ids| - 1]].View()]
    }

    ghost function View(): Store
      requires Valid()
      reads this, records.Values
    {
      ViewOf(order)
    }

    constructor (sign: string -> string)
      ensures Valid() && View() == [] && this.sign == sign && records == map[]
    {
      this.sign := sign;
      records := map[];
      order := [];
    }

    /** The position `Find` reads off the view is the record's place in the dictionary. */
    lemma FindIsLookup(id: string)
      requires Valid()
      ensures id !in records ==> Find(View(), id) == None
      ensures id in records ==>
        Find(View(), id).Some? && order[Find(View(), id).value] == id
    {
      if id in records {
        var i :| 0 <= i < |order| && order[i] == id;
        assert View()[i].id == id;
      } else {
        forall i | 0 <= i < |order| ensures View()[i].id != id {
          assert order[i] in records;
        }
      }
    }

    /** Storing an object under its id changes the view at one place, or adds one at the end. */
    twostate lemma OneObjectStored(request: ApprovalRequest)
      requires old(Valid()) && Valid()
      requires records == old(records)[request.id := request]
      requires order == if request.id in old(records) then old(order) else old(order) + [request.id]
      requires forall id :: id in old(records) ==> unchanged(old(records)[id])
      requires request.id !in old(records) ==> Find(old(View()), request.id).None?
      requires request.id in old(records) ==>
        Find(old(View()), request.id).Some? && order[Find(old(View()), request.id).value] == request.id
      ensures View() == Put(old(View()), request.View())
    {
      var before, after, v := old(View()), View(), request.View();
      forall j | 0 <= j < |before| && order[j] != request.id ensures after[j] == before[j] {
        assert records[order[j]] == old(records)[order[j]];
      }
      if request.id in old(records) {
        StoredAt(before, after, Find(before, request.id).value, v);
      } else {
        StoredLast(before, after, v);
      }
    }

    twostate lemma StoringKeepsValid(request: ApprovalRequest)
      requires old(Valid()) && records == old(records)[request.id := request]
      requires order == if request.id in old(records) then old(order) else old(order) + [request.id]
      ensures Valid()
    {
      forall id | id in records ensures id in order && records[id].id == id {
        if id in old(records) {
          assert id in old(order);
        }
      }
    }

    /** `put`. */
    method PutRequest(request: ApprovalRequest)
      requires Valid()
      modifies this
      ensures Valid() && View() == Put(old(View()), request.View())
      ensures records == old(records)[request.id := request]
    {
      FindIsLookup(request.id);
      if request.id !in records {
        order := order + [request.id];
      }
      records := records[request.id := request];
      StoringKeepsValid(request);
      OneObjectStored(request);
    }

    method Get(id: string) returns (found: Option<ApprovalRequest>)
      requires Valid()
      ensures found == if id in records then Some(records[id]) else None
      ensures found.Some? <==> Find(View(), id).Some?
    {
      FindIsLookup(id);
      found := if id in records then Some(records[id]) else None;
    }

    ghost predicate ViewsAre(rs: seq<ApprovalRequest>, views: seq<Record>)
      reads rs
    {
      |rs| == |views| && forall i :: 0 <= i < |rs| ==> rs[i].View() == views[i]
    }

    /** The store's own objects, not copies of them. */
    ghost predicate Stored(rs: seq<ApprovalRequest>)
      reads this
    {
      forall i :: 0 <= i < |rs| ==> rs[i].id in records && records[rs[i].id] == rs[i]
    }

    /** These are the store's own objects, with these views. */
    ghost predicate Lists(rs: seq<ApprovalRequest>, views: seq<Record>)
      reads this, rs
    {
      ViewsAre(rs, views) && Stored(rs)
    }

    lemma OneMoreView(rs: seq<ApprovalRequest>, views: seq<Record>, r: ApprovalRequest)
      requires Lists(rs, views) && r.id in records && records[r.id] == r
      ensures Lists(rs + [r], views + [r.View()])
    {
    }

    lemma ViewAt(i: nat)
      requires Valid() && i < |order|
      ensures |View()| == |order| && order[i] in records
      ensures var r := records[order[i]]; r.View() == View()[i] && r.id in records && records[r.id] == r
    {
    }

    lemma WholeView()
      requires Valid()
      ensures |View()| == |order| && View()[..|order|] == View()
    {
    }

    lemma PendingStep(out: seq<ApprovalRequest>, i: nat, session: string, approver: string, now: int)
      requires Valid() && i < |order| == |View()| && order[i] in records
      requires Lists(out, ListPending(View()[..i], session, approver, now))
      ensures var r := records[order[i]];
              Lists(if Listed(r.View(), session, approver, now) then out + [r] else out,
                    ListPending(View()[..i + 1], session, approver, now))
    {
      ViewAt(i);
      OneMorePending(View(), i, session, approver, now);
      OneMoreView(out, ListPending(View()[..i], session, approver, now), records[order[i]]);
    }

    lemma ExpiredStep(out: seq<ApprovalRequest>, i: nat, now: int)
      requires Valid() && i < |order| == |View()| && order[i] in records
      requires Lists(out, ListExpired(View()[..i], now))
      ensures var r := records[order[i]];
              Lists(if r.verdict == Pending && r.PastExpiry(now) then out + [r] else out, ListExpired(View()[..i + 1], now))
    {
      ViewAt(i);
      OneMoreExpired(View(), i, now);
      OneMoreView(out, ListExpired(View()[..i], now), records[order[i]]);
    }

    /** `list_pending`: each filter that is not asked for is empty. */
    method AllPending(session: string, approver: string, now: int) returns (out: seq<ApprovalRequest>)
      requires Valid()
      ensures Lists(out, ListPending(View(), session, approver, now))
    {
      out := [];
      for i := 0 to |order|
        invariant Lists(out, ListPending(View()[..i], session, approver, now))
      {
        ViewAt(i);
        var r := records[order[i]];
        PendingStep(out, i, session, approver, now);
        if r.verdict != Pending || r.PastExpiry(now) {
          continue;
        }
        if session != "" && r.session != session {
          continue;
        }
        if approver != "" && r.pool != [] && approver !in r.pool {
          continue;
        }
        out := out + [r];
      }
      WholeView();
    }

    /** `list_expired`. */
    method AllExpired(now: int) returns (out: seq<ApprovalRequest>)
      requires Valid()
      ensures Lists(out, ListExpired(View(), now))
    {
      out := [];
      for i := 0 to |order|
        invariant Lists(out, ListExpired(View()[..i], now))
      {
        ViewAt(i);
        var r := records[order[i]];
        ExpiredStep(out, i, now);
        if r.verdict == Pending && r.PastExpiry(now) {
          out := out + [r];
        }
      }
      WholeView();
    }

    /** After one record object changed, the view changed at that record's place only. */
    twostate lemma OneRecordChanged(i: nat)
      requires old(Valid()) && Valid() && records == old(records) && order == old(order)
      requires i < |order|
      requires forall id :: id in records && id != order[i] ==> unchanged(records[id])
      ensures View() == old(View())[i := records[order[i]].View()]
    {
    }

    /** `revoke`. */
    method Withdraw(id: string, actor: string, reason: string) returns (found: Option<ApprovalRequest>)
      requires Valid()
      modifies records.Values
      ensures Valid() && View() == Apply(sign, old(View()), RevokeRequest(id, actor, reason))
      ensures found == if id in records then Some(records[id]) else None
    {
      FindIsLookup(id);
      if id !in records {
        return None;
      }
      var record := records[id];
      ghost var i := Find(View(), id).value;
      if record.verdict == Pending {
        record.verdict := Revoked;
        record.decisions := record.decisions + [Decision(actor, Revoked, reason, "")];
      }
      OneRecordChanged(i);
      return Some(record);
    }

    /** The error raised, if any; expiry is also recorded in the request before it is raised. */
    method RecordDecision(id: string, approver: string, verdict: Verdict, notes: string, now: int)
      returns (failure: Option<Failure>)
      requires Valid()
      modifies records.Values
      ensures Valid() && View() == Apply(sign, old(View()), Respond(id, approver, verdict, notes, now))
      ensures verdict != Approved && verdict != Denied <==> failure == Some(InvalidVerdict)
      ensures (verdict == Approved || verdict == Denied) && id !in records <==> failure == Some(NotFound)
      ensures (verdict == Approved || verdict == Denied) && id in records ==>
        failure == Decide(sign, old(records[id].View()), approver, verdict, notes, now).1
    {
      if verdict != Approved && verdict != Denied {
        RespondNowhere(sign, View(), id, approver, verdict, notes, now);
        return Some(InvalidVerdict);
      }
      if id !in records {
        FindIsLookup(id);
        RespondNowhere(sign, View(), id, approver, verdict, notes, now);
        return Some(NotFound);
      }
      failure := DecideFound(id, approver, verdict, notes, now);
    }

    method DecideFound(id: string, approver: string, verdict: Verdict, notes: string, now: int)
      returns (failure: Option<Failure>)
      requires Valid() && id in records && (verdict == Approved || verdict == Denied)
      modifies records.Values
      ensures Valid() && View() == Apply(sign, old(View()), Respond(id, approver, verdict, notes, now))
      ensures failure == Decide(sign, old(records[id].View()), approver, verdict, notes, now).1
      ensures failure != Some(InvalidVerdict) && failure != Some(NotFound)
    {
      FindIsLookup(id);
      ghost var start := View();
      ghost var i := Find(start, id).value;
      RespondAt(sign, start, i, id, approver, verdict, notes, now);
      failure := DecideInPlace(records[id], approver, verdict, notes, now);
      OneRecordChanged(i);
    }

    method DecideInPlace(record: ApprovalRequest, approver: string, verdict: Verdict, notes: string, now: int)
      returns (failure: Option<Failure>)
      requires verdict == Approved || verdict == Denied
      modifies record
      ensures (record.View(), failure) == Decide(sign, old(record.View()), approver, verdict, notes, now)
      ensures failure != Some(InvalidVerdict) && failure != Some(NotFound)
    {
      if record.PastExpiry(now) {
        record.verdict := Expired;
        return Some(PastExpiry);
      }
      if record.verdict != Pending {
        return None;
      }
      if approver == record.requestedBy {
        return Some(OwnRequest);
      }
      if exists i :: 0 <= i < |record.decisions| && record.decisions[i].approver == approver {
        return Some(AlreadyDecided);
      }
      var token := IssueToken(sign, record.id, approver, verdict);
      record.decisions := record.decisions + [Decision(approver, verdict, notes, token)];
      var satisfied := record.Satisfied();
      if verdict == Denied {
        record.verdict := Denied;
      } else if satisfied {
        record.verdict := Approved;
      }
      return None;
    }

    /** One turn of the sweep's loop. */
    method SweepOne(ghost before: Store, i: nat, now: int) returns (swept: bool)
      requires Valid() && i < |before| == |order|
      requires View() == SweptUpTo(before, i, now)
      modifies records.Values
      ensures Valid() && View() == SweptUpTo(before, i + 1, now)
      ensures ExpiredUpTo(before, i + 1, now) == ExpiredUpTo(before, i, now) + (if swept then 1 else 0)
    {
      ghost var start := View();
      OneMoreSwept(before, i, now);
      var r := records[order[i]];
      assert r.View() == start[i] == before[i];
      swept := r.verdict == Pending && r.PastExpiry(now);
      if swept {
        r.verdict := Expired;
      }
      OneRecordChanged(i);
      assert View() == start[i := Sweep(before[i], now)];
    }

    /** Marks every expired pending request and counts them. */
    method SweepExpiredRequests(now: int) returns (count: nat)
      requires Valid()
      modifies records.Values
      ensures Valid() && View() == SweepAll(old(View()), now)
      ensures count == |ListExpired(old(View()), now)|
    {
      count := 0;
      ghost var before := View();
      for i := 0 to |order|
        invariant Valid() && |before| == |order|
        invariant View() == SweptUpTo(before, i, now)
        invariant count == ExpiredUpTo(before, i, now)
      {
        var swept := SweepOne(before, i, now);
        count := if swept then count + 1 else count;
      }
      EverythingSwept(before, now);
    }
  }

  ghost function SweptUpTo(store: Store, i: nat, now: int): Store
    requires i <= |store|
  {
    SweepAll(store[..i], now) + store[i..]
  }

  ghost function ExpiredUpTo(store: Store, i: nat, now: int): nat
    requires i <= |store|
  {
    |ListExpired(store[..i], now)|
  }

  lemma EverythingSwept(store: Store, now: int)
    ensures SweptUpTo(store, |store|, now) == SweepAll(store, now)
    ensures ExpiredUpTo(store, |store|, now) == |ListExpired(store, now)|
  {
    assert store[..|store|] == store;
  }

  lemma OneMoreSwept(store: Store, i: nat, now: int)
    requires i < |store|
    ensures SweptUpTo(store, i, now)[i] == store[i]
    ensures SweptUpTo(store, i + 1, now) == SweptUpTo(store, i, now)[i := Sweep(store[i], now)]
    ensures ExpiredUpTo(store, i + 1, now) == ExpiredUpTo(store, i, now)
              + (if store[i].verdict == Pending && IsExpired(store[i], now) then 1 else 0)
  {
    assert store[..i + 1][..i] == store[..i];
  }

  method CollectIds(requests: seq<ApprovalRequest>, ghost views: seq<Record>) returns (ids: seq<string>)
    requires |requests| == |views| && forall i :: 0 <= i < |views| ==> requests[i].View() == views[i]
    ensures ids == IdsOf(views)
  {
    ids := [];
    for i := 0 to |requests|
      invariant |ids| == i && forall k :: 0 <= k < i ==> ids[k] == views[k].id
    {
      assert requests[i].View().id == views[i].id;
      ids := ids + [requests[i].id];
    }
  }

  /** The check `_check_expired_approvals` of the reconciliation agent, with its two clock readings. */
  method CheckExpiredApprovals(store: ApprovalStore, listAt: int, sweepAt: int) returns (issue: Option<Issue>)
    requires store.Valid()
    modifies store.records.Values
    ensures store.Valid() && (store.View(), issue) == Reconcile(old(store.View()), listAt, sweepAt)
  {
    ghost var before := store.View();
    var count, ids := ListIds(store, listAt);
    if count == 0 {
      return None;
    }
    var swept := store.SweepExpiredRequests(sweepAt);
    issue := Some(Issue(count, swept, TakeLimit(ids, SHOWN)));
    ReconcileReports(before, listAt, sweepAt, ids, issue.value);
  }

  method ListIds(store: ApprovalStore, listAt: int) returns (count: nat, ids: seq<string>)
    requires store.Valid()
    ensures count == |ListExpired(store.View(), listAt)| && ids == IdsOf(ListExpired(store.View(), listAt))
  {
    var expired := store.AllExpired(listAt);
    ids := CollectIds(expired, ListExpired(store.View(), listAt));
    count := |expired|;
  }

  lemma ReconcileReports(store: Store, listAt: int, sweepAt: int, ids: seq<string>, issue: Issue)
    requires ListExpired(store, listAt) != [] && ids == IdsOf(ListExpired(store, listAt))
    requires issue == Issue(|ListExpired(store, listAt)|, |ListExpired(store, sweepAt)|, TakeLimit(ids, SHOWN))
    ensures Reconcile(store, listAt, sweepAt) == (SweepAll(store, sweepAt), Some(issue))
  {
  }
}
