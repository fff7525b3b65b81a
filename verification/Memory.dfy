/**
 The in-memory backend of the memory store: per-user records in insertion order, retention sweeps, and
 what a query shows of a whole history of operations.
 */
module Memories {
  import opened Collections

  datatype Record = Record(id: string, user: string, content: string, tags: seq<string>, created: int, expires: Option<int>)

  /** For each user the records in the insertion order of their ids. */
  type Records = map<string, seq<Record>>

  predicate IsExpired(r: Record, now: int) {
    r.expires.Some? && now > r.expires.value
  }

  function RecordsOf(m: Records, user: string): seq<Record> {
    if user in m then m[user] else []
  }

  predicate Has(s: seq<Record>, id: string) {
    exists i :: 0 <= i < |s| && s[i].id == id
  }

  /** Assigning to a key: a known id keeps its place. */
  function Assigned(s: seq<Record>, r: Record): seq<Record> {
    if Has(s, r.id) then Replaced(s, r) else s + [r]
  }

  function Replaced(s: seq<Record>, r: Record): seq<Record> {
    if s == [] then []
    else
      var n := |s| - 1;
      Replaced(s[..n], r) + [if s[n].id == r.id then r else s[n]]
  }

  function Without(s: seq<Record>, id: string): seq<Record> {
    if s == [] then []
    else
      var n := |s| - 1;
      if s[n].id == id then Without(s[..n], id) else Without(s[..n], id) + [s[n]]
  }

  /** The records that have not expired. */
  function Live(s: seq<Record>, now: int): seq<Record> {
    if s == [] then []
    else
      var n := |s| - 1;
      if IsExpired(s[n], now) then Live(s[..n], now) else Live(s[..n], now) + [s[n]]
  }

  function CountExpired(s: seq<Record>, now: int): nat {
    if s == [] then 0 else CountExpired(s[..|s| - 1], now) + (if IsExpired(s[|s| - 1], now) then 1 else 0)
  }

  datatype Op =
    | Put(record: Record)
    | Delete(user: string, id: string)
    | DeleteAll(user: string)
    | Sweep(now: int)

  /** A sweep also drops users with nothing left. */
  function Swept(m: Records, now: int): Records {
    map u | u in m && Live(m[u], now) != [] :: Live(m[u], now)
  }

  function Apply(m: Records, op: Op): Records {
    match op
    case Put(r) => if r.user == "" then m else m[r.user := Assigned(RecordsOf(m, r.user), r)]
    case Delete(user, id) => if user in m then m[user := Without(m[user], id)] else m
    case DeleteAll(user) => m - {user}
    case Sweep(now) => Swept(m, now)
  }

  function Run(ops: seq<Op>): Records {
    if ops == [] then map[] else Apply(Run(ops[..|ops| - 1]), ops[|ops| - 1])
  }

  // ---------------------------------------------------------------- querying

  /** An empty tag filters nothing. */
  function Tagged(s: seq<Record>, tag: string): seq<Record> {
    if s == [] then []
    else
      var n := |s| - 1;
      if tag != "" && tag !in s[n].tags then Tagged(s[..n], tag) else Tagged(s[..n], tag) + [s[n]]
  }

  /** Places a record that came before those of `s` among them, newest first. */
  function Insert(r: Record, s: seq<Record>): seq<Record> {
    if s == [] || s[0].created <= r.created then [r] + s else [s[0]] + Insert(r, s[1..])
  }

  /** `sort(key=created_at, reverse=True)`, which keeps the order of records of one time. */
  function Newest(s: seq<Record>): seq<Record> {
    if s == [] then [] else Insert(s[0], Newest(s[1..]))
  }

  function QueryOf(s: seq<Record>, tag: string, limit: int, now: int): seq<Record> {
    TakeLimit(Newest(Tagged(Live(s, now), tag)), limit)
  }

  predicate NewestFirst(s: seq<Record>) {
    forall i, j :: 0 <= i < j < |s| ==> s[i].created >= s[j].created
  }

  /** The records of one time, in order. */
  function CreatedAt(s: seq<Record>, t: int): seq<Record> {
    if s == [] then []
    else if s[0].created == t then [s[0]] + CreatedAt(s[1..], t)
    else CreatedAt(s[1..], t)
  }

  lemma {:induction false} InsertIsStable(r: Record, s: seq<Record>, t: int)
    requires NewestFirst(s)
    ensures NewestFirst(Insert(r, s))
    ensures CreatedAt(Insert(r, s), t) == if r.created == t then [r] + CreatedAt(s, t) else CreatedAt(s, t)
    ensures forall i :: 0 <= i < |Insert(r, s)| ==> Insert(r, s)[i].created <= r.created || (s != [] && Insert(r, s)[i].created <= s[0].created)
  {
    if s == [] || s[0].created <= r.created {
      assert ([r] + s)[1..] == s;
    } else {
      InsertIsStable(r, s[1..], t);
      var rest := Insert(r, s[1..]);
      assert ([s[0]] + rest)[1..] == rest;
    }
  }

  /** The sort is exactly the newest-first ordering that keeps the order of records of one time. */
  lemma {:induction false} NewestIsStable(s: seq<Record>, t: int)
    ensures NewestFirst(Newest(s)) && CreatedAt(Newest(s), t) == CreatedAt(s, t)
  {
    if s != [] {
      NewestIsStable(s[1..], t);
      InsertIsStable(s[0], Newest(s[1..]), t);
    }
  }

  lemma {:induction false} CreatedAtFinds(s: seq<Record>, i: nat)
    requires i < |s|
    ensures CreatedAt(s, s[i].created) != []
  {
    if i > 0 {
      CreatedAtFinds(s[1..], i - 1);
    }
  }

  lemma {:induction false} CreatedAtIsPart(s: seq<Record>, t: int)
    ensures forall r :: r in CreatedAt(s, t) ==> r in s && r.created == t
  {
    if s != [] {
      CreatedAtIsPart(s[1..], t);
    }
  }

  lemma CreatedAtTail(s: seq<Record>, t: int)
    requires s != []
    ensures CreatedAt(s[1..], t) == if s[0].created == t then CreatedAt(s, t)[1..] else CreatedAt(s, t)
  {
    if s[0].created == t {
      assert ([s[0]] + CreatedAt(s[1..], t))[1..] == CreatedAt(s[1..], t);
    }
  }

  lemma HeadIsNotOlder(a: seq<Record>, b: seq<Record>)
    requires a != [] && NewestFirst(b) && CreatedAt(a, a[0].created) == CreatedAt(b, a[0].created)
    ensures b != [] && b[0].created >= a[0].created
  {
    CreatedAtFinds(a, 0);
    CreatedAtIsPart(b, a[0].created);
    var r := CreatedAt(b, a[0].created)[0];
    assert r in b;
  }

  /** No other newest-first ordering keeps, for every time, the records of that time in order. */
  lemma {:induction false} NewestIsUnique(a: seq<Record>, b: seq<Record>)
    requires NewestFirst(a) && NewestFirst(b) && forall t :: CreatedAt(a, t) == CreatedAt(b, t)
    ensures a == b
  {
    if a == [] {
      if b != [] {
        HeadIsNotOlder(b, a);
      }
    } else {
      HeadIsNotOlder(a, b);
      HeadIsNotOlder(b, a);
      var t := a[0].created;
      assert CreatedAt(a, t)[0] == a[0] && CreatedAt(b, t)[0] == b[0];
      forall u ensures CreatedAt(a[1..], u) == CreatedAt(b[1..], u) {
        CreatedAtTail(a, u);
        CreatedAtTail(b, u);
      }
      NewestIsUnique(a[1..], b[1..]);
      assert a == [a[0]] + a[1..] && b == [b[0]] + b[1..];
    }
  }

  /** What a query shows: the unique newest-first, order-keeping arrangement of the user's records that
      are live and carry the tag, cut at the limit. */
  lemma QueryIsTheStableOrdering(s: seq<Record>, tag: string, limit: int, now: int, sorted: seq<Record>)
    requires NewestFirst(sorted)
    requires forall t :: CreatedAt(sorted, t) == CreatedAt(Tagged(Live(s, now), tag), t)
    ensures QueryOf(s, tag, limit, now) == TakeLimit(sorted, limit)
  {
    var matching := Tagged(Live(s, now), tag);
    forall t ensures NewestFirst(Newest(matching)) && CreatedAt(Newest(matching), t) == CreatedAt(sorted, t) {
      NewestIsStable(matching, t);
    }
    NewestIsStable(matching, 0);
    NewestIsUnique(Newest(matching), sorted);
  }

  lemma {:induction false} LiveAre(s: seq<Record>, now: int, r: Record)
    ensures r in Live(s, now) <==> r in s && !IsExpired(r, now)
  {
    if s != [] {
      LiveAre(s[..|s| - 1], now, r);
    }
  }

  lemma {:induction false} TaggedAre(s: seq<Record>, tag: string, r: Record)
    ensures r in Tagged(s, tag) <==> r in s && (tag == "" || tag in r.tags)
  {
    if s != [] {
      TaggedAre(s[..|s| - 1], tag, r);
    }
  }

  /** The record is live and carries the tag. */
  predicate Wanted(r: Record, tag: string, now: int) {
    !IsExpired(r, now) && (tag == "" || tag in r.tags)
  }

  /** A query shows wanted records of the user only, every one of them unless the limit cuts, and then
      none newer than one that is shown. */
  lemma QueryShows(s: seq<Record>, tag: string, limit: int, now: int, r: Record)
    ensures r in Newest(Tagged(Live(s, now), tag)) <==> r in s && Wanted(r, tag, now)
    ensures var shown := QueryOf(s, tag, limit, now);
            && (r in shown ==> r in s && Wanted(r, tag, now))
            && (r in s && Wanted(r, tag, now) && r !in shown ==> forall q :: q in shown ==> r.created <= q.created)
            && (limit >= |s| ==> (r in shown <==> r in s && Wanted(r, tag, now)))
  {
    var sorted, shown := Newest(Tagged(Live(s, now), tag)), QueryOf(s, tag, limit, now);
    LiveAre(s, now, r);
    TaggedAre(Live(s, now), tag, r);
    SortKeepsRecords(Tagged(Live(s, now), tag));
    NewestIsStable(Tagged(Live(s, now), tag), 0);
    NoLongerThan(s, tag, now);
    if r in sorted && r !in shown {
      CutIsOlder(sorted, |shown|, r);
    }
  }

  lemma CutIsOlder(sorted: seq<Record>, n: nat, r: Record)
    requires NewestFirst(sorted) && n <= |sorted| && r in sorted && r !in sorted[..n]
    ensures forall q :: q in sorted[..n] ==> r.created <= q.created
  {
    assert forall i :: 0 <= i < n ==> sorted[..n][i] == sorted[i];
    var j :| 0 <= j < |sorted| && sorted[j] == r;
  }

  lemma NoLongerThan(s: seq<Record>, tag: string, now: int)
    ensures |Newest(Tagged(Live(s, now), tag))| <= |s|
  {
    LiveIsNoLonger(s, now);
    TaggedIsNoLonger(Live(s, now), tag);
    SortKeepsLength(Tagged(Live(s, now), tag));
  }

  lemma {:induction false} LiveIsNoLonger(s: seq<Record>, now: int)
    ensures |Live(s, now)| <= |s|
  {
    if s != [] {
      LiveIsNoLonger(s[..|s| - 1], now);
    }
  }

  lemma {:induction false} TaggedIsNoLonger(s: seq<Record>, tag: string)
    ensures |Tagged(s, tag)| <= |s|
  {
    if s != [] {
      TaggedIsNoLonger(s[..|s| - 1], tag);
    }
  }

  lemma {:induction false} InsertAddsOne(r: Record, s: seq<Record>)
    ensures |Insert(r, s)| == |s| + 1
  {
    if s != [] && s[0].created > r.created {
      InsertAddsOne(r, s[1..]);
    }
  }

  lemma {:induction false} SortKeepsLength(s: seq<Record>)
    ensures |Newest(s)| == |s|
  {
    if s != [] {
      SortKeepsLength(s[1..]);
      InsertAddsOne(s[0], Newest(s[1..]));
    }
  }

  // ---------------------------------------------------------------- projection onto one user

  function IsOwn(op: Op, user: string): bool {
    match op
    case Put(r) => r.user == user
    case Delete(u, _) => u == user
    case DeleteAll(u) => u == user
    case Sweep(_) => false
  }

  /** The user's own operations; sweeps are dropped. */
  function Own(ops: seq<Op>, user: string): seq<Op> {
    if ops == [] then []
    else
      var n := |ops| - 1;
      if IsOwn(ops[n], user) then Own(ops[..n], user) + [ops[n]] else Own(ops[..n], user)
  }

  /** No two puts of one user use the same memory id. */
  ghost predicate FreshIds(ops: seq<Op>) {
    forall i, j :: 0 <= i < j < |ops| && ops[i].Put? && ops[j].Put? && ops[i].record.user == ops[j].record.user
      ==> ops[i].record.id != ops[j].record.id
  }

  predicate SweptBy(ops: seq<Op>, now: int) {
    forall i :: 0 <= i < |ops| && ops[i].Sweep? ==> ops[i].now <= now
  }

  lemma LivePush(s: seq<Record>, r: Record, now: int)
    ensures Live(s + [r], now) == if IsExpired(r, now) then Live(s, now) else Live(s, now) + [r]
  {
    assert (s + [r])[..|s|] == s;
  }

  lemma {:induction false} WithoutIsLive(s: seq<Record>, id: string, now: int)
    ensures Live(Without(s, id), now) == Without(Live(s, now), id)
  {
    if s != [] {
      var n := |s| - 1;
      WithoutIsLive(s[..n], id, now);
      LivePush(Without(s[..n], id), s[n], now);
      WithoutPush(Live(s[..n], now), s[n], id);
    }
  }

  lemma WithoutPush(s: seq<Record>, r: Record, id: string)
    ensures Without(s + [r], id) == if r.id == id then Without(s, id) else Without(s, id) + [r]
  {
    assert (s + [r])[..|s|] == s;
  }

  lemma {:induction false} SweepingEarlierChangesNothing(s: seq<Record>, sweptAt: int, now: int)
    requires sweptAt <= now
    ensures Live(Live(s, sweptAt), now) == Live(s, now)
  {
    if s != [] {
      var n := |s| - 1;
      SweepingEarlierChangesNothing(s[..n], sweptAt, now);
      LivePush(Live(s[..n], sweptAt), s[n], now);
    }
  }

  lemma {:induction false} PartOf(s: seq<Record>, id: string, now: int)
    ensures forall r :: r in Without(s, id) || r in Live(s, now) ==> r in s
  {
    if s != [] {
      var n := |s| - 1;
      PartOf(s[..n], id, now);
      assert s == s[..n] + [s[n]];
    }
  }

  lemma {:induction false} ReplacedAre(s: seq<Record>, r: Record)
    ensures forall q :: q in Replaced(s, r) ==> q in s || q == r
  {
    if s != [] {
      var n := |s| - 1;
      ReplacedAre(s[..n], r);
      assert s == s[..n] + [s[n]];
    }
  }

  /** No query crosses to another user's records. */
  lemma {:induction false} RecordsAreOwn(ops: seq<Op>, user: string, r: Record)
    requires r in RecordsOf(Run(ops), user)
    ensures r.user == user && Put(r) in ops
  {
    var n := |ops| - 1;
    var before := Run(ops[..n]);
    match ops[n]
    case Put(p) =>
      ReplacedAre(RecordsOf(before, user), p);
      if r in RecordsOf(before, user) {
        RecordsAreOwn(ops[..n], user, r);
      }
    case Delete(_, id) =>
      PartOf(RecordsOf(before, user), id, 0);
      RecordsAreOwn(ops[..n], user, r);
    case DeleteAll(_) =>
      RecordsAreOwn(ops[..n], user, r);
    case Sweep(now) =>
      PartOf(RecordsOf(before, user), "", now);
      RecordsAreOwn(ops[..n], user, r);
  }

  lemma FreshIsNew(ops: seq<Op>, r: Record, s: seq<Record>)
    requires FreshIds(ops + [Put(r)]) && forall q :: q in s ==> q.user == r.user && Put(q) in ops
    ensures !Has(s, r.id)
  {
    var all := ops + [Put(r)];
    forall i | 0 <= i < |s| ensures s[i].id != r.id {
      assert s[i] in s;
      var k :| 0 <= k < |ops| && ops[k] == Put(s[i]);
      assert all[k] == ops[k] && all[|ops|] == Put(r);
    }
  }

  lemma {:induction false} OwnAreOps(ops: seq<Op>, user: string)
    ensures forall op :: op in Own(ops, user) ==> op in ops
  {
    if ops != [] {
      OwnAreOps(ops[..|ops| - 1], user);
    }
  }

  /** The same records of the user are live at `now`. */
  predicate SameLive(m: Records, n: Records, user: string, now: int) {
    Live(RecordsOf(m, user), now) == Live(RecordsOf(n, user), now)
  }

  lemma OwnStep(m: Records, n: Records, op: Op, user: string, now: int)
    requires SameLive(m, n, user, now) && IsOwn(op, user)
    requires op.Put? ==> !Has(RecordsOf(m, user), op.record.id) && !Has(RecordsOf(n, user), op.record.id)
    ensures SameLive(Apply(m, op), Apply(n, op), user, now)
  {
    match op
    case Put(r) =>
      LivePush(RecordsOf(m, user), r, now);
      LivePush(RecordsOf(n, user), r, now);
    case Delete(_, id) =>
      WithoutIsLive(RecordsOf(m, user), id, now);
      WithoutIsLive(RecordsOf(n, user), id, now);
    case _ =>
  }

  lemma ForeignStep(m: Records, op: Op, user: string, now: int)
    requires !IsOwn(op, user) && (op.Sweep? ==> op.now <= now)
    ensures SameLive(Apply(m, op), m, user, now)
  {
    if op.Sweep? {
      SweepingEarlierChangesNothing(RecordsOf(m, user), op.now, now);
    }
  }

  lemma {:induction false} LiveRecordsProject(ops: seq<Op>, user: string, now: int)
    requires FreshIds(ops) && SweptBy(ops, now)
    ensures SameLive(Run(ops), Run(Own(ops, user)), user, now)
  {
    if ops != [] {
      var n := |ops| - 1;
      var before, op := ops[..n], ops[n];
      LiveRecordsProject(before, user, now);
      if IsOwn(op, user) {
        if op.Put? {
          PutsAreNew(before, op.record, user);
        }
        OwnStep(Run(before), Run(Own(before, user)), op, user, now);
        assert Own(ops, user)[..|Own(ops, user)| - 1] == Own(before, user);
      } else {
        ForeignStep(Run(before), op, user, now);
      }
    }
  }

  lemma PutsAreNew(before: seq<Op>, r: Record, user: string)
    requires FreshIds(before + [Put(r)]) && r.user == user
    ensures !Has(RecordsOf(Run(before), user), r.id) && !Has(RecordsOf(Run(Own(before, user)), user), r.id)
  {
    forall q | q in RecordsOf(Run(before), user) ensures q.user == user && Put(q) in before {
      RecordsAreOwn(before, user, q);
    }
    OwnAreOps(before, user);
    forall q | q in RecordsOf(Run(Own(before, user)), user) ensures q.user == user && Put(q) in before {
      RecordsAreOwn(Own(before, user), user, q);
    }
    FreshIsNew(before, r, RecordsOf(Run(before), user));
    FreshIsNew(before, r, RecordsOf(Run(Own(before, user)), user));
  }

  /** In any interleaving, what a user's query shows at or after the last sweep is what it would show had
      only that user's own operations run, with no sweep at all. */
  lemma QueryDependsOnOwnOperations(ops: seq<Op>, user: string, tag: string, limit: int, now: int)
    requires FreshIds(ops) && SweptBy(ops, now)
    ensures QueryOf(RecordsOf(Run(ops), user), tag, limit, now)
         == QueryOf(RecordsOf(Run(Own(ops, user)), user), tag, limit, now)
  {
    LiveRecordsProject(ops, user, now);
  }

  // ---------------------------------------------------------------- the declarative reading

  /** The put at `i` is still to be seen at `now`: it was for this user, nothing later deleted its id or
      the user, and its record has not expired. */
  predicate Stays(ops: seq<Op>, i: nat, user: string, now: int) {
    && i < |ops| && ops[i].Put? && ops[i].record.user == user && user != "" && !IsExpired(ops[i].record, now)
    && forall j :: i < j < |ops| ==> ops[j] != Delete(user, ops[i].record.id) && ops[j] != DeleteAll(user)
  }

  /** The records of the puts among the first `k` operations that stay, in the order they were put. */
  function Staying(ops: seq<Op>, k: nat, user: string, now: int): seq<Record>
    requires k <= |ops|
  {
    if k == 0 then []
    else if Stays(ops, k - 1, user, now) then Staying(ops, k - 1, user, now) + [ops[k - 1].record]
    else Staying(ops, k - 1, user, now)
  }

  lemma StaysPush(ops: seq<Op>, op: Op, i: nat, user: string, now: int)
    requires i < |ops|
    ensures (ops + [op])[i] == ops[i]
    ensures Stays(ops + [op], i, user, now)
       <==> Stays(ops, i, user, now) && op != Delete(user, ops[i].record.id) && op != DeleteAll(user)
  {
    var all := ops + [op];
    assert all[|ops|] == op;
    assert forall j :: 0 <= j < |ops| ==> all[j] == ops[j];
  }

  lemma {:induction false} StayingPush(ops: seq<Op>, op: Op, k: nat, user: string, now: int)
    requires k <= |ops|
    ensures Staying(ops + [op], k, user, now)
         == if op.Delete? && op.user == user then Without(Staying(ops, k, user, now), op.id)
            else if op == DeleteAll(user) then []
            else Staying(ops, k, user, now)
  {
    if k > 0 {
      StayingPush(ops, op, k - 1, user, now);
      StaysPush(ops, op, k - 1, user, now);
      if op.Delete? && ops[k - 1].Put? {
        WithoutPush(Staying(ops, k - 1, user, now), ops[k - 1].record, op.id);
      }
    }
  }

  /** The newest operation itself stays if it is a put of a live record. */
  lemma StayingLast(ops: seq<Op>, op: Op, user: string, now: int)
    ensures Staying(ops + [op], |ops| + 1, user, now)
         == if op.Put? && op.record.user == user && user != "" && !IsExpired(op.record, now)
            then Staying(ops + [op], |ops|, user, now) + [op.record]
            else Staying(ops + [op], |ops|, user, now)
  {
    assert (ops + [op])[|ops|] == op;
  }

  lemma NobodyHasNothing(ops: seq<Op>)
    ensures "" !in Run(ops)
  {
  }

  /** One operation on the live records of a user. */
  lemma LiveAfter(ops: seq<Op>, op: Op, user: string, now: int)
    requires FreshIds(ops + [op]) && (op.Sweep? ==> op.now <= now)
    ensures var s := Live(RecordsOf(Run(ops), user), now);
            Live(RecordsOf(Apply(Run(ops), op), user), now)
            == if op.Put? && op.record.user == user && user != "" then (if IsExpired(op.record, now) then s else s + [op.record])
               else if op.Delete? && op.user == user then Without(s, op.id)
               else if op == DeleteAll(user) then []
               else s
  {
    var m := Run(ops);
    if !IsOwn(op, user) {
      ForeignStep(m, op, user, now);
    } else {
      match op
      case Put(r) =>
        PutsAreNew(ops, r, user);
        LivePush(RecordsOf(m, user), r, now);
        NobodyHasNothing(ops);
      case Delete(_, id) => WithoutIsLive(RecordsOf(m, user), id, now);
      case DeleteAll(_) =>
    }
  }

  /** At or after the last sweep the live records of a user are exactly those that were put for it and
      neither deleted since nor expired, in the order they were put. */
  lemma {:induction false} LiveReadsTheOperations(ops: seq<Op>, user: string, now: int)
    requires FreshIds(ops) && SweptBy(ops, now)
    ensures Live(RecordsOf(Run(ops), user), now) == Staying(ops, |ops|, user, now)
  {
    if ops != [] {
      var before, op := ops[..|ops| - 1], ops[|ops| - 1];
      assert ops == before + [op] by { EndsInItsLast(ops); }
      LiveReadsTheOperations(before, user, now);
      LiveAfter(before, op, user, now);
      StayingPush(before, op, |before|, user, now);
      StayingLast(before, op, user, now);
    }
  }

  lemma EndsInItsLast(ops: seq<Op>)
    requires ops != []
    ensures ops[..|ops| - 1] + [ops[|ops| - 1]] == ops
  {
  }

  lemma {:induction false} StayingAre(ops: seq<Op>, k: nat, user: string, now: int, r: Record)
    requires k <= |ops|
    ensures r in Staying(ops, k, user, now) <==> exists i :: 0 <= i < k && ops[i] == Put(r) && Stays(ops, i, user, now)
  {
    if k > 0 {
      StayingAre(ops, k - 1, user, now, r);
    }
  }

  /** What the user's queries can show, record by record. */
  lemma QueriesReadTheOperations(ops: seq<Op>, user: string, tag: string, now: int, r: Record)
    requires FreshIds(ops) && SweptBy(ops, now)
    ensures r in Newest(Tagged(Live(RecordsOf(Run(ops), user), now), tag))
       <==> (tag == "" || tag in r.tags) && exists i :: 0 <= i < |ops| && ops[i] == Put(r) && Stays(ops, i, user, now)
  {
    LiveReadsTheOperations(ops, user, now);
    StayingAre(ops, |ops|, user, now, r);
    TaggedAre(Live(RecordsOf(Run(ops), user), now), tag, r);
    SortKeepsRecords(Tagged(Live(RecordsOf(Run(ops), user), now), tag));
  }

  // ---------------------------------------------------------------- one operation

  /** `part` is what is left of `whole` when all records but those at `from` go; order is kept. */
  ghost predicate Selects(whole: seq<Record>, part: seq<Record>, from: seq<nat>) {
    && |from| == |part|
    && (forall j :: 0 <= j < |from| ==> from[j] < |whole| && part[j] == whole[from[j]])
    && (forall j, k :: 0 <= j < k < |from| ==> from[j] < from[k])
  }

  /** A deletion removes the records of that id and no others, and leaves the order and all other users alone. */
  lemma DeleteIsExact(m: Records, user: string, id: string, other: string) returns (from: seq<nat>)
    ensures var before, after := RecordsOf(m, user), RecordsOf(Apply(m, Delete(user, id)), user);
            && !Has(after, id)
            && Selects(before, after, from)
            && (forall i :: 0 <= i < |before| && before[i].id != id ==> i in from)
    ensures other != user ==> RecordsOf(Apply(m, Delete(user, id)), other) == RecordsOf(m, other)
  {
    from := WithoutSelects(RecordsOf(m, user), id);
    WithoutHasNone(RecordsOf(m, user), id);
  }

  lemma {:induction false} WithoutSelects(s: seq<Record>, id: string) returns (from: seq<nat>)
    ensures Selects(s, Without(s, id), from)
    ensures forall i :: 0 <= i < |s| && s[i].id != id ==> i in from
  {
    from := [];
    if s != [] {
      var n := |s| - 1;
      from := WithoutSelects(s[..n], id);
      SelectsOneMore(s, Without(s[..n], id), from);
      if s[n].id != id {
        from := from + [n];
      }
    }
  }

  lemma {:induction false} WithoutHasNone(s: seq<Record>, id: string)
    ensures !Has(Without(s, id), id)
  {
    if s != [] {
      WithoutHasNone(s[..|s| - 1], id);
    }
  }

  /** A sweep does the same with the records that have expired. */
  lemma SweepIsExact(m: Records, now: int, user: string) returns (from: seq<nat>)
    ensures var before, after := RecordsOf(m, user), RecordsOf(Apply(m, Sweep(now)), user);
            && Selects(before, after, from)
            && (forall i :: 0 <= i < |before| ==> (i in from <==> before[i].expires.None? || now <= before[i].expires.value))
    ensures user in Apply(m, Sweep(now)) <==> RecordsOf(Apply(m, Sweep(now)), user) != []
  {
    from := LiveSelects(RecordsOf(m, user), now);
  }

  lemma {:induction false} LiveSelects(s: seq<Record>, now: int) returns (from: seq<nat>)
    ensures Selects(s, Live(s, now), from)
    ensures forall i :: 0 <= i < |s| ==> (i in from <==> s[i].expires.None? || now <= s[i].expires.value)
  {
    from := [];
    if s != [] {
      var n := |s| - 1;
      from := LiveSelects(s[..n], now);
      SelectsOneMore(s, Live(s[..n], now), from);
      if !IsExpired(s[n], now) {
        from := from + [n];
      }
    }
  }

  lemma SelectsOneMore(s: seq<Record>, part: seq<Record>, from: seq<nat>)
    requires s != [] && Selects(s[..|s| - 1], part, from)
    ensures Selects(s, part, from) && |s| - 1 !in from
    ensures Selects(s, part + [s[|s| - 1]], from + [|s| - 1])
    ensures forall i :: i in from + [|s| - 1] <==> i in from || i == |s| - 1
  {
  }

  /** A put replaces the record of its id where it stands, or comes last; without a user it does nothing,
      and it touches no other user. Removing all of a user's records leaves none. */
  lemma PutIsExact(m: Records, r: Record, other: string)
    ensures var before, after := RecordsOf(m, r.user), RecordsOf(Apply(m, Put(r)), r.user);
            && (r.user == "" ==> Apply(m, Put(r)) == m)
            && (r.user != "" && !Has(before, r.id) ==> after == before + [r])
            && (r.user != "" && Has(before, r.id) ==>
                  |after| == |before|
                  && forall i :: 0 <= i < |before| ==> after[i] == if before[i].id == r.id then r else before[i])
    ensures other != r.user ==> RecordsOf(Apply(m, Put(r)), other) == RecordsOf(m, other)
    ensures RecordsOf(Apply(m, DeleteAll(r.user)), r.user) == []
    ensures other != r.user ==> RecordsOf(Apply(m, DeleteAll(r.user)), other) == RecordsOf(m, other)
  {
    ReplacedIsExact(RecordsOf(m, r.user), r);
  }

  lemma {:induction false} ReplacedIsExact(s: seq<Record>, r: Record)
    ensures |Replaced(s, r)| == |s|
    ensures forall i :: 0 <= i < |s| ==> Replaced(s, r)[i] == if s[i].id == r.id then r else s[i]
  {
    if s != [] {
      ReplacedIsExact(s[..|s| - 1], r);
    }
  }

  // ---------------------------------------------------------------- sweeping

  predicate UniqueIds(s: seq<Record>) {
    forall i, j :: 0 <= i < j < |s| ==> s[i].id != s[j].id
  }

  /** A user's keys are distinct and all records are that user's. */
  ghost predicate Keyed(m: Records) {
    forall u :: u in m ==> UniqueIds(m[u]) && forall i :: 0 <= i < |m[u]| ==> m[u][i].user == u
  }

  lemma {:induction false} LiveCounts(s: seq<Record>, now: int)
    ensures |Live(s, now)| + CountExpired(s, now) == |s|
  {
    if s != [] {
      LiveCounts(s[..|s| - 1], now);
    }
  }

  function ExpiredByUser(m: Records, now: int): map<string, nat> {
    map u | u in m :: CountExpired(m[u], now)
  }

  function CountByUser(m: Records): map<string, nat> {
    map u | u in m :: |m[u]|
  }

  lemma CountsWithoutUser(m: Records, u: string, now: int)
    requires u in m
    ensures SumValues(CountByUser(m)) == |m[u]| + SumValues(CountByUser(m - {u}))
    ensures SumValues(ExpiredByUser(m, now)) == CountExpired(m[u], now) + SumValues(ExpiredByUser(m - {u}, now))
  {
    SumValuesSplit(CountByUser(m), u);
    SumValuesSplit(ExpiredByUser(m, now), u);
    assert CountByUser(m) - {u} == CountByUser(m - {u});
    assert ExpiredByUser(m, now) - {u} == ExpiredByUser(m - {u}, now);
  }

  lemma SweptWithoutUser(m: Records, u: string, now: int)
    requires u in m
    ensures SumValues(CountByUser(Swept(m, now))) == |Live(m[u], now)| + SumValues(CountByUser(Swept(m - {u}, now)))
  {
    var swept := Swept(m, now);
    assert Swept(m - {u}, now) == swept - {u};
    if u in swept {
      CountsWithoutUser(swept, u, now);
    } else {
      assert swept - {u} == swept;
    }
  }

  /** What a sweep removes is what its count says: the records before are the records after and those counted. */
  lemma {:induction false} SweepConserves(m: Records, now: int)
    ensures SumValues(CountByUser(m)) == SumValues(CountByUser(Swept(m, now))) + SumValues(ExpiredByUser(m, now))
    decreases |m|
  {
    if m == map[] {
      assert Swept(m, now) == map[];
    } else {
      var u :| u in m;
      SweepConserves(m - {u}, now);
      LiveCounts(m[u], now);
      CountsWithoutUser(m, u, now);
      SweptWithoutUser(m, u, now);
    }
  }

  lemma Reassociate(a: seq<Record>, b: seq<Record>, r: Record)
    ensures a + b + [r] == a + (b + [r])
  {
  }

  lemma {:induction false} WithoutAppend(a: seq<Record>, b: seq<Record>, id: string)
    ensures Without(a + b, id) == Without(a, id) + Without(b, id)
  {
    if b == [] {
      assert a + b == a;
    } else {
      var less, last := b[..|b| - 1], b[|b| - 1];
      WithoutAppend(a, less, id);
      assert b == less + [last];
      WithoutAppendOne(a, less, last, id);
    }
  }

  lemma WithoutAppendOne(a: seq<Record>, b: seq<Record>, r: Record, id: string)
    requires Without(a + b, id) == Without(a, id) + Without(b, id)
    ensures Without(a + (b + [r]), id) == Without(a, id) + Without(b + [r], id)
  {
    Reassociate(a, b, r);
    WithoutPush(a + b, r, id);
    WithoutPush(b, r, id);
    if r.id != id {
      Reassociate(Without(a, id), Without(b, id), r);
    }
  }

  lemma UniqueAround(a: seq<Record>, r: Record, b: seq<Record>)
    requires UniqueIds(a + [r] + b)
    ensures (forall i :: 0 <= i < |a| ==> a[i].id != r.id) && (forall i :: 0 <= i < |b| ==> b[i].id != r.id)
  {
    var all := a + [r] + b;
    assert all[|a|] == r;
    forall i | 0 <= i < |a| ensures a[i].id != r.id {
      assert all[i] == a[i];
    }
    forall i | 0 <= i < |b| ensures b[i].id != r.id {
      assert all[|a| + 1 + i] == b[i];
    }
  }

  lemma WithoutTheOne(a: seq<Record>, r: Record, b: seq<Record>)
    requires UniqueIds(a + [r] + b)
    ensures Without(a + [r] + b, r.id) == a + b
  {
    UniqueAround(a, r, b);
    WithoutAppend(a + [r], b, r.id);
    WithoutPush(a, r, r.id);
    NothingToRemove(a, r.id);
    NothingToRemove(b, r.id);
  }

  lemma {:induction false} NothingToRemove(s: seq<Record>, id: string)
    requires forall i :: 0 <= i < |s| ==> s[i].id != id
    ensures Without(s, id) == s
  {
    if s != [] {
      var n := |s| - 1;
      NothingToRemove(s[..n], id);
      assert s == s[..n] + [s[n]];
    }
  }

  lemma {:induction false} KeepsUnique(s: seq<Record>, id: string, now: int)
    requires UniqueIds(s)
    ensures UniqueIds(Without(s, id)) && UniqueIds(Live(s, now))
  {
    if s != [] {
      var n := |s| - 1;
      KeepsUnique(s[..n], id, now);
      PartOf(s[..n], id, now);
      UniquePush(s[..n], Without(s[..n], id), s[n]);
      UniquePush(s[..n], Live(s[..n], now), s[n]);
    }
  }

  lemma UniquePush(whole: seq<Record>, part: seq<Record>, r: Record)
    requires UniqueIds(part) && (forall q :: q in part ==> q in whole)
    requires forall i :: 0 <= i < |whole| ==> whole[i].id != r.id
    ensures UniqueIds(part + [r])
  {
    forall i | 0 <= i < |part| ensures part[i].id != r.id {
      assert part[i] in whole;
    }
  }

  lemma {:induction false} ReplacedKeepsIds(s: seq<Record>, r: Record)
    ensures |Replaced(s, r)| == |s| && forall i :: 0 <= i < |s| ==> Replaced(s, r)[i].id == s[i].id
  {
    if s != [] {
      ReplacedKeepsIds(s[..|s| - 1], r);
    }
  }

  lemma AssignedKeepsKeyed(s: seq<Record>, r: Record)
    requires UniqueIds(s) && forall i :: 0 <= i < |s| ==> s[i].user == r.user
    ensures UniqueIds(Assigned(s, r)) && forall i :: 0 <= i < |Assigned(s, r)| ==> Assigned(s, r)[i].user == r.user
  {
    ReplacedKeepsIds(s, r);
    ReplacedAre(s, r);
    var after := Assigned(s, r);
    forall i | 0 <= i < |after| ensures after[i].user == r.user {
      assert after[i] in after;
    }
  }

  // ---------------------------------------------------------------- the object

  class InMemoryMemoryBackend {
    var records: Records

    ghost predicate Valid()
      reads this
    {
      Keyed(records)
    }

    constructor ()
      ensures Valid() && records == map[]
    {
      records := map[];
    }

    /** A record without a user is refused. */
    method PutRecord(r: Record) returns (ok: bool)
      requires Valid()
      modifies this
      ensures Valid() && ok == (r.user != "") && records == Apply(old(records), Put(r))
    {
      if r.user == "" {
        return false;
      }
      AssignedKeepsKeyed(RecordsOf(records, r.user), r);
      records := records[r.user := Assigned(RecordsOf(records, r.user), r)];
      return true;
    }

    /** An expired record is still returned. */
    method Get(user: string, id: string) returns (r: Option<Record>)
      requires Valid()
      ensures r.Some? <==> Has(RecordsOf(records, user), id)
      ensures r.Some? ==> r.value in RecordsOf(records, user) && r.value.id == id && r.value.user == user
    {
      var s := RecordsOf(records, user);
      for i := 0 to |s|
        invariant forall j :: 0 <= j < i ==> s[j].id != id
      {
        if s[i].id == id {
          return Some(s[i]);
        }
      }
      return None;
    }

    method Query(user: string, tag: string, limit: int, now: int) returns (r: seq<Record>)
      requires Valid()
      ensures r == QueryOf(RecordsOf(records, user), tag, limit, now)
      ensures forall q :: q in r ==> q.user == user
    {
      var entries := RecordsOf(records, user);
      var out := [];
      for i := 0 to |entries|
        invariant out == Tagged(Live(entries[..i], now), tag)
        invariant forall q :: q in out ==> q.user == user
      {
        assert entries[..i + 1][..i] == entries[..i];
        TaggedPush(Live(entries[..i], now), entries[i], tag);
        if IsExpired(entries[i], now) {
          continue;
        }
        if tag != "" && tag !in entries[i].tags {
          continue;
        }
        out := out + [entries[i]];
      }
      assert entries[..|entries|] == entries;
      SortKeepsRecords(out);
      r := TakeLimit(Newest(out), limit);
    }

    method DeleteRecord(user: string, id: string) returns (deleted: bool)
      requires Valid()
      modifies this
      ensures Valid() && deleted == Has(RecordsOf(old(records), user), id)
      ensures records == Apply(old(records), Delete(user, id))
    {
      var s := RecordsOf(records, user);
      deleted := exists i :: 0 <= i < |s| && s[i].id == id;
      if !deleted {
        NothingToRemove(s, id);
        assert user in records ==> records[user := s] == records;
        return;
      }
      KeepsUnique(s, id, 0);
      PartOf(s, id, 0);
      forall i | 0 <= i < |Without(s, id)| ensures Without(s, id)[i].user == user {
        assert Without(s, id)[i] in Without(s, id);
      }
      records := records[user := Without(s, id)];
    }

    method DeleteAllForUser(user: string) returns (count: nat)
      requires Valid()
      modifies this
      ensures Valid() && count == |RecordsOf(old(records), user)|
      ensures records == Apply(old(records), DeleteAll(user)) && RecordsOf(records, user) == []
    {
      count := |RecordsOf(records, user)|;
      records := records - {user};
    }

    /** Deletes and counts the expired records of one user. */
    static method DeleteExpired(snapshot: seq<Record>, now: int) returns (left: seq<Record>, purged: nat)
      requires UniqueIds(snapshot)
      ensures left == Live(snapshot, now) && purged == CountExpired(snapshot, now)
    {
      left, purged := snapshot, 0;
      for i := 0 to |snapshot|
        invariant left == Live(snapshot[..i], now) + snapshot[i..] && purged == CountExpired(snapshot[..i], now)
        invariant UniqueIds(left)
      {
        DeleteStep(snapshot, i, now);
        if IsExpired(snapshot[i], now) {
          KeepsUnique(left, snapshot[i].id, now);
          left := Without(left, snapshot[i].id);
          purged := purged + 1;
        }
      }
      assert snapshot[..|snapshot|] == snapshot && left == Live(snapshot, now);
    }

    /** One user's turn in a sweep; a user with nothing left goes too. */
    method SweepUser(user: string, now: int) returns (purged: nat)
      requires Valid() && user in records
      modifies this
      ensures Valid() && purged == CountExpired(old(records)[user], now)
      ensures records == if Live(old(records)[user], now) == [] then old(records) - {user}
                         else old(records)[user := Live(old(records)[user], now)]
    {
      var left, count := DeleteExpired(records[user], now);
      purged := count;
      KeepsUnique(records[user], "", now);
      PartOf(records[user], "", now);
      forall i | 0 <= i < |left| ensures left[i].user == user {
        assert left[i] in left;
      }
      if left == [] {
        records := records - {user};
      } else {
        records := records[user := left];
      }
    }

    /** The count is the number of records that had expired, over all users. */
    method SweepExpired(now: int) returns (purged: nat)
      requires Valid()
      modifies this
      ensures Valid() && records == Apply(old(records), Sweep(now))
      ensures purged == SumValues(ExpiredByUser(old(records), now))
    {
      purged := 0;
      var todo := records.Keys;
      ghost var before := records;
      NobodySwept(before, now);
      while todo != {}
        invariant Valid() && SweepReached(before, todo, now, records, purged)
        decreases |todo|
      {
        var user :| user in todo;
        OneMoreUserSwept(before, todo, user, now, records, purged);
        var count := SweepUser(user, now);
        purged := purged + count;
        todo := todo - {user};
      }
      EverybodySwept(before, now, records, purged);
    }
  }

  function Only(m: Records, users: set<string>): Records {
    map u | u in m && u in users :: m[u]
  }

  /** The users of `todo` are still as they were; all others have been swept. */
  function SweptBut(m: Records, todo: set<string>, now: int): Records {
    map u | u in m && (u in todo || Live(m[u], now) != []) :: if u in todo then m[u] else Live(m[u], now)
  }

  /** A sweep of `before` that has yet to visit the users of `todo`, and has purged `purged` records. */
  ghost predicate SweepReached(before: Records, todo: set<string>, now: int, records: Records, purged: nat) {
    && todo <= before.Keys && records == SweptBut(before, todo, now)
    && purged + SumValues(ExpiredByUser(Only(before, todo), now)) == SumValues(ExpiredByUser(before, now))
  }

  lemma NobodySwept(before: Records, now: int)
    ensures SweepReached(before, before.Keys, now, before, 0)
  {
    assert Only(before, before.Keys) == before;
  }

  lemma EverybodySwept(before: Records, now: int, records: Records, purged: nat)
    requires SweepReached(before, {}, now, records, purged)
    ensures records == Swept(before, now) && purged == SumValues(ExpiredByUser(before, now))
  {
    assert ExpiredByUser(Only(before, {}), now) == map[];
  }

  lemma OneMoreUserSwept(before: Records, todo: set<string>, user: string, now: int, records: Records, purged: nat)
    requires SweepReached(before, todo, now, records, purged) && user in todo
    ensures user in records && records[user] == before[user]
    ensures SweepReached(before, todo - {user}, now,
                         if Live(records[user], now) == [] then records - {user}
                         else records[user := Live(records[user], now)],
                         purged + CountExpired(records[user], now))
  {
    SweptOneMore(before, todo, user, now);
    CountedOneMore(before, todo, user, now);
  }

  lemma SweptOneMore(m: Records, todo: set<string>, user: string, now: int)
    requires user in todo && todo <= m.Keys
    ensures var s, t := SweptBut(m, todo, now), SweptBut(m, todo - {user}, now);
            && user in s && s[user] == m[user]
            && t == if Live(m[user], now) == [] then s - {user} else s[user := Live(m[user], now)]
  {
  }

  lemma CountedOneMore(m: Records, todo: set<string>, user: string, now: int)
    requires user in todo && todo <= m.Keys
    ensures SumValues(ExpiredByUser(Only(m, todo), now))
         == CountExpired(m[user], now) + SumValues(ExpiredByUser(Only(m, todo - {user}), now))
  {
    CountsWithoutUser(Only(m, todo), user, now);
    assert Only(m, todo) - {user} == Only(m, todo - {user});
  }

  /** What the loop over a snapshot has left after `i` records, and what deleting the next one leaves. */
  lemma DeleteStep(snapshot: seq<Record>, i: nat, now: int)
    requires i < |snapshot|
    ensures var live, next := Live(snapshot[..i], now), Live(snapshot[..i + 1], now);
            var left := live + snapshot[i..];
            && CountExpired(snapshot[..i + 1], now) == CountExpired(snapshot[..i], now) + (if IsExpired(snapshot[i], now) then 1 else 0)
            && (IsExpired(snapshot[i], now) && UniqueIds(left) ==> Without(left, snapshot[i].id) == next + snapshot[i + 1..])
            && (!IsExpired(snapshot[i], now) ==> left == next + snapshot[i + 1..])
  {
    assert snapshot[..i + 1][..i] == snapshot[..i];
    var live, rest := Live(snapshot[..i], now), snapshot[i + 1..];
    assert live + snapshot[i..] == live + [snapshot[i]] + rest;
    if UniqueIds(live + [snapshot[i]] + rest) {
      WithoutTheOne(live, snapshot[i], rest);
    }
  }

  lemma TaggedPush(s: seq<Record>, r: Record, tag: string)
    ensures Tagged(s + [r], tag) == if tag != "" && tag !in r.tags then Tagged(s, tag) else Tagged(s, tag) + [r]
  {
    assert (s + [r])[..|s|] == s;
  }

  lemma {:induction false} InsertKeepsRecords(r: Record, s: seq<Record>)
    ensures forall q :: q in Insert(r, s) <==> q == r || q in s
  {
    if s != [] && s[0].created > r.created {
      InsertKeepsRecords(r, s[1..]);
      assert s == [s[0]] + s[1..];
    }
  }

  lemma {:induction false} SortKeepsRecords(s: seq<Record>)
    ensures forall q :: q in Newest(s) <==> q in s
  {
    if s != [] {
      SortKeepsRecords(s[1..]);
      InsertKeepsRecords(s[0], Newest(s[1..]));
      assert s == [s[0]] + s[1..];
    }
  }
}
