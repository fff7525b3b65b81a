/**
 The approval store as a value: requests in insertion order, decisions, expiry, revocation and
 sweeping, and what every run of them keeps. Times are numbers; `now` is a parameter.
 */
module Approvals {
  import opened Collections
  import opened Joins

  datatype Verdict = Pending | Approved | Denied | Expired | Revoked

  datatype Decision = Decision(approver: string, verdict: Verdict, notes: string, token: string)

  datatype Record = Record(
    id: string, session: string, requestedBy: string, pool: seq<string>, quorum: int, expiresAt: int,
    verdict: Verdict, decisions: seq<Decision>)

  type Store = seq<Record>

  datatype Failure = InvalidVerdict | NotFound | PastExpiry | OwnRequest | AlreadyDecided

  // ---------------------------------------------------------------- tokens

  function VerdictText(v: Verdict): string {
    match v
    case Pending => "pending"
    case Approved => "approved"
    case Denied => "denied"
    case Expired => "expired"
    case Revoked => "revoked"
  }

  function TokenPayload(id: string, approver: string, verdict: Verdict): string {
    id + "|" + approver + "|" + VerdictText(verdict)
  }

  /** `sign` stands for the keyed HMAC. */
  function IssueToken(sign: string -> string, id: string, approver: string, verdict: Verdict): string {
    sign(TokenPayload(id, approver, verdict))
  }

  predicate VerifyToken(sign: string -> string, id: string, approver: string, verdict: Verdict, token: string) {
    IssueToken(sign, id, approver, verdict) == token
  }

  lemma VerdictTextsDiffer(v: Verdict, w: Verdict)
    ensures NoBar(VerdictText(v))
    ensures VerdictText(v) == VerdictText(w) ==> v == w
  {
    assert VerdictText(v)[0] == VerdictText(w)[0] ==> v == w;
  }

  /** One id, with a bar after it, begins the other. */
  predicate Overlap(id: string, id': string) {
    id + "|" <= id' || id' + "|" <= id
  }

  /** A token verifies for exactly one request, approver and verdict, as long as neither request id
      with a bar after it begins the other; nothing is asked of the approver's name. */
  lemma TokenBindsItsFields(
    sign: string -> string, id: string, approver: string, verdict: Verdict,
    id': string, approver': string, verdict': Verdict)
    requires Injective(sign) && !Overlap(id, id')
    ensures VerifyToken(sign, id', approver', verdict', IssueToken(sign, id, approver, verdict))
       <==> (id, approver, verdict) == (id', approver', verdict')
  {
    if TokenPayload(id, approver, verdict) == TokenPayload(id', approver', verdict') {
      VerdictTextsDiffer(verdict, verdict');
      VerdictTextsDiffer(verdict', verdict);
      SplitAtLastBar(id + "|" + approver, VerdictText(verdict), id' + "|" + approver', VerdictText(verdict'));
      SplitWithoutOverlap(id, approver, id', approver');
    }
  }

  lemma LongerIdOverlaps(a: string, b: string, c: string, d: string)
    requires |a| < |c| && a + "|" + b == c + "|" + d
    ensures Overlap(a, c)
  {
    var s := a + "|" + b;
    assert s[..|a| + 1] == a + "|" && s[..|c|] == c;
    assert c[..|a| + 1] == a + "|";
  }

  lemma SplitWithoutOverlap(a: string, b: string, c: string, d: string)
    requires !Overlap(a, c) && a + "|" + b == c + "|" + d
    ensures a == c && b == d
  {
    if |a| < |c| {
      LongerIdOverlaps(a, b, c, d);
    } else if |c| < |a| {
      LongerIdOverlaps(c, d, a, b);
    } else {
      var s := a + "|" + b;
      assert s[..|a|] == a == c && s[|a| + 1..] == b == d;
    }
  }

  /** Where they do overlap, one token stands for two decisions: what the longer id has after the bar
      can be read as the beginning of the other approver's name. */
  lemma OverlappingIdsShareAToken(sign: string -> string, id: string, id': string, approver': string, verdict: Verdict)
    returns (approver: string)
    requires id + "|" <= id'
    ensures IssueToken(sign, id, approver, verdict) == IssueToken(sign, id', approver', verdict)
    ensures id != id'
  {
    var rest := id'[|id| + 1..];
    approver := rest + "|" + approver';
    assert id' == id + "|" + rest;
    assert id + "|" + approver == id' + "|" + approver';
  }

  /** No token issued for one id verifies for another decision on the other. */
  ghost predicate KeptApart(sign: string -> string, id: string, id': string) {
    forall approver, verdict, approver', verdict' ::
      IssueToken(sign, id, approver, verdict) == IssueToken(sign, id', approver', verdict')
      ==> (id, approver, verdict) == (id', approver', verdict')
  }

  /** Exactly which pairs of request ids the tokens keep apart, whoever decides and however. */
  lemma TokensBindExactlyWithoutOverlap(sign: string -> string, id: string, id': string)
    requires Injective(sign)
    ensures KeptApart(sign, id, id') <==> !Overlap(id, id')
  {
    if id + "|" <= id' {
      var approver := OverlappingIdsShareAToken(sign, id, id', "", Approved);
      assert !KeptApart(sign, id, id');
    } else if id' + "|" <= id {
      var approver' := OverlappingIdsShareAToken(sign, id', id, "", Approved);
      assert !KeptApart(sign, id, id');
    } else {
      forall approver, verdict, approver', verdict'
        | IssueToken(sign, id, approver, verdict) == IssueToken(sign, id', approver', verdict')
        ensures (id, approver, verdict) == (id', approver', verdict')
      {
        TokenBindsItsFields(sign, id, approver, verdict, id', approver', verdict');
      }
    }
  }

  lemma OverlapNeedsABar(id: string, id': string)
    requires id + "|" <= id'
    ensures !NoBar(id') && id != id'
  {
    assert id'[|id|] == '|';
  }

  /** Ids without bars, UUIDs for instance, never overlap; nor does an id overlap itself. */
  lemma BarFreeIdsDoNotOverlap(id: string, id': string)
    requires (NoBar(id) && NoBar(id')) || id == id'
    ensures !Overlap(id, id')
  {
    if id + "|" <= id' {
      OverlapNeedsABar(id, id');
    } else if id' + "|" <= id {
      OverlapNeedsABar(id', id);
    }
  }

  /** An overlapping pair and a token they share. */
  lemma TokenAmbiguousWithBars(sign: string -> string)
    ensures Overlap("a|b", "a")
    ensures VerifyToken(sign, "a", "b|c", Approved, IssueToken(sign, "a|b", "c", Approved))
  {
    assert TokenPayload("a", "b|c", Approved) == TokenPayload("a|b", "c", Approved);
    assert "a" + "|" <= "a|b";
  }

  /** What is signed, spelt out. */
  lemma SignedText(id: string, approver: string)
    ensures TokenPayload(id, approver, Approved) == id + "|" + approver + "|approved"
    ensures TokenPayload(id, approver, Denied) == id + "|" + approver + "|denied"
  {
    assert id + "|" + approver + "|" + "approved" == id + "|" + approver + "|approved";
    assert id + "|" + approver + "|" + "denied" == id + "|" + approver + "|denied";
  }

  // ---------------------------------------------------------------- one record

  predicate IsExpired(r: Record, now: int) { now > r.expiresAt }

  function CountApprovals(ds: seq<Decision>): nat {
    if ds == [] then 0
    else CountApprovals(ds[..|ds| - 1]) + (if ds[|ds| - 1].verdict == Approved then 1 else 0)
  }

  predicate IsSatisfied(r: Record) { CountApprovals(r.decisions) >= r.quorum }

  predicate HasDecided(r: Record, approver: string) {
    exists i :: 0 <= i < |r.decisions| && r.decisions[i].approver == approver
  }

  /** `record_decision` on the record found: the new record and the error raised, if any. Expiry is
      looked at before the verdict is, so even a resolved record turns EXPIRED. */
  function Decide(sign: string -> string, r: Record, approver: string, verdict: Verdict, notes: string, now: int):
    (Record, Option<Failure>)
  {
    if IsExpired(r, now) then (r.(verdict := Expired), Some(PastExpiry))
    else if r.verdict != Pending then (r, None)
    else if approver == r.requestedBy then (r, Some(OwnRequest))
    else if HasDecided(r, approver) then (r, Some(AlreadyDecided))
    else
      var decision := Decision(approver, verdict, notes, IssueToken(sign, r.id, approver, verdict));
      var r := r.(decisions := r.decisions + [decision]);
      (if verdict == Denied then r.(verdict := Denied)
       else if IsSatisfied(r) then r.(verdict := Approved)
       else r, None)
  }

  function Revoke(r: Record, actor: string, reason: string): Record {
    if r.verdict != Pending then r
    else r.(verdict := Revoked, decisions := r.decisions + [Decision(actor, Revoked, reason, "")])
  }

  function Sweep(r: Record, now: int): Record {
    if r.verdict == Pending && IsExpired(r, now) then r.(verdict := Expired) else r
  }

  // ---------------------------------------------------------------- the whole store

  function Find(store: Store, id: string): Option<nat>
    ensures Find(store, id).Some? ==> Find(store, id).value < |store| && store[Find(store, id).value].id == id
    ensures Find(store, id).None? ==> forall i :: 0 <= i < |store| ==> store[i].id != id
  {
    if store == [] then None
    else if store[|store| - 1].id == id then Some(|store| - 1)
    else Find(store[..|store| - 1], id)
  }

  function Put(store: Store, r: Record): Store {
    match Find(store, r.id)
    case None => store + [r]
    case Some(i) => store[i := r]
  }

  function SweepAll(store: Store, now: int): (swept: Store)
    ensures |swept| == |store|
    ensures forall i :: 0 <= i < |store| ==> swept[i] == Sweep(store[i], now)
  {
    if store == [] then [] else SweepAll(store[..|store| - 1], now) + [Sweep(store[|store| - 1], now)]
  }

  datatype Op =
    | PutRequest(record: Record)
    | Respond(id: string, approver: string, verdict: Verdict, notes: string, now: int)
    | RevokeRequest(id: string, actor: string, reason: string)
    | SweepExpired(now: int)

  function Apply(sign: string -> string, store: Store, op: Op): Store {
    match op
    case PutRequest(r) => Put(store, r)
    case Respond(id, approver, verdict, notes, now) =>
      if verdict != Approved && verdict != Denied then store
      else
        (match Find(store, id)
         case None => store
         case Some(i) => store[i := Decide(sign, store[i], approver, verdict, notes, now).0])
    case RevokeRequest(id, actor, reason) =>
      (match Find(store, id)
       case None => store
       case Some(i) => store[i := Revoke(store[i], actor, reason)])
    case SweepExpired(now) => SweepAll(store, now)
  }

  function Run(sign: string -> string, ops: seq<Op>): Store {
    if ops == [] then [] else Apply(sign, Run(sign, ops[..|ops| - 1]), ops[|ops| - 1])
  }

  // ---------------------------------------------------------------- quorum invariants

  /** Requests are put as they are created: pending and without decisions. */
  predicate PutsNew(ops: seq<Op>) {
    forall i :: 0 <= i < |ops| && ops[i].PutRequest? ==> ops[i].record.verdict == Pending && ops[i].record.decisions == []
  }

  /** One approval resolves a request even if its quorum is zero or negative. */
  function Needed(quorum: int): nat { if quorum > 1 then quorum else 1 }

  predicate GoodApproval(sign: string -> string, r: Record, d: Decision) {
    d.verdict == Approved && d.approver != r.requestedBy && VerifyToken(sign, r.id, d.approver, Approved, d.token)
  }

  /** Approvals by pairwise distinct people other than the requester, each with a token that verifies. */
  ghost predicate GoodApprovals(sign: string -> string, r: Record, ds: seq<Decision>) {
    && (forall i :: 0 <= i < |ds| ==> GoodApproval(sign, r, ds[i]))
    && (forall i, j :: 0 <= i < j < |ds| ==> ds[i].approver != ds[j].approver)
  }

  /** The final decision of a denied request is a denial by someone else again. */
  ghost predicate GoodDenial(sign: string -> string, r: Record, ds: seq<Decision>) {
    && ds != []
    && GoodApprovals(sign, r, ds[..|ds| - 1]) && |ds| - 1 < Needed(r.quorum)
    && var last := ds[|ds| - 1];
      && last.verdict == Denied && last.approver != r.requestedBy
      && VerifyToken(sign, r.id, last.approver, Denied, last.token)
      && forall i :: 0 <= i < |ds| - 1 ==> ds[i].approver != last.approver
  }

  ghost predicate GoodRevocation(sign: string -> string, r: Record, ds: seq<Decision>) {
    && ds != []
    && GoodApprovals(sign, r, ds[..|ds| - 1]) && |ds| - 1 < Needed(r.quorum)
    && ds[|ds| - 1].verdict == Revoked
  }

  ghost predicate RecordInv(sign: string -> string, r: Record) {
    var ds := r.decisions;
    match r.verdict
    case Pending => GoodApprovals(sign, r, ds) && |ds| < Needed(r.quorum)
    case Approved => GoodApprovals(sign, r, ds) && |ds| == Needed(r.quorum)
    case Denied => GoodDenial(sign, r, ds)
    case Revoked => GoodRevocation(sign, r, ds)
    case Expired =>
      || (GoodApprovals(sign, r, ds) && |ds| <= Needed(r.quorum))
      || GoodDenial(sign, r, ds) || GoodRevocation(sign, r, ds)
  }

  lemma {:induction false} AllApproved(ds: seq<Decision>)
    requires forall i :: 0 <= i < |ds| ==> ds[i].verdict == Approved
    ensures CountApprovals(ds) == |ds|
  {
    if ds != [] {
      AllApproved(ds[..|ds| - 1]);
    }
  }

  /** The places of the decisions that approve. */
  ghost function Approving(ds: seq<Decision>): set<nat> {
    set i: nat | i < |ds| && ds[i].verdict == Approved
  }

  lemma ApprovingLast(ds: seq<Decision>)
    requires ds != []
    ensures var n := |ds| - 1;
            && n !in Approving(ds[..n])
            && Approving(ds) == if ds[n].verdict == Approved then Approving(ds[..n]) + {n} else Approving(ds[..n])
  {
  }

  /** The count of approvals is how many there are. */
  lemma {:induction false} ApprovalsAreCounted(ds: seq<Decision>)
    ensures CountApprovals(ds) == |Approving(ds)|
  {
    if ds == [] {
      assert Approving(ds) == {};
    } else {
      ApprovalsAreCounted(ds[..|ds| - 1]);
      ApprovingLast(ds);
    }
  }

  lemma OneMoreApproval(sign: string -> string, r: Record, d: Decision)
    requires GoodApprovals(sign, r, r.decisions) && !HasDecided(r, d.approver) && d.approver != r.requestedBy
    requires d.verdict == Approved && VerifyToken(sign, r.id, d.approver, Approved, d.token)
    ensures GoodApprovals(sign, r, r.decisions + [d])
  {
  }

  lemma ADenial(sign: string -> string, r: Record, d: Decision)
    requires GoodApprovals(sign, r, r.decisions) && !HasDecided(r, d.approver) && d.approver != r.requestedBy
    requires d.verdict == Denied && VerifyToken(sign, r.id, d.approver, Denied, d.token)
    requires |r.decisions| < Needed(r.quorum)
    ensures GoodDenial(sign, r, r.decisions + [d])
  {
    assert (r.decisions + [d])[..|r.decisions|] == r.decisions;
  }

  lemma GoodnessIsAboutIdentity(sign: string -> string, r: Record, r': Record, ds: seq<Decision>)
    requires r.id == r'.id && r.requestedBy == r'.requestedBy && r.quorum == r'.quorum
    ensures GoodApprovals(sign, r, ds) == GoodApprovals(sign, r', ds)
    ensures GoodDenial(sign, r, ds) == GoodDenial(sign, r', ds)
    ensures GoodRevocation(sign, r, ds) == GoodRevocation(sign, r', ds)
  {
  }

  /** A vote that is neither late, nor the requester's, nor a repetition. */
  predicate VoteCounts(r: Record, approver: string, now: int) {
    !IsExpired(r, now) && r.verdict == Pending && approver != r.requestedBy && !HasDecided(r, approver)
  }

  lemma ApprovalKeepsInv(sign: string -> string, r: Record, approver: string, notes: string, now: int)
    requires RecordInv(sign, r) && VoteCounts(r, approver, now)
    ensures RecordInv(sign, Decide(sign, r, approver, Approved, notes, now).0)
  {
    var r' := Decide(sign, r, approver, Approved, notes, now).0;
    OneMoreApproval(sign, r, Decision(approver, Approved, notes, IssueToken(sign, r.id, approver, Approved)));
    GoodnessIsAboutIdentity(sign, r, r', r'.decisions);
    assert GoodApprovals(sign, r', r'.decisions);
    AllApproved(r'.decisions);
  }

  lemma DenialKeepsInv(sign: string -> string, r: Record, approver: string, notes: string, now: int)
    requires RecordInv(sign, r) && VoteCounts(r, approver, now)
    ensures RecordInv(sign, Decide(sign, r, approver, Denied, notes, now).0)
  {
    var r' := Decide(sign, r, approver, Denied, notes, now).0;
    ADenial(sign, r, Decision(approver, Denied, notes, IssueToken(sign, r.id, approver, Denied)));
    GoodnessIsAboutIdentity(sign, r, r', r'.decisions);
  }

  lemma ExpiryKeepsInv(sign: string -> string, r: Record)
    requires RecordInv(sign, r)
    ensures RecordInv(sign, r.(verdict := Expired))
  {
    GoodnessIsAboutIdentity(sign, r, r.(verdict := Expired), r.decisions);
  }

  lemma DecideKeepsInv(sign: string -> string, r: Record, approver: string, verdict: Verdict, notes: string, now: int)
    requires RecordInv(sign, r) && (verdict == Approved || verdict == Denied)
    ensures RecordInv(sign, Decide(sign, r, approver, verdict, notes, now).0)
  {
    if !VoteCounts(r, approver, now) {
      ExpiryKeepsInv(sign, r);
    } else if verdict == Approved {
      ApprovalKeepsInv(sign, r, approver, notes, now);
    } else {
      DenialKeepsInv(sign, r, approver, notes, now);
    }
  }

  lemma RevokeKeepsInv(sign: string -> string, r: Record, actor: string, reason: string)
    requires RecordInv(sign, r)
    ensures RecordInv(sign, Revoke(r, actor, reason))
  {
    var ds := r.decisions + [Decision(actor, Revoked, reason, "")];
    assert ds[..|ds| - 1] == r.decisions;
    GoodnessIsAboutIdentity(sign, r, Revoke(r, actor, reason), ds);
  }

  lemma SweepKeepsInv(sign: string -> string, r: Record, now: int)
    requires RecordInv(sign, r)
    ensures RecordInv(sign, Sweep(r, now))
  {
    ExpiryKeepsInv(sign, r);
  }

  ghost predicate StoreInv(sign: string -> string, store: Store) {
    && (forall i :: 0 <= i < |store| ==> RecordInv(sign, store[i]))
    && (forall i, j :: 0 <= i < j < |store| ==> store[i].id != store[j].id)
  }

  lemma ReplacementKeepsInv(sign: string -> string, store: Store, i: nat, r: Record)
    requires StoreInv(sign, store) && i < |store| && r.id == store[i].id && RecordInv(sign, r)
    ensures StoreInv(sign, store[i := r])
  {
  }

  lemma ApplyKeepsInv(sign: string -> string, store: Store, op: Op)
    requires StoreInv(sign, store)
    requires op.PutRequest? ==> op.record.verdict == Pending && op.record.decisions == []
    ensures StoreInv(sign, Apply(sign, store, op))
  {
    match op
    case PutRequest(r) =>
      assert RecordInv(sign, r);
      var found := Find(store, r.id);
      if found.Some? {
        ReplacementKeepsInv(sign, store, found.value, r);
      }
    case Respond(id, approver, verdict, notes, now) =>
      var found := Find(store, id);
      if (verdict == Approved || verdict == Denied) && found.Some? {
        var r := store[found.value];
        DecideKeepsInv(sign, r, approver, verdict, notes, now);
        ReplacementKeepsInv(sign, store, found.value, Decide(sign, r, approver, verdict, notes, now).0);
      }
    case RevokeRequest(id, actor, reason) =>
      var found := Find(store, id);
      if found.Some? {
        RevokeKeepsInv(sign, store[found.value], actor, reason);
        ReplacementKeepsInv(sign, store, found.value, Revoke(store[found.value], actor, reason));
      }
    case SweepExpired(now) => SweepAllKeepsInv(sign, store, now);
  }

  lemma SweepAllKeepsInv(sign: string -> string, store: Store, now: int)
    requires StoreInv(sign, store)
    ensures StoreInv(sign, SweepAll(store, now))
  {
    forall i | 0 <= i < |store| ensures RecordInv(sign, Sweep(store[i], now)) {
      SweepKeepsInv(sign, store[i], now);
    }
  }

  /** What every reachable store keeps: an approved request has exactly its quorum of approvals by
      distinct people other than the requester, a pending one has fewer and nothing else, a denied or
      revoked one has exactly one final entry after such a list, and every token verifies. */
  lemma {:induction false} QuorumInEveryRun(sign: string -> string, ops: seq<Op>)
    requires PutsNew(ops)
    ensures StoreInv(sign, Run(sign, ops))
  {
    if ops != [] {
      var n := |ops| - 1;
      QuorumInEveryRun(sign, ops[..n]);
      ApplyKeepsInv(sign, Run(sign, ops[..n]), ops[n]);
    }
  }

  // ---------------------------------------------------------------- verdicts only climb

  function Rank(v: Verdict): nat {
    match v
    case Pending => 0
    case Expired => 2
    case _ => 1
  }

  function Clock(op: Op): Option<int> {
    match op
    case Respond(_, _, _, _, now) => Some(now)
    case SweepExpired(now) => Some(now)
    case _ => None
  }

  /** From one step to the next a record keeps its place and identity, its verdict can only climb,
      EXPIRED is final, recorded decisions stay, and before its expiry a resolved verdict is final. */
  lemma VerdictsOnlyClimb(sign: string -> string, store: Store, op: Op, i: nat)
    requires i < |store|
    requires op.PutRequest? ==> op.record.id != store[i].id
    ensures var after := Apply(sign, store, op);
            && i < |after|
            && after[i].id == store[i].id && after[i].expiresAt == store[i].expiresAt
            && (after[i].verdict == store[i].verdict || Rank(store[i].verdict) < Rank(after[i].verdict))
            && (store[i].verdict == Expired ==> after[i] == store[i])
            && store[i].decisions <= after[i].decisions
            && (store[i].verdict != Pending && (Clock(op).Some? ==> Clock(op).value <= store[i].expiresAt)
                ==> after[i] == store[i])
            && (after[i].verdict == Expired && store[i].verdict != Expired ==>
                Clock(op).Some? && Clock(op).value > store[i].expiresAt)
  {
  }

  /** The same over any continuation of a run that does not put the request again. */
  lemma {:induction false} VerdictsOnlyClimbOverRuns(sign: string -> string, store: Store, ops: seq<Op>, i: nat)
    requires i < |store|
    requires forall k :: 0 <= k < |ops| && ops[k].PutRequest? ==> ops[k].record.id != store[i].id
    ensures var after := Continue(sign, store, ops);
            && i < |after|
            && after[i].id == store[i].id && after[i].expiresAt == store[i].expiresAt
            && (after[i].verdict == store[i].verdict || Rank(store[i].verdict) < Rank(after[i].verdict))
            && (store[i].verdict == Expired ==> after[i] == store[i])
            && (store[i].verdict != Pending
                && (forall k :: 0 <= k < |ops| && Clock(ops[k]).Some? ==> Clock(ops[k]).value <= store[i].expiresAt)
                ==> after[i] == store[i])
  {
    if ops != [] {
      var n := |ops| - 1;
      VerdictsOnlyClimbOverRuns(sign, store, ops[..n], i);
      VerdictsOnlyClimb(sign, Continue(sign, store, ops[..n]), ops[n], i);
    }
  }

  function Continue(sign: string -> string, store: Store, ops: seq<Op>): Store {
    if ops == [] then store else Apply(sign, Continue(sign, store, ops[..|ops| - 1]), ops[|ops| - 1])
  }

  // ---------------------------------------------------------------- revoking, putting, refusing

  /** `r` with one decision more, by `actor` and with these notes and this verdict. */
  predicate DecisionAdded(r: Record, after: Record, actor: string, notes: string, verdict: Verdict) {
    && |after.decisions| == |r.decisions| + 1 && after.decisions[..|r.decisions|] == r.decisions
    && after.decisions[|r.decisions|].approver == actor && after.decisions[|r.decisions|].notes == notes
    && after.decisions[|r.decisions|].verdict == verdict
  }

  /** Everything but verdict and decisions is the same. */
  predicate SameRequest(r: Record, after: Record) {
    && after.id == r.id && after.session == r.session && after.requestedBy == r.requestedBy
    && after.pool == r.pool && after.quorum == r.quorum && after.expiresAt == r.expiresAt
  }

  /** A revocation resolves the pending request it names, with one more entry by the actor and for the
      reason given; a request that is already resolved, and every other request, stays as it was. */
  lemma RevocationRevokes(sign: string -> string, store: Store, id: string, actor: string, reason: string, i: nat)
    requires DistinctIds(store) && i < |store|
    ensures var after := Apply(sign, store, RevokeRequest(id, actor, reason));
            && |after| == |store| && SameRequest(store[i], after[i])
            && (id == store[i].id && store[i].verdict == Pending ==>
                  && after[i].verdict == Revoked && DecisionAdded(store[i], after[i], actor, reason, Revoked)
                  && after[i].decisions[|store[i].decisions|].token == "")
            && (id != store[i].id || store[i].verdict != Pending ==> after[i] == store[i])
  {
    StepOnOneRecord(sign, store, RevokeRequest(id, actor, reason), i);
  }

  /** A pending request that is revoked is never approved, whatever is attempted on it later: it stays
      revoked, keeps its decisions with the revocation among them, and can only expire. */
  lemma RevokedIsNeverApproved(
    sign: string -> string, store: Store, actor: string, reason: string, ops: seq<Op>, i: nat)
    requires DistinctIds(store) && i < |store| && store[i].verdict == Pending
    requires forall k :: 0 <= k < |ops| && ops[k].PutRequest? ==> ops[k].record.id != store[i].id
    ensures var revoked := Apply(sign, store, RevokeRequest(store[i].id, actor, reason));
            var after := Continue(sign, revoked, ops);
            && i < |after| && after[i].id == store[i].id
            && (after[i].verdict == Revoked || after[i].verdict == Expired)
            && i < |revoked| && after[i].decisions == revoked[i].decisions
            && DecisionAdded(store[i], after[i], actor, reason, Revoked)
  {
    RevocationRevokes(sign, store, store[i].id, actor, reason, i);
    var revoked := Apply(sign, store, RevokeRequest(store[i].id, actor, reason));
    StepKeepsIdsDistinct(sign, store, RevokeRequest(store[i].id, actor, reason));
    VerdictsOnlyClimbOverRuns(sign, revoked, ops, i);
    ResolvedKeepsItsDecisions(sign, revoked, ops, i);
  }

  lemma {:induction false} ResolvedKeepsItsDecisions(sign: string -> string, store: Store, ops: seq<Op>, i: nat)
    requires i < |store| && store[i].verdict != Pending
    requires forall k :: 0 <= k < |ops| && ops[k].PutRequest? ==> ops[k].record.id != store[i].id
    ensures var after := Continue(sign, store, ops);
            i < |after| && after[i].id == store[i].id && after[i].verdict != Pending && after[i].decisions == store[i].decisions
  {
    if ops != [] {
      var before, last := ops[..|ops| - 1], ops[|ops| - 1];
      ResolvedKeepsItsDecisions(sign, store, before, i);
      ResolvedStepKeepsDecisions(sign, Continue(sign, store, before), last, i);
    }
  }

  lemma ResolvedStepKeepsDecisions(sign: string -> string, store: Store, op: Op, i: nat)
    requires i < |store| && store[i].verdict != Pending
    requires op.PutRequest? ==> op.record.id != store[i].id
    ensures var after := Apply(sign, store, op);
            i < |after| && after[i].id == store[i].id && after[i].verdict != Pending && after[i].decisions == store[i].decisions
  {
  }

  /** A request that is put is the one found under its id: in the place of the one it replaces, or last. */
  lemma PutIsExact(sign: string -> string, store: Store, r: Record)
    requires DistinctIds(store)
    ensures var after := Apply(sign, store, PutRequest(r));
            && r in after && (forall s :: s in after && s.id == r.id ==> s == r)
            && (forall i :: 0 <= i < |store| ==> i < |after| && after[i] == if store[i].id == r.id then r else store[i])
            && ((exists i :: 0 <= i < |store| && store[i].id == r.id) ==> |after| == |store|)
            && (!(exists i :: 0 <= i < |store| && store[i].id == r.id) ==> |after| == |store| + 1 && after[|store|] == r)
  {
    var after := Apply(sign, store, PutRequest(r));
    var found := Find(store, r.id);
    if found.Some? {
      assert after[found.value] == r;
    } else {
      assert after[|store|] == r;
    }
  }

  /** Which attempts are refused, and with what: late ones first, then those on a request that is still
      pending by its requester or by somebody who has decided. Only a late attempt leaves a trace. */
  lemma RefusalsAreExact(sign: string -> string, r: Record, approver: string, verdict: Verdict, notes: string, now: int)
    ensures var (after, failure) := Decide(sign, r, approver, verdict, notes, now);
            var late, pending := now > r.expiresAt, r.verdict == Pending;
            var decided := exists i :: 0 <= i < |r.decisions| && r.decisions[i].approver == approver;
            && (failure == Some(PastExpiry) <==> late)
            && (failure == Some(OwnRequest) <==> !late && pending && approver == r.requestedBy)
            && (failure == Some(AlreadyDecided) <==> !late && pending && approver != r.requestedBy && decided)
            && failure != Some(InvalidVerdict) && failure != Some(NotFound)
            && SameRequest(r, after)
            && (late ==> after.verdict == Expired && after.decisions == r.decisions)
            && (!late && (!pending || failure.Some?) ==> after == r)
            && (!late && pending && failure.None? ==> DecisionAdded(r, after, approver, notes, verdict))
  {
  }

  // ---------------------------------------------------------------- the declarative reading

  datatype Attempt = Attempt(approver: string, verdict: Verdict, notes: string)

  /** A vote by somebody who may vote. */
  predicate Eligible(r: Record, a: Attempt) {
    (a.verdict == Approved || a.verdict == Denied) && a.approver != r.requestedBy
  }

  /** Somebody with this name has made an eligible attempt. */
  predicate Voted(r: Record, attempts: seq<Attempt>, approver: string) {
    exists i :: 0 <= i < |attempts| && Eligible(r, attempts[i]) && attempts[i].approver == approver
  }

  /** Each eligible approver's first attempt, in the order they were made. */
  function Ballots(r: Record, attempts: seq<Attempt>): seq<Attempt> {
    if attempts == [] then []
    else
      var n := |attempts| - 1;
      var before := Ballots(r, attempts[..n]);
      if Eligible(r, attempts[n]) && !Voted(r, attempts[..n], attempts[n].approver)
      then before + [attempts[n]] else before
  }

  function FirstDenial(ballots: seq<Attempt>): nat
    ensures FirstDenial(ballots) <= |ballots|
    ensures forall i :: 0 <= i < FirstDenial(ballots) ==> ballots[i].verdict != Denied
    ensures FirstDenial(ballots) < |ballots| ==> ballots[FirstDenial(ballots)].verdict == Denied
  {
    if ballots == [] then 0
    else
      var n := |ballots| - 1;
      var d := FirstDenial(ballots[..n]);
      if d < n then d else if ballots[n].verdict == Denied then n else n + 1
  }

  /** DENIED if a denial comes before the quorum-th approval, APPROVED if the quorum-th approval
      comes first, otherwise PENDING; and how many ballots that took. */
  function Reading(ballots: seq<Attempt>, needed: nat): (Verdict, nat)
    ensures Reading(ballots, needed).1 <= |ballots|
  {
    var d := FirstDenial(ballots);
    if d < |ballots| && d < needed then (Denied, d + 1)
    else if needed <= |ballots| then (Approved, needed)
    else (Pending, |ballots|)
  }

  function Votes(sign: string -> string, id: string, ballots: seq<Attempt>): seq<Decision> {
    seq(|ballots|, i requires 0 <= i < |ballots| =>
      Decision(ballots[i].approver, ballots[i].verdict, ballots[i].notes,
               IssueToken(sign, id, ballots[i].approver, ballots[i].verdict)))
  }

  ghost predicate ReadsAs(sign: string -> string, start: Record, r: Record, attempts: seq<Attempt>) {
    var ballots := Ballots(start, attempts);
    var (verdict, taken) := Reading(ballots, Needed(start.quorum));
    r == start.(verdict := verdict, decisions := Votes(sign, start.id, ballots[..taken]))
  }

  lemma FirstDenialOfPrefix(ballots: seq<Attempt>, x: Attempt)
    ensures FirstDenial(ballots + [x])
         == if FirstDenial(ballots) < |ballots| || x.verdict == Denied then FirstDenial(ballots) else |ballots| + 1
  {
    assert (ballots + [x])[..|ballots + [x]| - 1] == ballots;
  }

  /** Later ballots never change a reading that has resolved. */
  lemma ResolvedReadingIsFinal(ballots: seq<Attempt>, x: Attempt, needed: nat)
    requires Reading(ballots, needed).0 != Pending
    ensures Reading(ballots + [x], needed) == Reading(ballots, needed)
  {
    FirstDenialOfPrefix(ballots, x);
  }

  lemma {:induction false} BallotsAreVoters(r: Record, attempts: seq<Attempt>, approver: string)
    ensures Voted(r, attempts, approver) <==>
            exists i :: 0 <= i < |Ballots(r, attempts)| && Ballots(r, attempts)[i].approver == approver
    ensures forall i :: 0 <= i < |Ballots(r, attempts)| ==> Eligible(r, Ballots(r, attempts)[i])
  {
    if attempts != [] {
      var n := |attempts| - 1;
      BallotsAreVoters(r, attempts[..n], approver);
      var before, after := Ballots(r, attempts[..n]), Ballots(r, attempts);
      assert Voted(r, attempts, approver) <==>
        Voted(r, attempts[..n], approver) || (Eligible(r, attempts[n]) && attempts[n].approver == approver) by {
        if Voted(r, attempts[..n], approver) {
          var i :| 0 <= i < n && Eligible(r, attempts[..n][i]) && attempts[..n][i].approver == approver;
          assert Eligible(r, attempts[i]);
        }
      }
      if after != before {
        assert after[|before|] == attempts[n];
        assert forall i :: 0 <= i < |before| ==> after[i] == before[i];
      }
    }
  }

  lemma VotesOfPrefix(sign: string -> string, id: string, ballots: seq<Attempt>, x: Attempt)
    ensures Votes(sign, id, ballots + [x]) == Votes(sign, id, ballots)
      + [Decision(x.approver, x.verdict, x.notes, IssueToken(sign, id, x.approver, x.verdict))]
  {
  }

  /** A decision attempt before expiry turns a reading of the attempts so far into a reading of all. */
  lemma AttemptExtendsReading(
    sign: string -> string, start: Record, r: Record, attempts: seq<Attempt>, a: Attempt, now: int)
    requires ReadsAs(sign, start, r, attempts) && now <= start.expiresAt
    ensures ReadsAs(sign, start,
      if a.verdict == Approved || a.verdict == Denied then Decide(sign, r, a.approver, a.verdict, a.notes, now).0 else r,
      attempts + [a])
  {
    var all := attempts + [a];
    assert all[..|all| - 1] == attempts;
    var needed := Needed(start.quorum);
    var before, after := Ballots(start, attempts), Ballots(start, all);
    if after == before {
      if r.verdict == Pending {
        PendingRecordsEveryBallot(sign, start, r, attempts, a.approver);
      }
    } else if r.verdict != Pending {
      assert after == before + [a];
      ResolvedReadingIsFinal(before, a, needed);
      assert after[..Reading(before, needed).1] == before[..Reading(before, needed).1];
    } else {
      NewBallotIsCounted(sign, start, r, attempts, a, now);
    }
  }

  /** While a reading is pending, everybody whose ballot is in it has a recorded decision, and nobody else. */
  lemma PendingRecordsEveryBallot(sign: string -> string, start: Record, r: Record, attempts: seq<Attempt>, approver: string)
    requires ReadsAs(sign, start, r, attempts) && r.verdict == Pending
    ensures r.decisions == Votes(sign, start.id, Ballots(start, attempts))
    ensures HasDecided(r, approver) <==> Voted(start, attempts, approver)
  {
    var ballots := Ballots(start, attempts);
    assert ballots[..|ballots|] == ballots;
    BallotsAreVoters(start, attempts, approver);
    if HasDecided(r, approver) {
      var i :| 0 <= i < |r.decisions| && r.decisions[i].approver == approver;
      assert ballots[i].approver == approver;
    }
    if Voted(start, attempts, approver) {
      var i :| 0 <= i < |ballots| && ballots[i].approver == approver;
      assert r.decisions[i].approver == approver;
    }
  }

  /** What a counted vote adds to the decisions. */
  lemma CountedVoteIsRecorded(
    sign: string -> string, start: Record, r: Record, attempts: seq<Attempt>, a: Attempt, now: int)
    requires ReadsAs(sign, start, r, attempts) && now <= start.expiresAt && r.verdict == Pending
    requires Eligible(start, a) && !Voted(start, attempts, a.approver)
    ensures Ballots(start, attempts + [a]) == Ballots(start, attempts) + [a]
    ensures Decide(sign, r, a.approver, a.verdict, a.notes, now).0.decisions
         == Votes(sign, start.id, Ballots(start, attempts) + [a])
  {
    var all := attempts + [a];
    assert all[..|all| - 1] == attempts;
    PendingRecordsEveryBallot(sign, start, r, attempts, a.approver);
    VotesOfPrefix(sign, start.id, Ballots(start, attempts), a);
  }

  lemma ReadingAfterApproval(before: seq<Attempt>, a: Attempt, needed: nat)
    requires Reading(before, needed).0 == Pending && a.verdict == Approved
    ensures Reading(before + [a], needed)
         == (if |before| + 1 >= needed then Approved else Pending, |before| + 1)
  {
    FirstDenialOfPrefix(before, a);
  }

  lemma CountedApprovalVerdict(sign: string -> string, r: Record, a: Attempt, now: int)
    requires VoteCounts(r, a.approver, now) && a.verdict == Approved
    requires forall i :: 0 <= i < |r.decisions| ==> r.decisions[i].verdict == Approved
    ensures var r' := Decide(sign, r, a.approver, a.verdict, a.notes, now).0;
            && r'.verdict == (if |r.decisions| + 1 >= Needed(r.quorum) then Approved else Pending)
            && r' == r.(verdict := r'.verdict, decisions := r'.decisions)
  {
    var r' := Decide(sign, r, a.approver, a.verdict, a.notes, now).0;
    AllApproved(r'.decisions);
  }

  lemma CountedApproval(
    sign: string -> string, start: Record, r: Record, attempts: seq<Attempt>, a: Attempt, now: int)
    requires ReadsAs(sign, start, r, attempts) && now <= start.expiresAt && r.verdict == Pending
    requires Eligible(start, a) && !Voted(start, attempts, a.approver) && a.verdict == Approved
    ensures var r' := Decide(sign, r, a.approver, a.verdict, a.notes, now).0;
            var after := Ballots(start, attempts) + [a];
            && Reading(after, Needed(start.quorum)) == (r'.verdict, |after|)
            && r' == start.(verdict := r'.verdict, decisions := r'.decisions)
  {
    var before := Ballots(start, attempts);
    PendingRecordsEveryBallot(sign, start, r, attempts, a.approver);
    forall i | 0 <= i < |r.decisions| ensures r.decisions[i].verdict == Approved {
      BallotsAreVoters(start, attempts, a.approver);
      AllBallotsApprove(start, before);
    }
    CountedApprovalVerdict(sign, r, a, now);
    ReadingAfterApproval(before, a, Needed(start.quorum));
  }

  lemma CountedDenial(
    sign: string -> string, start: Record, r: Record, attempts: seq<Attempt>, a: Attempt, now: int)
    requires ReadsAs(sign, start, r, attempts) && now <= start.expiresAt && r.verdict == Pending
    requires Eligible(start, a) && !Voted(start, attempts, a.approver) && a.verdict == Denied
    ensures var r' := Decide(sign, r, a.approver, a.verdict, a.notes, now).0;
            var after := Ballots(start, attempts) + [a];
            && Reading(after, Needed(start.quorum)) == (r'.verdict, |after|)
            && r' == start.(verdict := r'.verdict, decisions := r'.decisions)
  {
    PendingRecordsEveryBallot(sign, start, r, attempts, a.approver);
    FirstDenialOfPrefix(Ballots(start, attempts), a);
  }

  lemma NewBallotIsCounted(
    sign: string -> string, start: Record, r: Record, attempts: seq<Attempt>, a: Attempt, now: int)
    requires ReadsAs(sign, start, r, attempts) && now <= start.expiresAt && r.verdict == Pending
    requires Eligible(start, a) && !Voted(start, attempts, a.approver)
    ensures ReadsAs(sign, start, Decide(sign, r, a.approver, a.verdict, a.notes, now).0, attempts + [a])
  {
    var after := Ballots(start, attempts) + [a];
    CountedVoteIsRecorded(sign, start, r, attempts, a, now);
    assert after[..|after|] == after;
    if a.verdict == Approved {
      CountedApproval(sign, start, r, attempts, a, now);
    } else {
      CountedDenial(sign, start, r, attempts, a, now);
    }
  }

  lemma AllBallotsApprove(start: Record, ballots: seq<Attempt>)
    requires Reading(ballots, Needed(start.quorum)).0 == Pending
    requires forall i :: 0 <= i < |ballots| ==> Eligible(start, ballots[i])
    ensures forall i :: 0 <= i < |ballots| ==> ballots[i].verdict == Approved
  {
    assert FirstDenial(ballots) == |ballots|;
  }

  /** The decision attempts a run makes on one request. */
  function AttemptsOn(id: string, ops: seq<Op>): seq<Attempt> {
    if ops == [] then []
    else
      var last := ops[|ops| - 1];
      var before := AttemptsOn(id, ops[..|ops| - 1]);
      if last.Respond? && last.id == id then before + [Attempt(last.approver, last.verdict, last.notes)] else before
  }

  /** The run neither replaces nor revokes the request, and makes no step after its expiry. */
  ghost predicate OnlyAttempts(r: Record, ops: seq<Op>) {
    forall k :: 0 <= k < |ops| ==>
      && (ops[k].PutRequest? ==> ops[k].record.id != r.id)
      && (ops[k].RevokeRequest? ==> ops[k].id != r.id)
      && (Clock(ops[k]).Some? ==> Clock(ops[k]).value <= r.expiresAt)
  }

  /** Whatever else happens in the store, a new request's verdict and decisions are the declarative
      reading of the attempts made on it before its expiry. */
  lemma {:induction false} VerdictReadsTheAttempts(sign: string -> string, store: Store, ops: seq<Op>, i: nat)
    requires i < |store| && store[i].verdict == Pending && store[i].decisions == []
    requires DistinctIds(store) && OnlyAttempts(store[i], ops)
    ensures |store| <= |Continue(sign, store, ops)| && DistinctIds(Continue(sign, store, ops))
    ensures ReadsAs(sign, store[i], Continue(sign, store, ops)[i], AttemptsOn(store[i].id, ops))
  {
    if ops != [] {
      var n := |ops| - 1;
      assert OnlyAttempts(store[i], ops[..n]);
      VerdictReadsTheAttempts(sign, store, ops[..n], i);
      var s := Continue(sign, store, ops[..n]);
      StepKeepsIdsDistinct(sign, s, ops[n]);
      assert OnlyAttempts(store[i], [ops[n]]);
      assert AttemptsOn(store[i].id, ops[..n]) + [] == AttemptsOn(store[i].id, ops[..n]);
      StepReadsTheAttempts(sign, s, ops[n], store[i], i, AttemptsOn(store[i].id, ops[..n]));
    }
  }

  ghost predicate DistinctIds(s: Store) {
    forall j, k :: 0 <= j < k < |s| ==> s[j].id != s[k].id
  }

  lemma StepKeepsIdsDistinct(sign: string -> string, s: Store, op: Op)
    requires DistinctIds(s)
    ensures DistinctIds(Apply(sign, s, op)) && |s| <= |Apply(sign, s, op)|
    ensures forall i :: 0 <= i < |s| ==> Apply(sign, s, op)[i].id == s[i].id
  {
  }

  /** Only a step that names a record, or a sweep, can change it. */
  lemma StepOnOneRecord(sign: string -> string, s: Store, op: Op, i: nat)
    requires DistinctIds(s) && i < |s|
    requires op.PutRequest? ==> op.record.id != s[i].id
    ensures i < |Apply(sign, s, op)|
    ensures Apply(sign, s, op)[i] == match op
      case PutRequest(_) => s[i]
      case Respond(id, approver, verdict, notes, now) =>
        if id == s[i].id && (verdict == Approved || verdict == Denied)
        then Decide(sign, s[i], approver, verdict, notes, now).0 else s[i]
      case RevokeRequest(id, actor, reason) => if id == s[i].id then Revoke(s[i], actor, reason) else s[i]
      case SweepExpired(now) => Sweep(s[i], now)
  {
  }

  lemma StepReadsTheAttempts(sign: string -> string, s: Store, op: Op, start: Record, i: nat, attempts: seq<Attempt>)
    requires i < |s| && ReadsAs(sign, start, s[i], attempts) && DistinctIds(s)
    requires OnlyAttempts(start, [op])
    ensures i < |Apply(sign, s, op)|
    ensures ReadsAs(sign, start, Apply(sign, s, op)[i],
      attempts + if op.Respond? && op.id == start.id then [Attempt(op.approver, op.verdict, op.notes)] else [])
  {
    assert [op][0] == op;
    assert attempts + [] == attempts;
    StepOnOneRecord(sign, s, op, i);
    if op.Respond? && op.id == start.id {
      AttemptExtendsReading(sign, start, s[i], attempts, Attempt(op.approver, op.verdict, op.notes), op.now);
    }
  }

  /** The eligible approvers among the attempts. */
  ghost function Voters(r: Record, attempts: seq<Attempt>): set<string> {
    set i | 0 <= i < |attempts| && Eligible(r, attempts[i]) :: attempts[i].approver
  }

  lemma {:induction false} OneBallotPerVoter(r: Record, attempts: seq<Attempt>)
    ensures |Ballots(r, attempts)| == |Voters(r, attempts)|
  {
    if attempts == [] {
      assert Voters(r, attempts) == {};
    } else {
      var n := |attempts| - 1;
      OneBallotPerVoter(r, attempts[..n]);
      var last := attempts[n];
      var before, after := Voters(r, attempts[..n]), Voters(r, attempts);
      assert forall i :: 0 <= i < n ==> attempts[..n][i] == attempts[i];
      assert Voted(r, attempts[..n], last.approver) <==> last.approver in before;
      if Eligible(r, last) {
        assert after == before + {last.approver};
      } else {
        assert after == before;
      }
    }
  }

  /** Without denials the verdict depends only on who approved, not on how often or in which order. */
  lemma WithoutDenialsOnlyTheVotersMatter(
    sign: string -> string, start: Record, r: Record, attempts: seq<Attempt>)
    requires ReadsAs(sign, start, r, attempts)
    requires forall i :: 0 <= i < |attempts| && Eligible(start, attempts[i]) ==> attempts[i].verdict == Approved
    ensures r.verdict == if |Voters(start, attempts)| >= Needed(start.quorum) then Approved else Pending
  {
    OneBallotPerVoter(start, attempts);
    BallotsComeFromAttempts(start, attempts);
    var ballots := Ballots(start, attempts);
    forall i | 0 <= i < |ballots| ensures ballots[i].verdict == Approved {
      assert ballots[i] in ballots;
    }
  }

  lemma {:induction false} BallotsComeFromAttempts(r: Record, attempts: seq<Attempt>)
    ensures forall a :: a in Ballots(r, attempts) ==> a in attempts && Eligible(r, a)
  {
    if attempts != [] {
      BallotsComeFromAttempts(r, attempts[..|attempts| - 1]);
    }
  }

  // ---------------------------------------------------------------- listing and sweeping

  /** Pending requests past their expiry, in store order. */
  function ListExpired(store: Store, now: int): seq<Record> {
    if store == [] then []
    else
      var last := store[|store| - 1];
      ListExpired(store[..|store| - 1], now)
        + (if last.verdict == Pending && IsExpired(last, now) then [last] else [])
  }

  /** The filters of `list_pending`; the empty text means no filter. */
  predicate Selected(r: Record, session: string, approver: string) {
    && (session != "" ==> r.session == session)
    && (approver != "" && r.pool != [] ==> approver in r.pool)
  }

  function ListPending(store: Store, session: string, approver: string, now: int): seq<Record> {
    if store == [] then []
    else
      var last := store[|store| - 1];
      ListPending(store[..|store| - 1], session, approver, now)
        + (if last.verdict == Pending && !IsExpired(last, now) && Selected(last, session, approver) then [last] else [])
  }

  /** The pending records of the store. */
  function PendingRecords(store: Store): multiset<Record> {
    if store == [] then multiset{}
    else
      var last := store[|store| - 1];
      PendingRecords(store[..|store| - 1]) + (if last.verdict == Pending then multiset{last} else multiset{})
  }

  /** At every time, the pending requests are split between the two lists, each into exactly one. */
  lemma {:induction false} PendingSplitsInTwo(store: Store, now: int)
    ensures PendingRecords(store) == multiset(ListPending(store, "", "", now)) + multiset(ListExpired(store, now))
    ensures forall r :: r in ListPending(store, "", "", now) ==> r !in ListExpired(store, now)
  {
    if store != [] {
      PendingSplitsInTwo(store[..|store| - 1], now);
      MembersOfLists(store, "", "", now);
    }
  }

  /** Exactly which records the two lists contain. */
  lemma {:induction false} MembersOfLists(store: Store, session: string, approver: string, now: int)
    ensures forall r :: r in ListPending(store, session, approver, now) <==>
      r in store && r.verdict == Pending && now <= r.expiresAt && Selected(r, session, approver)
    ensures forall r :: r in ListExpired(store, now) <==>
      r in store && r.verdict == Pending && r.expiresAt < now
  {
    if store != [] {
      var n := |store| - 1;
      MembersOfLists(store[..n], session, approver, now);
      assert store == store[..n] + [store[n]];
    }
  }

  lemma SweepAllOfPrefix(store: Store, now: int)
    requires store != []
    ensures SweepAll(store, now)[..|store| - 1] == SweepAll(store[..|store| - 1], now)
  {
  }

  /** A sweep removes exactly the expired list and leaves the pending list alone. */
  lemma {:induction false} SweepIsExact(store: Store, session: string, approver: string, now: int)
    ensures ListExpired(SweepAll(store, now), now) == []
    ensures ListPending(SweepAll(store, now), session, approver, now) == ListPending(store, session, approver, now)
    ensures forall i :: 0 <= i < |store| ==>
      (SweepAll(store, now)[i] == if store[i] in ListExpired(store, now) then store[i].(verdict := Expired) else store[i])
  {
    if store != [] {
      SweepIsExact(store[..|store| - 1], session, approver, now);
      SweepAllOfPrefix(store, now);
    }
    MembersOfLists(store, session, approver, now);
  }

  /** Sweeping early and again later is sweeping once, later; and the counts add up. */
  lemma {:induction false} SweepsCompose(store: Store, t1: int, t2: int)
    requires t1 <= t2
    ensures SweepAll(SweepAll(store, t1), t2) == SweepAll(store, t2)
    ensures |ListExpired(store, t1)| + |ListExpired(SweepAll(store, t1), t2)| == |ListExpired(store, t2)|
  {
    if store != [] {
      SweepsCompose(store[..|store| - 1], t1, t2);
      SweepAllOfPrefix(store, t1);
    }
  }

  // ---------------------------------------------------------------- the reconciliation check

  /** What is reported: both counts, and the ids of the first ten listed. */
  datatype Issue = Issue(expiredCount: nat, sweptCount: nat, requestIds: seq<string>)

  const SHOWN := 10

  function IdsOf(records: seq<Record>): (ids: seq<string>)
    ensures |ids| == |records| && forall i :: 0 <= i < |ids| ==> ids[i] == records[i].id
  {
    if records == [] then [] else IdsOf(records[..|records| - 1]) + [records[|records| - 1].id]
  }

  /** List at one reading of the clock, and only if something is listed, sweep at a later one. */
  function Reconcile(store: Store, listAt: int, sweepAt: int): (Store, Option<Issue>) {
    if ListExpired(store, listAt) == [] then (store, None)
    else
      (SweepAll(store, sweepAt),
       Some(Issue(|ListExpired(store, listAt)|, |ListExpired(store, sweepAt)|,
                  TakeLimit(IdsOf(ListExpired(store, listAt)), SHOWN))))
  }

  /** After the check nothing is listed as expired at the time it last looked; everything it listed
      was swept, and a second check at that time has nothing to report. */
  lemma ReconcileLeavesNothingExpired(store: Store, listAt: int, sweepAt: int)
    requires listAt <= sweepAt
    ensures var (after, issue) := Reconcile(store, listAt, sweepAt);
            var t := if issue.Some? then sweepAt else listAt;
            && ListExpired(after, t) == []
            && Reconcile(after, t, t) == (after, None)
            && (issue.Some? ==> issue.value.sweptCount >= issue.value.expiredCount > 0)
            && (issue.Some? && listAt == sweepAt ==> issue.value.sweptCount == issue.value.expiredCount)
            && (issue.None? <==> ListExpired(store, listAt) == []) && (issue.None? ==> after == store)
            && (issue.Some? ==>
                  && after == SweepAll(store, sweepAt)
                  && issue.value.expiredCount == |ListExpired(store, listAt)|
                  && issue.value.sweptCount == |ListExpired(store, sweepAt)|
                  && |issue.value.requestIds| == (if issue.value.expiredCount <= 10 then issue.value.expiredCount else 10)
                  && forall k :: 0 <= k < |issue.value.requestIds| ==> issue.value.requestIds[k] == ListExpired(store, listAt)[k].id)
  {
    SweepIsExact(store, "", "", sweepAt);
    SweepsCompose(store, listAt, sweepAt);
  }
}
