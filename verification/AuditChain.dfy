/**
 The audit hash chain as a value: entries, their checksums, day files and reloading. `digest` stands
 for SHA-256 followed by hexdigest; what is assumed of it is `GoodDigest`.
 */
module AuditChain {
  import opened Joins

  /** What the caller of `log` supplies, with the id and clock reading of the entry. `extra` is
      everything a checksum does not cover: provider, details, correlation and related ids. */
  datatype Event = Event(
    id: string, day: int, stamp: string, action: string, actor: string, target: string, outcome: string,
    extra: string)

  datatype Entry = Entry(event: Event, checksum: string)

  /** The covered fields after the previous checksum, joined as the code joins them. */
  function Body(e: Event): string {
    e.id + "|" + (e.stamp + "|" + (e.action + "|" + (e.actor + "|" + (e.target + "|" + e.outcome))))
  }

  function Checksum(digest: string -> string, prev: string, e: Event): string {
    digest(prev + "|" + Body(e))
  }

  /** What is hashed, spelt out. */
  lemma HashedText(digest: string -> string, prev: string, e: Event)
    ensures Checksum(digest, prev, e)
         == digest(prev + "|" + e.id + "|" + e.stamp + "|" + e.action + "|" + e.actor + "|" + e.target + "|" + e.outcome)
  {
    var e1 := e.actor + "|" + (e.target + "|" + e.outcome);
    assert prev + "|" + Body(e)
        == prev + "|" + e.id + "|" + e.stamp + "|" + e.action + "|" + e1
        == prev + "|" + e.id + "|" + e.stamp + "|" + e.action + "|" + e.actor + "|" + e.target + "|" + e.outcome;
  }

  /** SHA-256 in hexadecimal: no collisions, never empty, no '|'. */
  ghost predicate GoodDigest(digest: string -> string) {
    && Injective(digest)
    && (forall x :: digest(x) != "")
    && (forall x :: NoBar(digest(x)))
  }

  function LastChecksum(entries: seq<Entry>): string {
    if entries == [] then "" else entries[|entries| - 1].checksum
  }

  /** The checksum entry `i` must have, given the one recorded before it. */
  function ExpectedAt(digest: string -> string, entries: seq<Entry>, i: nat): string
    requires i < |entries|
  {
    Checksum(digest, LastChecksum(entries[..i]), entries[i].event)
  }

  predicate ViolationAt(digest: string -> string, entries: seq<Entry>, i: nat)
    requires i < |entries|
  {
    entries[i].checksum != ExpectedAt(digest, entries, i)
  }

  /** `verify_integrity` reports nothing. */
  ghost predicate Chained(digest: string -> string, entries: seq<Entry>) {
    forall i :: 0 <= i < |entries| ==> !ViolationAt(digest, entries, i)
  }

  lemma ViolationsArePrefixLocal(digest: string -> string, entries: seq<Entry>, n: nat, i: nat)
    requires i < n <= |entries|
    ensures ViolationAt(digest, entries[..n], i) == ViolationAt(digest, entries, i)
  {
    assert entries[..n][..i] == entries[..i];
  }

  lemma ChainedPrefix(digest: string -> string, entries: seq<Entry>, n: nat)
    requires Chained(digest, entries) && n <= |entries|
    ensures Chained(digest, entries[..n])
  {
    forall i | 0 <= i < n ensures !ViolationAt(digest, entries[..n], i) {
      ViolationsArePrefixLocal(digest, entries, n, i);
    }
  }

  lemma ChainedPush(digest: string -> string, entries: seq<Entry>, e: Entry)
    ensures Chained(digest, entries + [e]) <==>
      Chained(digest, entries) && e.checksum == Checksum(digest, LastChecksum(entries), e.event)
  {
    var all := entries + [e];
    assert all[..|entries|] == entries;
    if Chained(digest, all) {
      ChainedPrefix(digest, all, |entries|);
      assert !ViolationAt(digest, all, |entries|);
    }
    if Chained(digest, entries) && e.checksum == Checksum(digest, LastChecksum(entries), e.event) {
      forall i | 0 <= i < |all| ensures !ViolationAt(digest, all, i) {
        if i < |entries| {
          ViolationsArePrefixLocal(digest, all, |entries|, i);
        }
      }
    }
  }

  // ---------------------------------------------------------------- uniqueness

  predicate BarFree(e: Event) {
    NoBar(e.id) && NoBar(e.stamp) && NoBar(e.action) && NoBar(e.actor) && NoBar(e.target) && NoBar(e.outcome)
  }

  /** The covered fields. */
  predicate SameCovered(e: Event, f: Event) {
    e.id == f.id && e.stamp == f.stamp && e.action == f.action && e.actor == f.actor
    && e.target == f.target && e.outcome == f.outcome
  }

  function Bars(s: string): nat {
    if s == "" then 0 else Bars(s[..|s| - 1]) + (if s[|s| - 1] == '|' then 1 else 0)
  }

  lemma {:induction false} BarsAdd(a: string, b: string)
    ensures Bars(a + b) == Bars(a) + Bars(b)
  {
    if b == "" {
      assert a + b == a;
    } else {
      assert (a + b)[..|a + b| - 1] == a + b[..|b| - 1];
      BarsAdd(a, b[..|b| - 1]);
    }
  }

  lemma {:induction false} NoBarsExactly(s: string)
    ensures Bars(s) == 0 <==> NoBar(s)
  {
    if s != "" {
      var n := |s| - 1;
      NoBarsExactly(s[..n]);
      assert s == s[..n] + [s[n]];
    }
  }

  lemma BarsOfJoin(a: string, rest: string)
    ensures Bars(a + "|" + rest) == Bars(a) + 1 + Bars(rest)
  {
    BarsAdd(a, "|");
    assert "|"[..0] == "";
    assert Bars("|") == 1;
    BarsAdd(a + "|", rest);
  }

  /** A body has five bars exactly when no field holds one. */
  lemma BodyHasFiveBarsExactly(e: Event)
    ensures Bars(Body(e)) == 5 <==> BarFree(e)
  {
    var e3 := e.target + "|" + e.outcome;
    var e2 := e.actor + "|" + e3;
    var e1 := e.action + "|" + e2;
    var e0 := e.stamp + "|" + e1;
    BarsOfJoin(e.target, e.outcome);
    BarsOfJoin(e.actor, e3);
    BarsOfJoin(e.action, e2);
    BarsOfJoin(e.stamp, e1);
    BarsOfJoin(e.id, e0);
    assert Body(e) == e.id + "|" + e0;
    FieldBars(e);
  }

  lemma FieldBars(e: Event)
    ensures BarFree(e) <==>
      Bars(e.id) + Bars(e.stamp) + Bars(e.action) + Bars(e.actor) + Bars(e.target) + Bars(e.outcome) == 0
  {
    NoBarsExactly(e.id);
    NoBarsExactly(e.stamp);
    NoBarsExactly(e.action);
    NoBarsExactly(e.actor);
    NoBarsExactly(e.target);
    NoBarsExactly(e.outcome);
  }

  lemma BarFreeBodiesSplit(e: Event, f: Event)
    requires BarFree(e) && BarFree(f) && Body(e) == Body(f)
    ensures SameCovered(e, f)
  {
    var e3, f3 := e.target + "|" + e.outcome, f.target + "|" + f.outcome;
    var e2, f2 := e.actor + "|" + e3, f.actor + "|" + f3;
    var e1, f1 := e.action + "|" + e2, f.action + "|" + f2;
    SplitAtFirstBar(e.id, e.stamp + "|" + e1, f.id, f.stamp + "|" + f1);
    SplitAtFirstBar(e.stamp, e1, f.stamp, f1);
    SplitAtFirstBar(e.action, e2, f.action, f2);
    SplitAtFirstBar(e.actor, e3, f.actor, f3);
    SplitAtFirstBar(e.target, e.outcome, f.target, f.outcome);
  }

  /** A body made of '|'-free fields can be read back, whatever is compared with it. */
  lemma BodyDeterminesFields(e: Event, f: Event)
    requires BarFree(e) && Body(e) == Body(f)
    ensures SameCovered(e, f)
  {
    BodyHasFiveBarsExactly(e);
    BodyHasFiveBarsExactly(f);
    BarFreeBodiesSplit(e, f);
  }

  /** A bar inside a field can be read as the separator after it... */
  lemma ShiftRight(a: string, next: string, rest: string) returns (p: string, q: string)
    requires !NoBar(a)
    ensures a != p && a + "|" + (next + rest) == p + "|" + ((q + "|" + next) + rest)
  {
    var i :| 0 <= i < |a| && a[i] == '|';
    p, q := a[..i], a[i + 1..];
    assert a == p + "|" + q;
    assert a + "|" + (next + rest) == p + "|" + ((q + "|" + next) + rest);
  }

  /** ...and in the last field as the one before it. */
  lemma ShiftLeft(before: string, a: string) returns (p: string, q: string)
    requires !NoBar(a)
    ensures a != q && before + "|" + a == (before + "|" + p) + "|" + q
  {
    var i :| 0 <= i < |a| && a[i] == '|';
    p, q := a[..i], a[i + 1..];
    assert a == p + "|" + q;
  }

  /** Id and timestamp, which the program makes itself and which never hold a bar, are the same. */
  predicate SameOrigin(e: Event, f: Event) {
    e.id == f.id && e.stamp == f.stamp
  }

  /** Another event with the same body, for any event with a bar in a field; only its action, actor,
      target or outcome differ unless the bar is in the id or the timestamp. */
  lemma BarsMakeATwin(e: Event) returns (f: Event)
    requires !BarFree(e)
    ensures Body(f) == Body(e) && !SameCovered(e, f)
    ensures NoBar(e.id) && NoBar(e.stamp) ==> SameOrigin(e, f)
  {
    var e3 := e.target + "|" + e.outcome;
    var e2 := e.actor + "|" + e3;
    var e1 := e.action + "|" + e2;
    if !NoBar(e.id) {
      var p, q := ShiftRight(e.id, e.stamp, "|" + e1);
      f := e.(id := p, stamp := q + "|" + e.stamp);
      Reassociate(e.stamp, e1);
      Reassociate(f.stamp, e1);
    } else if !NoBar(e.stamp) {
      var p, q := ShiftRight(e.stamp, e.action, "|" + e2);
      f := e.(stamp := p, action := q + "|" + e.action);
      Reassociate(e.action, e2);
      Reassociate(f.action, e2);
    } else if !NoBar(e.action) {
      var p, q := ShiftRight(e.action, e.actor, "|" + e3);
      f := e.(action := p, actor := q + "|" + e.actor);
      Reassociate(e.actor, e3);
      Reassociate(f.actor, e3);
    } else if !NoBar(e.actor) {
      var p, q := ShiftRight(e.actor, e.target, "|" + e.outcome);
      f := e.(actor := p, target := q + "|" + e.target);
      Reassociate(e.target, e.outcome);
      Reassociate(f.target, e.outcome);
    } else if !NoBar(e.target) {
      var p, q := ShiftRight(e.target, e.outcome, "");
      f := e.(target := p, outcome := q + "|" + e.outcome);
      assert e.outcome + "" == e.outcome && f.outcome + "" == f.outcome;
    } else {
      var p, q := ShiftLeft(e.target, e.outcome);
      f := e.(target := e.target + "|" + p, outcome := q);
    }
  }

  lemma Reassociate(a: string, rest: string)
    ensures a + "|" + rest == a + ("|" + rest)
  {
  }

  /** Exactly which events can be read back from their body: those without a bar in any field. For the
      events the program makes it is the same when id and timestamp are known as well. */
  lemma BodyIsReadableExactlyWithoutBars(e: Event)
    ensures (forall f :: Body(f) == Body(e) ==> SameCovered(e, f)) <==> BarFree(e)
    ensures NoBar(e.id) && NoBar(e.stamp) ==>
      ((forall f :: Body(f) == Body(e) && SameOrigin(e, f) ==> SameCovered(e, f)) <==> BarFree(e))
  {
    if BarFree(e) {
      forall f | Body(f) == Body(e) ensures SameCovered(e, f) {
        BodyDeterminesFields(e, f);
      }
    } else {
      var f := BarsMakeATwin(e);
    }
  }

  /** One such pair, written out. */
  lemma BodyIsAmbiguousWithBars()
    ensures exists e: Event, f: Event :: Body(e) == Body(f) && !SameCovered(e, f)
  {
    var e := Event("1", 0, "t", "a|b", "c", "x", "ok", "");
    var f := Event("1", 0, "t", "a", "b|c", "x", "ok", "");
    assert Body(e) == "1|t|a|b|c|x|ok" == Body(f);
    assert e.action[1] == '|' && !SameCovered(e, f);
  }

  /** A checksum pins down the previous checksum and the body, whatever the fields contain. */
  lemma ChecksumPinsBoth(digest: string -> string, p: string, e: Event, q: string, f: Event)
    requires GoodDigest(digest) && NoBar(p) && NoBar(q)
    requires Checksum(digest, p, e) == Checksum(digest, q, f)
    ensures p == q && Body(e) == Body(f)
  {
    SplitAtFirstBar(p, Body(e), q, Body(f));
  }

  lemma LastChecksumOfChain(digest: string -> string, entries: seq<Entry>)
    requires GoodDigest(digest) && Chained(digest, entries)
    ensures NoBar(LastChecksum(entries))
    ensures LastChecksum(entries) == "" <==> entries == []
  {
    if entries != [] {
      assert !ViolationAt(digest, entries, |entries| - 1);
    }
  }

  /** Two logs of one length with the same bodies, entry by entry. */
  ghost predicate SameBodies(a: seq<Entry>, b: seq<Entry>) {
    |a| == |b| && forall i :: 0 <= i < |a| ==> Body(a[i].event) == Body(b[i].event)
  }

  lemma {:induction false} SameBodiesSameChecksums(digest: string -> string, a: seq<Entry>, b: seq<Entry>)
    requires Chained(digest, a) && Chained(digest, b) && SameBodies(a, b)
    ensures LastChecksum(a) == LastChecksum(b)
  {
    if a != [] {
      var n := |a| - 1;
      ChainedPrefix(digest, a, n);
      ChainedPrefix(digest, b, n);
      assert SameBodies(a[..n], b[..n]);
      SameBodiesSameChecksums(digest, a[..n], b[..n]);
      assert !ViolationAt(digest, a, n) && !ViolationAt(digest, b, n);
    }
  }

  lemma {:induction false} SameEndSameBodies(digest: string -> string, a: seq<Entry>, b: seq<Entry>)
    requires GoodDigest(digest) && Chained(digest, a) && Chained(digest, b)
    requires LastChecksum(a) == LastChecksum(b)
    ensures SameBodies(a, b)
    ensures forall i :: 0 <= i < |a| ==> a[i].checksum == b[i].checksum
  {
    LastChecksumOfChain(digest, a);
    LastChecksumOfChain(digest, b);
    if a != [] && b != [] {
      var m, n := |a| - 1, |b| - 1;
      ChainedPrefix(digest, a, m);
      ChainedPrefix(digest, b, n);
      LastChecksumOfChain(digest, a[..m]);
      LastChecksumOfChain(digest, b[..n]);
      assert !ViolationAt(digest, a, m) && !ViolationAt(digest, b, n);
      ChecksumPinsBoth(digest, LastChecksum(a[..m]), a[m].event, LastChecksum(b[..n]), b[n].event);
      SameEndSameBodies(digest, a[..m], b[..n]);
    }
  }

  ghost predicate AllBarFree(a: seq<Entry>) {
    forall i :: 0 <= i < |a| ==> BarFree(a[i].event)
  }

  ghost predicate SameCoveredThroughout(a: seq<Entry>, b: seq<Entry>) {
    |a| == |b| && forall i :: 0 <= i < |a| ==> SameCovered(a[i].event, b[i].event)
  }

  /** Two logs that both verify end in the same checksum exactly when they have the same length and
      the same bodies throughout; if the fields of one are '|'-free, the same covered fields throughout. */
  lemma LastChecksumIdentifiesTheLog(digest: string -> string, a: seq<Entry>, b: seq<Entry>)
    requires GoodDigest(digest) && Chained(digest, a) && Chained(digest, b)
    ensures LastChecksum(a) == LastChecksum(b) <==> SameBodies(a, b)
    ensures LastChecksum(a) == LastChecksum(b) && AllBarFree(a) ==> SameCoveredThroughout(a, b)
  {
    if SameBodies(a, b) {
      SameBodiesSameChecksums(digest, a, b);
    }
    if LastChecksum(a) == LastChecksum(b) {
      SameEndSameBodies(digest, a, b);
      forall i | 0 <= i < |a| && BarFree(a[i].event) ensures SameCovered(a[i].event, b[i].event) {
        BodyDeterminesFields(a[i].event, b[i].event);
      }
    }
  }

  lemma SwappedTwinVerifies(digest: string -> string, a: seq<Entry>, i: nat, f: Event)
    requires Chained(digest, a) && i < |a| && Body(f) == Body(a[i].event)
    ensures var b := a[i := a[i].(event := f)]; Chained(digest, b) && LastChecksum(b) == LastChecksum(a)
  {
    var b := a[i := a[i].(event := f)];
    forall j | 0 <= j < |b| ensures !ViolationAt(digest, b, j) {
      assert !ViolationAt(digest, a, j);
      SamePrevious(a, b, j);
    }
  }

  /** Exactly which valid logs are determined, in all covered fields, by their last checksum. */
  lemma LastChecksumFixesTheFieldsExactlyWithoutBars(digest: string -> string, a: seq<Entry>)
    requires GoodDigest(digest) && Chained(digest, a)
    ensures AllBarFree(a) <==>
      forall b :: Chained(digest, b) && LastChecksum(b) == LastChecksum(a) ==> SameCoveredThroughout(a, b)
  {
    if AllBarFree(a) {
      forall b | Chained(digest, b) && LastChecksum(b) == LastChecksum(a) ensures SameCoveredThroughout(a, b) {
        LastChecksumIdentifiesTheLog(digest, a, b);
      }
    } else {
      var i :| 0 <= i < |a| && !BarFree(a[i].event);
      var f := BarsMakeATwin(a[i].event);
      var b := a[i := a[i].(event := f)];
      SwappedTwinVerifies(digest, a, i, f);
      assert b[i].event == f;
    }
  }

  // ---------------------------------------------------------------- exact localisation

  /** Rewriting the covered fields of one entry of a valid log is reported at that entry and nowhere else. */
  lemma ChangedEventIsLocated(digest: string -> string, a: seq<Entry>, i: nat, e: Event, j: nat)
    requires GoodDigest(digest) && Chained(digest, a) && i < |a| && j < |a| && Body(e) != Body(a[i].event)
    ensures ViolationAt(digest, a[i := a[i].(event := e)], j) <==> j == i
  {
    var b := a[i := a[i].(event := e)];
    assert !ViolationAt(digest, a, j);
    SamePrevious(a, b, j);
    if j == i && Checksum(digest, LastChecksum(a[..i]), e) == a[i].checksum {
      ChainedPrefix(digest, a, i);
      LastChecksumOfChain(digest, a[..i]);
      ChecksumPinsBoth(digest, LastChecksum(a[..i]), e, LastChecksum(a[..i]), a[i].event);
      assert false;
    }
  }

  lemma SamePrevious(a: seq<Entry>, b: seq<Entry>, j: nat)
    requires j < |a| == |b| && (j > 0 ==> a[j - 1].checksum == b[j - 1].checksum)
    ensures LastChecksum(a[..j]) == LastChecksum(b[..j])
  {
  }

  /** Rewriting one checksum is reported at that entry and at the next, and nowhere else. */
  lemma ChangedChecksumIsLocated(digest: string -> string, a: seq<Entry>, i: nat, c: string, j: nat)
    requires GoodDigest(digest) && Chained(digest, a) && i < |a| && j < |a| && c != a[i].checksum
    ensures ViolationAt(digest, a[i := a[i].(checksum := c)], j) <==> j == i || j == i + 1
  {
    var b := a[i := a[i].(checksum := c)];
    assert !ViolationAt(digest, a, j);
    if j != i + 1 {
      SamePrevious(a, b, j);
    } else {
      assert LastChecksum(b[..j]) == c && LastChecksum(a[..j]) == a[i].checksum;
      if Checksum(digest, c, a[j].event) == a[j].checksum {
        PayloadsDiffer(c, a[i].checksum, Body(a[j].event));
        assert false;
      }
    }
  }

  lemma PayloadsDiffer(p: string, q: string, rest: string)
    requires p != q
    ensures p + "|" + rest != q + "|" + rest
  {
    var s, t := p + "|" + rest, q + "|" + rest;
    assert s[..|s| - |rest| - 1] == p;
    assert t[..|t| - |rest| - 1] == q;
  }

  predicate UniqueIds(a: seq<Entry>) {
    forall i, j :: 0 <= i < j < |a| ==> a[i].event.id != a[j].event.id
  }

  ghost predicate BarFreeIds(a: seq<Entry>) {
    forall i :: 0 <= i < |a| ==> NoBar(a[i].event.id)
  }

  /** In a valid log with '|'-free, distinct ids all checksums differ. */
  lemma ChecksumsAreDistinct(digest: string -> string, a: seq<Entry>, i: nat, j: nat)
    requires GoodDigest(digest) && Chained(digest, a) && UniqueIds(a) && BarFreeIds(a) && i < j < |a|
    ensures a[i].checksum != a[j].checksum && a[i].checksum != ""
  {
    assert !ViolationAt(digest, a, i) && !ViolationAt(digest, a, j);
    ChainedPrefix(digest, a, i);
    ChainedPrefix(digest, a, j);
    LastChecksumOfChain(digest, a[..i]);
    LastChecksumOfChain(digest, a[..j]);
    if a[i].checksum == a[j].checksum {
      ChecksumPinsBoth(digest, LastChecksum(a[..i]), a[i].event, LastChecksum(a[..j]), a[j].event);
      BodyStartsWithId(a[i].event, a[j].event);
      assert false;
    }
  }

  lemma BodyStartsWithId(e: Event, f: Event)
    requires NoBar(e.id) && NoBar(f.id) && Body(e) == Body(f)
    ensures e.id == f.id
  {
    SplitAtFirstBar(e.id, e.stamp + "|" + (e.action + "|" + (e.actor + "|" + (e.target + "|" + e.outcome))),
                    f.id, f.stamp + "|" + (f.action + "|" + (f.actor + "|" + (f.target + "|" + f.outcome))));
  }

  /** Removing one entry is reported exactly at the entry that followed it, if there was one: removing
      the last entry is not reported at all. */
  lemma RemovedEntryIsLocated(digest: string -> string, a: seq<Entry>, i: nat, j: nat)
    requires GoodDigest(digest) && Chained(digest, a) && UniqueIds(a) && BarFreeIds(a)
    requires i < |a| && j < |a| - 1
    ensures ViolationAt(digest, a[..i] + a[i + 1..], j) <==> j == i
  {
    var b := a[..i] + a[i + 1..];
    if j < i {
      assert b[..j] == a[..j] && b[j] == a[j];
      assert !ViolationAt(digest, a, j);
    } else if i < j {
      assert b[j] == a[j + 1] && b[j - 1] == a[j];
      assert LastChecksum(b[..j]) == a[j].checksum == LastChecksum(a[..j + 1]);
      assert !ViolationAt(digest, a, j + 1);
    } else {
      assert b[..i] == a[..i] && b[i] == a[i + 1];
      assert !ViolationAt(digest, a, i + 1);
      assert LastChecksum(a[..i + 1]) == a[i].checksum;
      var p := LastChecksum(a[..i]);
      if i == 0 {
        ChecksumsAreDistinct(digest, a, 0, 1);
      } else {
        ChecksumsAreDistinct(digest, a, i - 1, i);
      }
      assert p != a[i].checksum;
      if Checksum(digest, p, a[i + 1].event) == a[i + 1].checksum {
        PayloadsDiffer(p, a[i].checksum, Body(a[i + 1].event));
        assert false;
      }
    }
  }

  // ---------------------------------------------------------------- which parts of a log verify

  /** The entries whose flag is set, in order. */
  function Kept(a: seq<Entry>, flags: seq<bool>): seq<Entry>
    requires |flags| == |a|
  {
    if a == [] then []
    else
      var n := |a| - 1;
      Kept(a[..n], flags[..n]) + (if flags[n] then [a[n]] else [])
  }

  /** Nothing is kept after the first loss. */
  predicate LossesAreSuffix(flags: seq<bool>) {
    forall i, j :: 0 <= i < j < |flags| && flags[j] ==> flags[i]
  }

  function CountKept(flags: seq<bool>): nat
    ensures CountKept(flags) <= |flags|
  {
    if flags == [] then 0
    else CountKept(flags[..|flags| - 1]) + (if flags[|flags| - 1] then 1 else 0)
  }

  lemma {:induction false} EverythingKept(a: seq<Entry>, flags: seq<bool>)
    requires |flags| == |a| && forall i :: 0 <= i < |flags| ==> flags[i]
    ensures CountKept(flags) == |flags| && Kept(a, flags) == a
  {
    if a != [] {
      var n := |a| - 1;
      EverythingKept(a[..n], flags[..n]);
      assert a == a[..n] + [a[n]];
    }
  }

  lemma {:induction false} SuffixLossesKeepAPrefix(a: seq<Entry>, flags: seq<bool>)
    requires |flags| == |a| && LossesAreSuffix(flags)
    ensures Kept(a, flags) == a[..CountKept(flags)]
  {
    if a != [] {
      var n := |a| - 1;
      if flags[n] {
        EverythingKept(a, flags);
      } else {
        SuffixLossesKeepAPrefix(a[..n], flags[..n]);
        assert a[..n][..CountKept(flags)] == a[..CountKept(flags)];
      }
    }
  }

  lemma LastChecksumsDiffer(digest: string -> string, a: seq<Entry>, i: nat, j: nat)
    requires GoodDigest(digest) && Chained(digest, a) && UniqueIds(a) && BarFreeIds(a) && i <= |a| && j <= |a|
    ensures LastChecksum(a[..i]) == LastChecksum(a[..j]) <==> i == j
  {
    if 0 < i < j {
      ChecksumsAreDistinct(digest, a, i - 1, j - 1);
    } else if 0 < j < i {
      ChecksumsAreDistinct(digest, a, j - 1, i - 1);
    } else if i != j {
      ChainedPrefix(digest, a, i);
      ChainedPrefix(digest, a, j);
      LastChecksumOfChain(digest, a[..i]);
      LastChecksumOfChain(digest, a[..j]);
    }
  }

  lemma {:induction false} AllKeptExactlyWhenCounted(flags: seq<bool>)
    ensures CountKept(flags) == |flags| <==> forall i :: 0 <= i < |flags| ==> flags[i]
  {
    if flags != [] {
      AllKeptExactlyWhenCounted(flags[..|flags| - 1]);
    }
  }

  lemma SuffixByLastFlag(flags: seq<bool>)
    requires flags != []
    ensures var before := flags[..|flags| - 1];
            LossesAreSuffix(flags) <==>
              LossesAreSuffix(before) && (flags[|flags| - 1] ==> CountKept(before) == |before|)
  {
    AllKeptExactlyWhenCounted(flags[..|flags| - 1]);
  }

  /** Keeping one more entry after a prefix of `k` entries verifies exactly when it is the next one. */
  lemma OneMoreVerifies(digest: string -> string, a: seq<Entry>, k: nat, n: nat)
    requires GoodDigest(digest) && Chained(digest, a) && UniqueIds(a) && BarFreeIds(a) && k <= n < |a|
    ensures Chained(digest, a[..k] + [a[n]]) <==> k == n
  {
    ChainedPrefix(digest, a, k);
    ChainedPush(digest, a[..k], a[n]);
    LastChecksumsDiffer(digest, a, k, n);
    assert !ViolationAt(digest, a, n);
    PrevDecidesChecksum(digest, LastChecksum(a[..k]), LastChecksum(a[..n]), a[n].event);
  }

  /** A selection from a valid log verifies exactly when it is a prefix of it. */
  lemma {:induction false} OnlyPrefixesVerify(digest: string -> string, a: seq<Entry>, flags: seq<bool>)
    requires GoodDigest(digest) && Chained(digest, a) && UniqueIds(a) && BarFreeIds(a)
    requires |flags| == |a|
    ensures Chained(digest, Kept(a, flags)) <==> LossesAreSuffix(flags)
  {
    if a != [] {
      var n := |a| - 1;
      var before := flags[..n];
      ChainedPrefix(digest, a, n);
      OnlyPrefixesVerify(digest, a[..n], before);
      SuffixByLastFlag(flags);
      if flags[n] {
        KeepingTheLast(digest, a, before);
        assert Kept(a, flags) == Kept(a[..n], before) + [a[n]];
      } else {
        assert Kept(a, flags) == Kept(a[..n], before);
      }
    }
  }

  /** What keeping the last entry adds: the selection still verifies only if nothing was lost before it. */
  lemma KeepingTheLast(digest: string -> string, a: seq<Entry>, before: seq<bool>)
    requires GoodDigest(digest) && Chained(digest, a) && UniqueIds(a) && BarFreeIds(a)
    requires a != [] && |before| == |a| - 1
    requires Chained(digest, Kept(a[..|a| - 1], before)) <==> LossesAreSuffix(before)
    ensures var n := |a| - 1;
            Chained(digest, Kept(a[..n], before) + [a[n]]) <==> LossesAreSuffix(before) && CountKept(before) == n
  {
    var n := |a| - 1;
    var k := CountKept(before);
    if LossesAreSuffix(before) {
      SuffixLossesKeepAPrefix(a[..n], before);
      assert a[..n][..k] == a[..k];
      OneMoreVerifies(digest, a, k, n);
    } else {
      ChainedPush(digest, Kept(a[..n], before), a[n]);
    }
  }

  lemma PrevDecidesChecksum(digest: string -> string, p: string, q: string, e: Event)
    requires GoodDigest(digest)
    ensures Checksum(digest, p, e) == Checksum(digest, q, e) <==> p == q
  {
    if p != q {
      PayloadsDiffer(p, q, Body(e));
    }
  }
}
