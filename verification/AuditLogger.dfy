/**
 The audit logger over its day files: logging with writes that may fail, verification, reloading,
 and what survives any number of restarts.
 */
module AuditLoggers {
  import opened Collections
  import opened Joins
  import opened AuditChain

  // ---------------------------------------------------------------- day files

  datatype DayFile = DayFile(day: int, lines: seq<Entry>)

  /** The files of the audit directory in name order, which is date order. */
  type Files = seq<DayFile>

  /** Appending a line to the file of its day, which is created in its place if it does not exist. */
  function Append(files: Files, e: Entry): Files {
    if files == [] then [DayFile(e.event.day, [e])]
    else
      var n := |files| - 1;
      var last := files[n];
      if last.day == e.event.day then files[..n] + [DayFile(last.day, last.lines + [e])]
      else if last.day < e.event.day then files + [DayFile(e.event.day, [e])]
      else Append(files[..n], e) + [last]
  }

  /** All lines, file after file. */
  function Lines(files: Files): seq<Entry> {
    if files == [] then [] else Lines(files[..|files| - 1]) + files[|files| - 1].lines
  }

  ghost predicate FilesOk(files: Files) {
    && (forall i :: 0 <= i < |files| ==> files[i].lines != [])
    && (forall i, k :: 0 <= i < |files| && 0 <= k < |files[i].lines| ==> files[i].lines[k].event.day == files[i].day)
    && (forall i, j :: 0 <= i < j < |files| ==> files[i].day < files[j].day)
  }

  lemma {:induction false} LinesDates(files: Files)
    requires FilesOk(files)
    ensures files != [] ==> Lines(files) != [] && Lines(files)[|Lines(files)| - 1].event.day == files[|files| - 1].day
    ensures forall k :: 0 <= k < |Lines(files)| ==> Lines(files)[k].event.day <= files[|files| - 1].day
  {
    if files != [] {
      LinesDates(files[..|files| - 1]);
    }
  }

  /** The lines of one day's file; none if there is no such file. */
  function LinesOfDay(files: Files, day: int): seq<Entry> {
    if files == [] then []
    else if files[|files| - 1].day == day then files[|files| - 1].lines
    else LinesOfDay(files[..|files| - 1], day)
  }

  predicate DaysAscend(files: Files) {
    forall i, j :: 0 <= i < j < |files| ==> files[i].day < files[j].day
  }

  lemma LinesOfDayPush(files: Files, f: DayFile, day: int)
    ensures LinesOfDay(files + [f], day) == if f.day == day then f.lines else LinesOfDay(files, day)
  {
    assert (files + [f])[..|files|] == files;
  }

  lemma EndsInItsLast(files: Files)
    requires files != []
    ensures files[..|files| - 1] + [files[|files| - 1]] == files
  {
  }

  /** A line goes to the end of the file of its own day, whatever the order of the days, and to no other. */
  lemma {:induction false} AppendIsExact(files: Files, e: Entry, day: int)
    requires DaysAscend(files)
    ensures LinesOfDay(Append(files, e), day) == if day == e.event.day then LinesOfDay(files, day) + [e] else LinesOfDay(files, day)
  {
    if files != [] {
      var less, last := files[..|files| - 1], files[|files| - 1];
      EndsInItsLast(files);
      LinesOfDayPush(less, last, day);
      if last.day == e.event.day {
        LinesOfDayPush(less, DayFile(last.day, last.lines + [e]), day);
      } else if last.day < e.event.day {
        NoSuchDay(files, e.event.day);
        LinesOfDayPush(files, DayFile(e.event.day, [e]), day);
      } else {
        AppendIsExact(less, e, day);
        LinesOfDayPush(Append(less, e), last, day);
      }
    }
  }

  /** ... and the files stay in date order. */
  lemma {:induction false} AppendKeepsDateOrder(files: Files, e: Entry)
    requires DaysAscend(files)
    ensures var after := Append(files, e);
            && DaysAscend(after) && after != []
            && after[|after| - 1].day == if files == [] || files[|files| - 1].day < e.event.day then e.event.day else files[|files| - 1].day
  {
    if files != [] && e.event.day < files[|files| - 1].day {
      AppendKeepsDateOrder(files[..|files| - 1], e);
    }
  }

  lemma {:induction false} NoSuchDay(files: Files, day: int)
    requires forall i :: 0 <= i < |files| ==> files[i].day != day
    ensures LinesOfDay(files, day) == []
  {
    if files != [] {
      NoSuchDay(files[..|files| - 1], day);
    }
  }

  lemma LinesPush(files: Files, f: DayFile)
    ensures Lines(files + [f]) == Lines(files) + f.lines
  {
    assert (files + [f])[..|files + [f]| - 1] == files;
  }

  lemma FilesOkPush(files: Files, f: DayFile)
    requires FilesOk(files) && f.lines != [] && (files != [] ==> files[|files| - 1].day < f.day)
    requires forall k :: 0 <= k < |f.lines| ==> f.lines[k].event.day == f.day
    ensures FilesOk(files + [f])
  {
  }

  lemma {:induction false} AppendToLastDay(before: Files, last: DayFile, e: Entry)
    requires FilesOk(before + [last]) && last.day == e.event.day
    ensures FilesOk(Append(before + [last], e)) && Lines(Append(before + [last], e)) == Lines(before + [last]) + [e]
  {
    var files, grown := before + [last], DayFile(last.day, last.lines + [e]);
    assert files[..|before|] == before;
    assert Append(files, e) == before + [grown];
    LinesPush(before, last);
    LinesPush(before, grown);
    assert Lines(before) + (last.lines + [e]) == (Lines(before) + last.lines) + [e];
    GrownFileOk(before, last, e);
  }

  lemma GrownFileOk(before: Files, last: DayFile, e: Entry)
    requires FilesOk(before + [last]) && last.day == e.event.day
    ensures FilesOk(before + [DayFile(last.day, last.lines + [e])])
  {
    var files, grown := before + [last], before + [DayFile(last.day, last.lines + [e])];
    forall i, k | 0 <= i < |grown| && 0 <= k < |grown[i].lines|
      ensures grown[i].lines[k].event.day == grown[i].day
    {
      if i < |before| {
        assert grown[i] == files[i];
      } else {
        assert files[i] == last;
      }
    }
    assert forall i :: 0 <= i < |files| ==> grown[i].day == files[i].day;
  }

  lemma AppendNewDay(files: Files, e: Entry)
    requires FilesOk(files) && (files != [] ==> files[|files| - 1].day < e.event.day)
    ensures FilesOk(Append(files, e)) && Lines(Append(files, e)) == Lines(files) + [e]
  {
    var created := DayFile(e.event.day, [e]);
    FilesOkPush(files, created);
    LinesPush(files, created);
    assert Append(files, e) == files + [created];
  }

  /** A line that is not older than the last one goes to the end of the concatenation. */
  lemma AppendInOrder(files: Files, e: Entry)
    requires FilesOk(files)
    requires NoneLater(Lines(files), e.event.day)
    ensures FilesOk(Append(files, e)) && Lines(Append(files, e)) == Lines(files) + [e]
  {
    LinesDates(files);
    if files != [] && files[|files| - 1].day == e.event.day {
      var n := |files| - 1;
      assert files == files[..n] + [files[n]];
      AppendToLastDay(files[..n], files[n], e);
    } else {
      AppendNewDay(files, e);
    }
  }

  // ---------------------------------------------------------------- logging and loading

  datatype Logger = Logger(entries: seq<Entry>, previous: string)

  const FRESH := Logger([], "")

  function Made(digest: string -> string, l: Logger, e: Event): Entry {
    Entry(e, Checksum(digest, l.previous, e))
  }

  /** `log`: the entry is kept in memory and chained whether or not its write succeeds. */
  function Log(digest: string -> string, l: Logger, e: Event): Logger {
    var entry := Made(digest, l, e);
    Logger(l.entries + [entry], entry.checksum)
  }

  datatype Write = Write(event: Event, ok: bool)

  function LogAll(digest: string -> string, l: Logger, batch: seq<Write>): Logger {
    if batch == [] then l
    else Log(digest, LogAll(digest, l, batch[..|batch| - 1]), batch[|batch| - 1].event)
  }

  function WriteAll(digest: string -> string, l: Logger, files: Files, batch: seq<Write>): Files {
    if batch == [] then files
    else
      var n := |batch| - 1;
      var before := WriteAll(digest, l, files, batch[..n]);
      if batch[n].ok then Append(before, Made(digest, LogAll(digest, l, batch[..n]), batch[n].event)) else before
  }

  /** How many lines verify before the first break. */
  function ValidPrefix(digest: string -> string, lines: seq<Entry>): nat
    ensures ValidPrefix(digest, lines) <= |lines|
    ensures forall i :: 0 <= i < ValidPrefix(digest, lines) ==> !ViolationAt(digest, lines, i)
    ensures ValidPrefix(digest, lines) < |lines| ==> ViolationAt(digest, lines, ValidPrefix(digest, lines))
  {
    FirstBreak(digest, lines, 0)
  }

  function FirstBreak(digest: string -> string, lines: seq<Entry>, i: nat): (k: nat)
    requires i <= |lines|
    ensures i <= k <= |lines|
    ensures forall j :: i <= j < k ==> !ViolationAt(digest, lines, j)
    ensures k < |lines| ==> ViolationAt(digest, lines, k)
    decreases |lines| - i
  {
    if i == |lines| || ViolationAt(digest, lines, i) then i else FirstBreak(digest, lines, i + 1)
  }

  /** The logger that a strict load builds from `lines`. */
  function Loaded(lines: seq<Entry>): Logger {
    Logger(lines, LastChecksum(lines))
  }

  /** Strict loading into a fresh logger: None when the chain is broken. */
  function Boot(digest: string -> string, files: Files): Option<Logger> {
    var lines := Lines(files);
    if ValidPrefix(digest, lines) == |lines| then Some(Loaded(lines)) else None
  }

  lemma BootsExactlyOnChains(digest: string -> string, files: Files)
    ensures Boot(digest, files).Some? <==> Chained(digest, Lines(files))
  {
  }

  // ---------------------------------------------------------------- the object

  class Disk {
    var files: Files

    constructor ()
      ensures files == []
    {
      files := [];
    }
  }

  datatype Violation = Violation(id: string, stamp: string, action: string, expected: string, actual: string)

  class AuditLogger {
    const digest: string -> string
    const disk: Disk
    var entries: seq<Entry>
    var previousChecksum: string

    ghost function View(): Logger
      reads this
    {
      Logger(entries, previousChecksum)
    }

    constructor (digest: string -> string, disk: Disk)
      ensures View() == FRESH && this.digest == digest && this.disk == disk
    {
      this.digest := digest;
      this.disk := disk;
      entries := [];
      previousChecksum := "";
    }

    method LogEvent(e: Event, writeOk: bool) returns (entry: Entry)
      modifies this, disk
      ensures View() == Log(digest, old(View()), e) && entry == Made(digest, old(View()), e)
      ensures disk.files == if writeOk then Append(old(disk.files), entry) else old(disk.files)
    {
      entry := Entry(e, Checksum(digest, previousChecksum, e));
      entries := entries + [entry];
      previousChecksum := entry.checksum;
      if writeOk {
        disk.files := Append(disk.files, entry);
      }
    }

    /** `v` describes the break at entry `i`. */
    ghost predicate Reports(i: nat, v: Violation)
      reads this
    {
      && i < |entries| && ViolationAt(digest, entries, i)
      && v == Violation(entries[i].event.id, entries[i].event.stamp, entries[i].event.action,
                        ExpectedAt(digest, entries, i), entries[i].checksum)
    }

    /** Among the first `count` entries the chain is broken exactly at `places`, as `violations` report. */
    ghost predicate Located(count: nat, violations: seq<Violation>, places: seq<nat>)
      reads this
    {
      && count <= |entries| && |violations| == |places|
      && (forall k :: 0 <= k < |places| ==> places[k] < count && Reports(places[k], violations[k]))
      && (forall k, m :: 0 <= k < m < |places| ==> places[k] < places[m])
      && (forall i :: 0 <= i < count && ViolationAt(digest, entries, i) ==> i in places)
    }

    lemma OneMoreLocated(i: nat, violations: seq<Violation>, places: seq<nat>, v: Violation)
      requires i < |entries| && Located(i, violations, places)
      ensures Reports(i, v) ==> Located(i + 1, violations + [v], places + [i])
      ensures !ViolationAt(digest, entries, i) ==> Located(i + 1, violations, places)
    {
      if Reports(i, v) {
        assert forall j :: j in places ==> j in places + [i];
      }
    }

    /** The entries at which the chain is broken, in order, each with the checksum it should have. */
    method VerifyIntegrity() returns (violations: seq<Violation>, ghost places: seq<nat>)
      ensures Located(|entries|, violations, places)
      ensures violations == [] <==> Chained(digest, entries)
    {
      violations, places := [], [];
      var prev := "";
      for i := 0 to |entries|
        invariant prev == LastChecksum(entries[..i])
        invariant Located(i, violations, places)
      {
        var entry := entries[i];
        var expected := Checksum(digest, prev, entry.event);
        OneMoreLocated(i, violations, places,
                       Violation(entry.event.id, entry.event.stamp, entry.event.action, expected, entry.checksum));
        if entry.checksum != expected {
          violations := violations + [Violation(entry.event.id, entry.event.stamp, entry.event.action, expected, entry.checksum)];
          places := places + [i];
        }
        prev := entry.checksum;
        assert LastChecksum(entries[..i + 1]) == prev;
      }
      NoneLocated(violations, places);
    }

    lemma NoneLocated(violations: seq<Violation>, places: seq<nat>)
      requires Located(|entries|, violations, places)
      ensures violations == [] <==> Chained(digest, entries)
    {
      if places != [] {
        assert Reports(places[0], violations[0]);
      }
    }

    /** A load into `base` has taken `all[..count]`. */
    ghost predicate Loading(base: seq<Entry>, strict: bool, all: seq<Entry>, count: nat, prev: string)
      reads this
    {
      && count <= |all|
      && entries == base + all[..count]
      && prev == LastChecksum(all[..count])
      && (strict ==> forall j :: 0 <= j < count ==> !ViolationAt(digest, all, j))
    }

    /** One line: verified against the running checksum, then kept unless that breaks a strict load. */
    method LoadLine(strict: bool, entry: Entry, prev: string) returns (ok: bool, running: string)
      modifies this`entries
      ensures ok <==> !strict || entry.checksum == Checksum(digest, prev, entry.event)
      ensures ok ==> entries == old(entries) + [entry] && running == entry.checksum
      ensures !ok ==> entries == old(entries)
    {
      var expected := Checksum(digest, prev, entry.event);
      if entry.checksum != expected && strict {
        return false, prev;
      }
      entries := entries + [entry];
      return true, entry.checksum;
    }

    /** One file of a load, whose lines are the next ones of `all`. */
    method LoadFile(strict: bool, lines: seq<Entry>, ghost base: seq<Entry>, ghost all: seq<Entry>, start: nat, prev: string)
      returns (count: nat, broken: bool, running: string)
      requires Loading(base, strict, all, start, prev) && start + |lines| <= |all|
      requires forall k :: 0 <= k < |lines| ==> all[start + k] == lines[k]
      modifies this`entries
      ensures !broken ==> count == start + |lines| && Loading(base, strict, all, count, running)
      ensures broken ==> strict && count < |all| && Loading(base, strict, all, count, running) && ViolationAt(digest, all, count)
    {
      count, broken, running := start, false, prev;
      for k := 0 to |lines|
        invariant count == start + k && Loading(base, strict, all, count, running)
      {
        ghost var now := all[..count];
        assert all[..count + 1] == now + [lines[k]] && all[..count + 1][..count] == now;
        var ok, next := LoadLine(strict, lines[k], running);
        if !ok {
          return count, true, running;
        }
        running := next;
        count := count + 1;
      }
    }

    /** Loads the day files after whatever is in memory. On a break in strict mode the entries before
        it stay loaded, the running checksum is not updated, and `broken` is true. */
    method LoadFromDisk(strict: bool) returns (count: nat, broken: bool)
      modifies this
      ensures broken <==> strict && ValidPrefix(digest, Lines(disk.files)) < |Lines(disk.files)|
      ensures broken ==> count == ValidPrefix(digest, Lines(disk.files)) && previousChecksum == old(previousChecksum)
      ensures !broken ==> count == |Lines(disk.files)| && previousChecksum == LastChecksum(Lines(disk.files))
      ensures entries == old(entries) + Lines(disk.files)[..count]
    {
      count, broken := 0, false;
      var prev := "";
      ghost var all := Lines(disk.files);
      ghost var base := entries;
      for f := 0 to |disk.files|
        invariant previousChecksum == old(previousChecksum)
        invariant count == |Lines(disk.files[..f])| && Loading(base, strict, all, count, prev)
      {
        LinesOfPrefix(disk.files, f);
        count, broken, prev := LoadFile(strict, disk.files[f].lines, base, all, count, prev);
        if broken {
          assert ValidPrefix(digest, all) == count;
          return;
        }
      }
      assert disk.files[..|disk.files|] == disk.files;
      assert all[..|all|] == all;
      previousChecksum := prev;
    }
  }

  /** The lines of the first `f + 1` files are those of the first `f`, then those of file `f`. */
  lemma {:induction false} LinesOfPrefix(files: Files, f: nat)
    requires f < |files|
    ensures |Lines(files[..f + 1])| == |Lines(files[..f])| + |files[f].lines| <= |Lines(files)|
    ensures forall k :: 0 <= k < |files[f].lines| ==> Lines(files)[|Lines(files[..f])| + k] == files[f].lines[k]
  {
    var n := |files| - 1;
    assert files[..f + 1][..f] == files[..f];
    if f == n {
      assert files[..f + 1] == files;
    } else {
      assert files[..n][..f + 1] == files[..f + 1] && files[..n][..f] == files[..f];
      LinesOfPrefix(files[..n], f);
    }
  }

  // ---------------------------------------------------------------- round trip

  function Flags(batch: seq<Write>): seq<bool> {
    seq(|batch|, i requires 0 <= i < |batch| => batch[i].ok)
  }

  /** `f` may be logged after `e`: another id, and not an earlier date. */
  predicate MayFollow(e: Event, f: Event) {
    e.id != f.id && e.day <= f.day
  }

  /** Ids are '|'-free and distinct, dates never go backwards. */
  ghost predicate Orderly(batch: seq<Write>) {
    && (forall i :: 0 <= i < |batch| ==> NoBar(batch[i].event.id))
    && (forall i, j :: 0 <= i < j < |batch| ==> MayFollow(batch[i].event, batch[j].event))
  }

  /** The same for a batch together with the lines already on disk. */
  ghost predicate Fits(lines: seq<Entry>, batch: seq<Write>) {
    && Orderly(batch)
    && (forall k, i :: 0 <= k < |lines| && 0 <= i < |batch| ==> MayFollow(lines[k].event, batch[i].event))
  }

  /** One valid chain whose ids are distinct and '|'-free. */
  ghost predicate GoodLog(digest: string -> string, lines: seq<Entry>) {
    Chained(digest, lines) && UniqueIds(lines) && BarFreeIds(lines)
  }

  /** A logger that has just started: its memory is the disk, and the disk is one valid chain. */
  ghost predicate Synced(digest: string -> string, l: Logger, files: Files) {
    FilesOk(files) && GoodLog(digest, Lines(files)) && l == Loaded(Lines(files))
  }

  /** The entries a batch makes. */
  function MadeBy(digest: string -> string, l: Logger, batch: seq<Write>): seq<Entry> {
    if batch == [] then []
    else
      var n := |batch| - 1;
      MadeBy(digest, l, batch[..n]) + [Made(digest, LogAll(digest, l, batch[..n]), batch[n].event)]
  }

  lemma {:induction false} MemoryIsOldThenMade(digest: string -> string, l: Logger, batch: seq<Write>)
    ensures |MadeBy(digest, l, batch)| == |batch|
    ensures forall i :: 0 <= i < |batch| ==> MadeBy(digest, l, batch)[i].event == batch[i].event
    ensures LogAll(digest, l, batch).entries == l.entries + MadeBy(digest, l, batch)
  {
    if batch != [] {
      MemoryIsOldThenMade(digest, l, batch[..|batch| - 1]);
    }
  }

  lemma GoodLogPush(digest: string -> string, lines: seq<Entry>, e: Entry)
    requires GoodLog(digest, lines) && NoBar(e.event.id)
    requires e.checksum == Checksum(digest, LastChecksum(lines), e.event)
    requires forall k :: 0 <= k < |lines| ==> lines[k].event.id != e.event.id
    ensures GoodLog(digest, lines + [e])
  {
    ChainedPush(digest, lines, e);
  }

  lemma NewIdIsNew(lines: seq<Entry>, made: seq<Entry>, batch: seq<Write>)
    requires batch != [] && Fits(lines, batch) && |made| == |batch| - 1
    requires forall i :: 0 <= i < |made| ==> made[i].event == batch[i].event
    ensures NoBar(batch[|batch| - 1].event.id)
    ensures forall k :: 0 <= k < |lines + made| ==> (lines + made)[k].event.id != batch[|batch| - 1].event.id
  {
  }

  lemma FitsPrefix(lines: seq<Entry>, batch: seq<Write>)
    requires batch != [] && Fits(lines, batch)
    ensures Fits(lines, batch[..|batch| - 1])
  {
  }

  /** Everything logged is one chain in memory. */
  lemma {:induction false} MemoryIsChained(digest: string -> string, l: Logger, batch: seq<Write>)
    requires l == Loaded(l.entries) && GoodLog(digest, l.entries) && Fits(l.entries, batch)
    ensures var m := LogAll(digest, l, batch); m == Loaded(m.entries) && GoodLog(digest, m.entries)
  {
    if batch != [] {
      var n := |batch| - 1;
      var b, e := batch[..n], batch[n].event;
      FitsPrefix(l.entries, batch);
      MemoryIsChained(digest, l, b);
      MemoryIsOldThenMade(digest, l, b);
      NewIdIsNew(l.entries, MadeBy(digest, l, b), batch);
      var m := LogAll(digest, l, b);
      GoodLogPush(digest, m.entries, Made(digest, m, e));
    }
  }

  lemma KeptPush(a: seq<Entry>, flags: seq<bool>, e: Entry, flag: bool)
    requires |flags| == |a|
    ensures Kept(a + [e], flags + [flag]) == if flag then Kept(a, flags) + [e] else Kept(a, flags)
  {
    assert (a + [e])[..|a|] == a && (flags + [flag])[..|flags|] == flags;
    assert Kept(a, flags) + [] == Kept(a, flags);
  }

  ghost predicate NoneLater(lines: seq<Entry>, day: int) {
    forall k :: 0 <= k < |lines| ==> lines[k].event.day <= day
  }

  lemma NoneLaterInBoth(a: seq<Entry>, b: seq<Entry>, day: int)
    requires NoneLater(a, day) && NoneLater(b, day)
    ensures NoneLater(a + b, day)
  {
  }

  lemma OneMoreLine(lines: seq<Entry>, kept: seq<Entry>, e: Entry)
    ensures lines + kept + [e] == lines + (kept + [e])
  {
  }

  lemma {:induction false} LineWritten(lines: seq<Entry>, after: Files, kept: seq<Entry>, e: Entry)
    requires FilesOk(after) && Lines(after) == lines + kept
    requires NoneLater(lines, e.event.day) && NoneLater(kept, e.event.day)
    ensures FilesOk(Append(after, e)) && Lines(Append(after, e)) == lines + (kept + [e])
  {
    NoneLaterInBoth(lines, kept, e.event.day);
    AppendInOrder(after, e);
    OneMoreLine(lines, kept, e);
  }

  lemma {:induction false} WriteStep(files: Files, after: Files, made: seq<Entry>, flags: seq<bool>, e: Entry, ok: bool)
    requires Holds(files, after, made, flags)
    requires NoneLater(Lines(files), e.event.day) && NoneLater(made, e.event.day)
    ensures Holds(files, if ok then Append(after, e) else after, made + [e], flags + [ok])
  {
    KeptPush(made, flags, e, ok);
    if ok {
      KeptDates(made, flags, e.event.day);
      LineWritten(Lines(files), after, Kept(made, flags), e);
    }
  }

  lemma LastIsLatest(lines: seq<Entry>, made: seq<Entry>, batch: seq<Write>)
    requires batch != [] && Fits(lines, batch) && |made| == |batch| - 1
    requires forall i :: 0 <= i < |made| ==> made[i].event == batch[i].event
    ensures NoneLater(lines, batch[|batch| - 1].event.day) && NoneLater(made, batch[|batch| - 1].event.day)
  {
  }

  /** The last write of a batch: the entry it makes and what it does to the files. */
  lemma LastWrite(digest: string -> string, l: Logger, files: Files, batch: seq<Write>) returns (e: Entry)
    requires batch != []
    ensures var b, w := batch[..|batch| - 1], batch[|batch| - 1];
            && e.event == w.event
            && MadeBy(digest, l, batch) == MadeBy(digest, l, b) + [e]
            && Flags(batch) == Flags(b) + [w.ok]
            && WriteAll(digest, l, files, batch)
               == (if w.ok then Append(WriteAll(digest, l, files, b), e) else WriteAll(digest, l, files, b))
  {
    var b, w := batch[..|batch| - 1], batch[|batch| - 1];
    e := Made(digest, LogAll(digest, l, b), w.event);
    assert Flags(batch) == Flags(b) + [w.ok];
  }

  /** `after` holds the lines of `files` and the selection of `made`. */
  ghost predicate Holds(files: Files, after: Files, made: seq<Entry>, flags: seq<bool>) {
    |flags| == |made| && FilesOk(after) && Lines(after) == Lines(files) + Kept(made, flags)
  }

  /** What reached the disk: the old lines, then the logged entries whose write succeeded. */
  lemma {:induction false} DiskHoldsTheWritten(digest: string -> string, l: Logger, files: Files, batch: seq<Write>)
    requires FilesOk(files) && Fits(Lines(files), batch)
    ensures Holds(files, WriteAll(digest, l, files, batch), MadeBy(digest, l, batch), Flags(batch))
  {
    if batch == [] {
      assert Lines(files) + [] == Lines(files);
    } else {
      var b := batch[..|batch| - 1];
      FitsPrefix(Lines(files), batch);
      DiskHoldsTheWritten(digest, l, files, b);
      MemoryIsOldThenMade(digest, l, b);
      LastIsLatest(Lines(files), MadeBy(digest, l, b), batch);
      var e := LastWrite(digest, l, files, batch);
      WriteStep(files, WriteAll(digest, l, files, b), MadeBy(digest, l, b), Flags(b), e, batch[|batch| - 1].ok);
    }
  }

  lemma {:induction false} KeptDates(a: seq<Entry>, flags: seq<bool>, day: int)
    requires |flags| == |a| && NoneLater(a, day)
    ensures NoneLater(Kept(a, flags), day)
  {
    if a != [] {
      KeptDates(a[..|a| - 1], flags[..|a| - 1], day);
    }
  }

  /** Flags for a log of which the first `n` entries are on disk already. */
  function OnDisk(n: nat, flags: seq<bool>): (on: seq<bool>)
    ensures |on| == n + |flags|
    ensures forall i :: 0 <= i < n ==> on[i]
    ensures forall i :: 0 <= i < |flags| ==> on[n + i] == flags[i]
  {
    seq(n, i => true) + flags
  }

  lemma {:induction false} KeptAfterOld(lines: seq<Entry>, a: seq<Entry>, flags: seq<bool>, on: seq<bool>)
    requires |flags| == |a| && |on| == |lines| + |a|
    requires forall i :: 0 <= i < |on| ==> on[i] == (i < |lines| || flags[i - |lines|])
    ensures Kept(lines + a, on) == lines + Kept(a, flags)
    ensures CountKept(on) == |lines| + CountKept(flags)
  {
    var all := lines + a;
    if a == [] {
      assert all == lines;
      EverythingKept(all, on);
    } else {
      var n, m := |a| - 1, |all| - 1;
      KeptAfterOld(lines, a[..n], flags[..n], on[..m]);
      var before := Kept(a[..n], flags[..n]);
      assert all[..m] == lines + a[..n] && all[m] == a[n] && on[m] == flags[n];
      if flags[n] {
        assert Kept(all, on) == (lines + before) + [a[n]] == lines + (before + [a[n]]);
      } else {
        assert Kept(all, on) == (lines + before) + [] == lines + (before + []);
      }
    }
  }

  lemma OldLinesChangeNothing(n: nat, flags: seq<bool>)
    ensures LossesAreSuffix(OnDisk(n, flags)) <==> LossesAreSuffix(flags)
  {
    var on := OnDisk(n, flags);
    if LossesAreSuffix(on) {
      forall i, j | 0 <= i < j < |flags| && flags[j] ensures flags[i] {
        assert on[n + j] && on[n + i] == flags[i];
      }
    } else {
      var i, j :| 0 <= i < j < |on| && on[j] && !on[i];
      assert flags[j - n] && !flags[i - n];
    }
  }

  /** After a batch, memory is one chain of distinct entries and the disk holds a selection of it. */
  lemma DiskIsASelection(digest: string -> string, l: Logger, files: Files, batch: seq<Write>)
    requires Synced(digest, l, files) && Fits(Lines(files), batch)
    ensures var logged := LogAll(digest, l, batch).entries;
            var on := OnDisk(|l.entries|, Flags(batch));
            && |on| == |logged|
            && Lines(WriteAll(digest, l, files, batch)) == Kept(logged, on)
            && CountKept(on) == |l.entries| + CountKept(Flags(batch))
            && GoodLog(digest, logged)
  {
    var made, flags := MadeBy(digest, l, batch), Flags(batch);
    MemoryIsOldThenMade(digest, l, batch);
    KeptAfterOld(l.entries, made, flags, OnDisk(|l.entries|, flags));
    assert GoodLog(digest, LogAll(digest, l, batch).entries) by {
      MemoryIsChained(digest, l, batch);
    }
    DiskHoldsTheWritten(digest, l, files, batch);
  }

  lemma GoodLogPrefix(digest: string -> string, logged: seq<Entry>, n: nat)
    requires GoodLog(digest, logged) && n <= |logged|
    ensures GoodLog(digest, logged[..n])
  {
    ChainedPrefix(digest, logged, n);
  }

  /** A disk that holds a selection of a valid log boots exactly when the selection is a prefix. */
  lemma BootOfASelection(digest: string -> string, files: Files, logged: seq<Entry>, on: seq<bool>)
    requires GoodDigest(digest) && GoodLog(digest, logged)
    requires |on| == |logged| && Lines(files) == Kept(logged, on)
    ensures Boot(digest, files).Some? <==> LossesAreSuffix(on)
    ensures LossesAreSuffix(on) ==>
      Lines(files) == logged[..CountKept(on)] && Boot(digest, files) == Some(Loaded(Lines(files)))
    ensures LossesAreSuffix(on) ==> GoodLog(digest, Lines(files))
  {
    OnlyPrefixesVerify(digest, logged, on);
    BootsExactlyOnChains(digest, files);
    if LossesAreSuffix(on) {
      SuffixLossesKeepAPrefix(logged, on);
      GoodLogPrefix(digest, logged, CountKept(on));
    }
  }

  /** Logging and reloading: strict loading succeeds exactly when the failed writes are the last ones;
      it then restores exactly what was written, which is what was logged before the first failure,
      and its last checksum. */
  lemma ReloadSucceedsExactlyWithoutGaps(digest: string -> string, l: Logger, files: Files, batch: seq<Write>)
    returns (logged: seq<Entry>, kept: nat)
    requires GoodDigest(digest) && Synced(digest, l, files) && Fits(Lines(files), batch)
    ensures logged == LogAll(digest, l, batch).entries
    ensures kept == |l.entries| + CountKept(Flags(batch)) <= |logged|
    ensures var after := WriteAll(digest, l, files, batch);
            && (Boot(digest, after).Some? <==> LossesAreSuffix(Flags(batch)))
            && (LossesAreSuffix(Flags(batch)) ==>
                  && Lines(after) == logged[..kept]
                  && Boot(digest, after) == Some(Loaded(logged[..kept]))
                  && GoodLog(digest, Lines(after)))
  {
    var flags := Flags(batch);
    var on := OnDisk(|l.entries|, flags);
    logged := LogAll(digest, l, batch).entries;
    var after := WriteAll(digest, l, files, batch);
    DiskIsASelection(digest, l, files, batch);
    kept := CountKept(on);
    OldLinesChangeNothing(|l.entries|, flags);
    BootOfASelection(digest, after, logged, on);
  }

  // ---------------------------------------------------------------- any number of restarts

  /** A session is a process lifetime: it starts with a strict load and then logs a batch. */
  function Session(digest: string -> string, files: Files, batch: seq<Write>): Option<Files> {
    match Boot(digest, files)
    case None => None
    case Some(l) => Some(WriteAll(digest, l, files, batch))
  }

  function Sessions(digest: string -> string, sessions: seq<seq<Write>>): Option<Files> {
    if sessions == [] then Some([])
    else
      match Sessions(digest, sessions[..|sessions| - 1])
      case None => None
      case Some(files) => Session(digest, files, sessions[|sessions| - 1])
  }

  /** All writes of all sessions, in order. */
  function Flat(sessions: seq<seq<Write>>): seq<Write> {
    if sessions == [] then [] else Flat(sessions[..|sessions| - 1]) + sessions[|sessions| - 1]
  }

  /** The events of the writes that succeed. */
  function Written(batch: seq<Write>): seq<Event> {
    if batch == [] then []
    else Written(batch[..|batch| - 1]) + (if batch[|batch| - 1].ok then [batch[|batch| - 1].event] else [])
  }

  function Events(lines: seq<Entry>): seq<Event> {
    if lines == [] then [] else Events(lines[..|lines| - 1]) + [lines[|lines| - 1].event]
  }

  lemma {:induction false} EventsAppend(a: seq<Entry>, b: seq<Entry>)
    ensures Events(a + b) == Events(a) + Events(b)
  {
    if b == [] {
      assert a + b == a;
    } else {
      assert (a + b)[..|a + b| - 1] == a + b[..|b| - 1];
      EventsAppend(a, b[..|b| - 1]);
    }
  }

  lemma {:induction false} WrittenAppend(a: seq<Write>, b: seq<Write>)
    ensures Written(a + b) == Written(a) + Written(b)
  {
    if b == [] {
      assert a + b == a;
    } else {
      assert (a + b)[..|a + b| - 1] == a + b[..|b| - 1];
      WrittenAppend(a, b[..|b| - 1]);
    }
  }

  lemma EventsPush(kept: seq<Entry>, e: Entry)
    ensures Events(kept + [e]) == Events(kept) + [e.event]
  {
    assert (kept + [e])[..|kept|] == kept;
  }

  lemma {:induction false} EventsOfKept(a: seq<Entry>, batch: seq<Write>)
    requires |a| == |batch| && forall i :: 0 <= i < |a| ==> a[i].event == batch[i].event
    ensures Events(Kept(a, Flags(batch))) == Written(batch)
  {
    if a != [] {
      var n := |a| - 1;
      EventsOfKept(a[..n], batch[..n]);
      var flags := Flags(batch);
      assert flags[..n] == Flags(batch[..n]);
      var kept := Kept(a[..n], flags[..n]);
      assert Events(kept) == Written(batch[..n]);
      if flags[n] {
        assert Kept(a, flags) == kept + [a[n]];
        EventsPush(kept, a[n]);
      } else {
        assert Kept(a, flags) == kept + [] == kept;
      }
    }
  }

  ghost predicate HealthyDisk(digest: string -> string, files: Files) {
    FilesOk(files) && GoodLog(digest, Lines(files))
  }

  lemma DiskAfterSuffixLoss(digest: string -> string, l: Logger, files: Files, batch: seq<Write>)
    requires GoodDigest(digest) && Synced(digest, l, files) && Fits(Lines(files), batch)
    requires LossesAreSuffix(Flags(batch))
    ensures HealthyDisk(digest, WriteAll(digest, l, files, batch))
  {
    var logged, kept := ReloadSucceedsExactlyWithoutGaps(digest, l, files, batch);
    DiskHoldsTheWritten(digest, l, files, batch);
  }

  lemma DiskGrowsByTheWritten(digest: string -> string, l: Logger, files: Files, batch: seq<Write>)
    requires FilesOk(files) && Fits(Lines(files), batch)
    ensures Events(Lines(WriteAll(digest, l, files, batch))) == Events(Lines(files)) + Written(batch)
  {
    MemoryIsOldThenMade(digest, l, batch);
    DiskHoldsTheWritten(digest, l, files, batch);
    EventsAppend(Lines(files), Kept(MadeBy(digest, l, batch), Flags(batch)));
    EventsOfKept(MadeBy(digest, l, batch), batch);
  }

  /** One session on a healthy disk: the next start succeeds exactly when only a suffix was lost, and
      then the disk is healthy again and has grown by exactly what the session wrote. */
  lemma SessionKeepsDiskHealthy(digest: string -> string, files: Files, batch: seq<Write>)
    requires GoodDigest(digest) && HealthyDisk(digest, files) && Fits(Lines(files), batch)
    ensures Session(digest, files, batch).Some?
    ensures var after := Session(digest, files, batch).value;
            && (Boot(digest, after).Some? <==> LossesAreSuffix(Flags(batch)))
            && (LossesAreSuffix(Flags(batch)) ==> HealthyDisk(digest, after))
            && Events(Lines(after)) == Events(Lines(files)) + Written(batch)
  {
    BootsExactlyOnChains(digest, files);
    var l := Boot(digest, files).value;
    var logged, kept := ReloadSucceedsExactlyWithoutGaps(digest, l, files, batch);
    DiskGrowsByTheWritten(digest, l, files, batch);
    if LossesAreSuffix(Flags(batch)) {
      DiskAfterSuffixLoss(digest, l, files, batch);
    }
  }

  lemma OrderlySplits(a: seq<Write>, b: seq<Write>)
    requires Orderly(a + b)
    ensures Orderly(a) && Orderly(b)
    ensures forall i, k :: 0 <= i < |a| && 0 <= k < |b| ==> MayFollow(a[i].event, b[k].event)
  {
    var all := a + b;
    assert forall i :: 0 <= i < |a| ==> all[i] == a[i];
    forall k | 0 <= k < |b| ensures NoBar(b[k].event.id) {
      assert all[|a| + k] == b[k];
    }
    forall i, k | 0 <= i < k < |b| ensures MayFollow(b[i].event, b[k].event) {
      assert all[|a| + i] == b[i] && all[|a| + k] == b[k];
    }
    forall i, k | 0 <= i < |a| && 0 <= k < |b| ensures MayFollow(a[i].event, b[k].event) {
      assert all[|a| + k] == b[k];
    }
  }

  lemma {:induction false} WrittenComesFrom(batch: seq<Write>)
    ensures forall e :: e in Written(batch) ==> exists j :: 0 <= j < |batch| && batch[j].event == e
  {
    if batch != [] {
      var n := |batch| - 1;
      WrittenComesFrom(batch[..n]);
      forall e | e in Written(batch) ensures exists j :: 0 <= j < |batch| && batch[j].event == e {
        if e in Written(batch[..n]) {
          var j :| 0 <= j < n && batch[..n][j].event == e;
          assert batch[j].event == e;
        } else {
          assert batch[n].event == e;
        }
      }
    }
  }

  lemma {:induction false} EventsContain(lines: seq<Entry>, k: nat)
    requires k < |lines|
    ensures lines[k].event in Events(lines)
  {
    if k < |lines| - 1 {
      EventsContain(lines[..|lines| - 1], k);
    }
  }

  lemma NextBatchFits(earlier: seq<Write>, batch: seq<Write>, lines: seq<Entry>)
    requires Orderly(earlier + batch) && Events(lines) == Written(earlier)
    ensures Fits(lines, batch)
  {
    OrderlySplits(earlier, batch);
    WrittenComesFrom(earlier);
    forall k, i | 0 <= k < |lines| && 0 <= i < |batch| ensures MayFollow(lines[k].event, batch[i].event) {
      EventsContain(lines, k);
      var j :| 0 <= j < |earlier| && earlier[j].event == lines[k].event;
    }
  }

  /** Every session so far lost at most a suffix of its writes. */
  ghost predicate NoGaps(sessions: seq<seq<Write>>) {
    forall k :: 0 <= k < |sessions| ==> LossesAreSuffix(Flags(sessions[k]))
  }

  lemma NoGapsSplits(sessions: seq<seq<Write>>)
    requires sessions != []
    ensures NoGaps(sessions) <==>
      NoGaps(sessions[..|sessions| - 1]) && LossesAreSuffix(Flags(sessions[|sessions| - 1]))
  {
    var n := |sessions| - 1;
    assert forall k :: 0 <= k < n ==> sessions[..n][k] == sessions[k];
  }

  /** Over any number of restarts, with distinct '|'-free ids and dates that never go backwards: every
      start so far succeeded and the next one will exactly when each session lost only a suffix of its
      writes; the day files are then one valid chain of everything that was written. */
  lemma {:induction false} RestartsKeepOneChain(digest: string -> string, sessions: seq<seq<Write>>)
    requires GoodDigest(digest) && Orderly(Flat(sessions))
    ensures Sessions(digest, sessions).Some? && Boot(digest, Sessions(digest, sessions).value).Some? <==> NoGaps(sessions)
    ensures NoGaps(sessions) ==> HealthyDisk(digest, Sessions(digest, sessions).value)
    ensures NoGaps(sessions) ==> Events(Lines(Sessions(digest, sessions).value)) == Written(Flat(sessions))
  {
    if sessions == [] {
      BootsExactlyOnChains(digest, []);
    } else {
      var n := |sessions| - 1;
      var before, last := sessions[..n], sessions[n];
      OrderlySplits(Flat(before), last);
      RestartsKeepOneChain(digest, before);
      NoGapsSplits(sessions);
      if NoGaps(before) {
        var files := Sessions(digest, before).value;
        NextBatchFits(Flat(before), last, Lines(files));
        SessionKeepsDiskHealthy(digest, files, last);
        WrittenAppend(Flat(before), last);
      }
    }
  }
}
