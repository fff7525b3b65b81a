/**
 The bounded dead-letter queue of the composite dispatcher: sending, eviction, retry passes and expiry.
 What a dispatcher does with a message is an input of each step.
 */
module DeadLetters {

  const MAX_DEAD_LETTERS := 1000
  const MAX_RETRY_ATTEMPTS := 3

  datatype Alert = Alert(id: string, text: string)

  const REFUSAL := "send returned False"

  /** `send` returned True, returned False, or raised. */
  datatype Sent = Delivered | Refused | Broke(error: string)

  datatype Letter = Letter(alert: Alert, channel: string, reason: string, retries: nat)

  /** A letter with its history: its number among all enqueued ones, the pass count when it was
      enqueued, and how often it was handed to a dispatcher again. */
  datatype Tracked = Tracked(letter: Letter, serial: nat, born: nat, redeliveries: nat)

  datatype Why = Succeeded | Expired | Evicted

  datatype Gone = Gone(entry: Tracked, why: Why)

  datatype Ledger = Ledger(queue: seq<Tracked>, gone: seq<Gone>, enqueued: nat, passes: nat)

  const EMPTY := Ledger([], [], 0, 0)

  datatype Attempt = Attempt(channel: string, sent: Sent)

  datatype Op =
    | Send(alert: Alert, attempts: seq<Attempt>)
    | RetryPass(known: set<string>, results: seq<Sent>)

  // ---------------------------------------------------------------- sending

  function NewLetter(alert: Alert, a: Attempt): Letter
    requires !a.sent.Delivered?
  {
    Letter(alert, a.channel, if a.sent.Refused? then REFUSAL else a.sent.error, 0)
  }

  /** Appending at the end; a full queue first loses its oldest letter. */
  function Enqueue(g: Ledger, letter: Letter): Ledger {
    var entry := Tracked(letter, g.enqueued, g.passes, 0);
    if |g.queue| >= MAX_DEAD_LETTERS then
      g.(queue := g.queue[1..] + [entry], gone := g.gone + [Gone(g.queue[0], Evicted)], enqueued := g.enqueued + 1)
    else
      g.(queue := g.queue + [entry], enqueued := g.enqueued + 1)
  }

  function SendAll(g: Ledger, alert: Alert, attempts: seq<Attempt>): Ledger {
    if attempts == [] then g
    else
      var n := |attempts| - 1;
      var before := SendAll(g, alert, attempts[..n]);
      if attempts[n].sent.Delivered? then before else Enqueue(before, NewLetter(alert, attempts[n]))
  }

  predicate AnyDelivered(attempts: seq<Attempt>) {
    attempts != [] && (AnyDelivered(attempts[..|attempts| - 1]) || attempts[|attempts| - 1].sent.Delivered?)
  }

  lemma {:induction false} AnyDeliveredMeans(attempts: seq<Attempt>)
    ensures AnyDelivered(attempts) <==> exists i :: 0 <= i < |attempts| && attempts[i].sent.Delivered?
  {
    if attempts != [] {
      var before := attempts[..|attempts| - 1];
      AnyDeliveredMeans(before);
      if exists i :: 0 <= i < |before| && before[i].sent.Delivered? {
        var i :| 0 <= i < |before| && before[i].sent.Delivered?;
        assert attempts[i].sent.Delivered?;
      }
    }
  }

  /** The effect of the first `i + 1` attempts from that of the first `i`. */
  lemma OneMoreAttempt(g: Ledger, alert: Alert, attempts: seq<Attempt>, i: nat)
    requires i < |attempts|
    ensures var before, a := SendAll(g, alert, attempts[..i]), attempts[i];
            SendAll(g, alert, attempts[..i + 1])
            == if a.sent.Delivered? then before else Enqueue(before, NewLetter(alert, a))
    ensures AnyDelivered(attempts[..i + 1]) == (AnyDelivered(attempts[..i]) || attempts[i].sent.Delivered?)
  {
    assert attempts[..i + 1][..i] == attempts[..i];
  }

  // ---------------------------------------------------------------- a retry pass

  function ResultAt(results: seq<Sent>, i: nat): Sent {
    if i < |results| then results[i] else Refused
  }

  datatype Swept = Swept(kept: seq<Tracked>, gone: seq<Gone>)

  function RetriedOnce(t: Tracked, handed: bool): Tracked {
    t.(letter := t.letter.(retries := t.letter.retries + 1),
       redeliveries := t.redeliveries + (if handed then 1 else 0))
  }

  /** One entry of a pass. */
  function Retry(s: Swept, t: Tracked, known: set<string>, sent: Sent): Swept {
    if t.letter.retries >= MAX_RETRY_ATTEMPTS then s.(gone := s.gone + [Gone(t, Expired)])
    else if t.letter.channel !in known then s.(kept := s.kept + [RetriedOnce(t, false)])
    else if sent.Delivered? then s.(gone := s.gone + [Gone(RetriedOnce(t, true), Succeeded)])
    else s.(kept := s.kept + [RetriedOnce(t, true)])
  }

  function Sweep(queue: seq<Tracked>, known: set<string>, results: seq<Sent>): Swept {
    if queue == [] then Swept([], [])
    else
      var n := |queue| - 1;
      Retry(Sweep(queue[..n], known, results), queue[n], known, ResultAt(results, n))
  }

  function PassOver(g: Ledger, known: set<string>, results: seq<Sent>): Ledger {
    var s := Sweep(g.queue, known, results);
    g.(queue := s.kept, gone := g.gone + s.gone, passes := g.passes + 1)
  }

  function Step(g: Ledger, op: Op): Ledger {
    match op
    case Send(alert, attempts) => SendAll(g, alert, attempts)
    case RetryPass(known, results) => PassOver(g, known, results)
  }

  function Run(ops: seq<Op>): Ledger {
    if ops == [] then EMPTY else Step(Run(ops[..|ops| - 1]), ops[|ops| - 1])
  }

  // ---------------------------------------------------------------- the shape of the queue

  /** One entry: its count is the number of passes since it was enqueued, and bounds its redeliveries. */
  predicate EntryOk(t: Tracked, passes: nat) {
    t.born <= passes && t.letter.retries == passes - t.born <= MAX_RETRY_ATTEMPTS && t.redeliveries <= t.letter.retries
  }

  /** Older entries come first, so counts never increase along the queue. */
  predicate Ordered(queue: seq<Tracked>) {
    forall i, j :: 0 <= i < j < |queue| ==>
      queue[i].serial < queue[j].serial && queue[i].letter.retries >= queue[j].letter.retries
  }

  predicate GoneOk(gone: Gone) {
    && gone.entry.redeliveries <= gone.entry.letter.retries <= MAX_RETRY_ATTEMPTS
    && (gone.why == Expired ==> gone.entry.letter.retries == MAX_RETRY_ATTEMPTS)
  }

  predicate Shape(g: Ledger) {
    && |g.queue| <= MAX_DEAD_LETTERS
    && (forall i :: 0 <= i < |g.queue| ==> EntryOk(g.queue[i], g.passes) && g.queue[i].serial < g.enqueued)
    && Ordered(g.queue)
    && (forall i :: 0 <= i < |g.gone| ==> GoneOk(g.gone[i]))
    && g.enqueued == |g.queue| + |g.gone|
  }

  lemma EnqueueKeepsShape(g: Ledger, letter: Letter)
    requires Shape(g) && letter.retries == 0
    ensures Shape(Enqueue(g, letter))
  {
  }

  lemma {:induction false} SendKeepsShape(g: Ledger, alert: Alert, attempts: seq<Attempt>)
    requires Shape(g)
    ensures Shape(SendAll(g, alert, attempts))
  {
    if attempts != [] {
      var n := |attempts| - 1;
      SendKeepsShape(g, alert, attempts[..n]);
      if !attempts[n].sent.Delivered? {
        EnqueueKeepsShape(SendAll(g, alert, attempts[..n]), NewLetter(alert, attempts[n]));
      }
    }
  }

  predicate SurvivesAs(before: Tracked, after: Tracked) {
    && before.letter.retries < MAX_RETRY_ATTEMPTS
    && (after == RetriedOnce(before, true) || after == RetriedOnce(before, false))
  }

  /** What a pass leaves is an order-preserving subsequence, every count one higher: `from[j]` is where
      survivor `j` stood before. Nothing else is lost or made up. */
  lemma {:induction false} SurvivorsAreASubsequence(queue: seq<Tracked>, known: set<string>, results: seq<Sent>)
    returns (from: seq<nat>)
    ensures var s := Sweep(queue, known, results);
            && |from| == |s.kept| && |s.kept| + |s.gone| == |queue|
            && (forall j :: 0 <= j < |from| ==> from[j] < |queue| && SurvivesAs(queue[from[j]], s.kept[j]))
            && (forall j, k :: 0 <= j < k < |from| ==> from[j] < from[k])
  {
    from := [];
    if queue != [] {
      var n := |queue| - 1;
      from := SurvivorsAreASubsequence(queue[..n], known, results);
      if |Sweep(queue, known, results).kept| > |from| {
        from := from + [n];
      }
    }
  }

  lemma {:induction false} DepartedAreOk(queue: seq<Tracked>, passes: nat, known: set<string>, results: seq<Sent>)
    requires forall i :: 0 <= i < |queue| ==> EntryOk(queue[i], passes)
    ensures forall i :: 0 <= i < |Sweep(queue, known, results).gone| ==> GoneOk(Sweep(queue, known, results).gone[i])
  {
    if queue != [] {
      DepartedAreOk(queue[..|queue| - 1], passes, known, results);
    }
  }

  lemma PassKeepsShape(g: Ledger, known: set<string>, results: seq<Sent>)
    requires Shape(g)
    ensures Shape(PassOver(g, known, results))
  {
    var from := SurvivorsAreASubsequence(g.queue, known, results);
    DepartedAreOk(g.queue, g.passes, known, results);
    var kept := Sweep(g.queue, known, results).kept;
    forall i, j | 0 <= i < j < |kept| ensures kept[i].serial < kept[j].serial && kept[i].letter.retries >= kept[j].letter.retries {
      assert from[i] < from[j];
    }
  }

  /** In every reachable state the queue is bounded, each count is the number of passes since the entry
      was enqueued and at most three, counts never increase along the queue, and no entry, queued or
      gone, was redelivered more than three times. */
  lemma {:induction false} ShapeHoldsInEveryRun(ops: seq<Op>)
    ensures Shape(Run(ops))
  {
    if ops != [] {
      var g := Run(ops[..|ops| - 1]);
      ShapeHoldsInEveryRun(ops[..|ops| - 1]);
      match ops[|ops| - 1]
      case Send(alert, attempts) => SendKeepsShape(g, alert, attempts);
      case RetryPass(known, results) => PassKeepsShape(g, known, results);
    }
  }

  // ---------------------------------------------------------------- conservation

  function CountGone(gone: seq<Gone>, why: Why): nat {
    if gone == [] then 0
    else CountGone(gone[..|gone| - 1], why) + (if gone[|gone| - 1].why == why then 1 else 0)
  }

  lemma {:induction false} GoneSplits(gone: seq<Gone>)
    ensures |gone| == CountGone(gone, Succeeded) + CountGone(gone, Expired) + CountGone(gone, Evicted)
  {
    if gone != [] {
      GoneSplits(gone[..|gone| - 1]);
    }
  }

  /** enqueued = queued + succeeded + expired + evicted, over any run. */
  lemma LettersAreConserved(ops: seq<Op>)
    ensures var g := Run(ops);
            g.enqueued == |g.queue| + CountGone(g.gone, Succeeded) + CountGone(g.gone, Expired) + CountGone(g.gone, Evicted)
  {
    ShapeHoldsInEveryRun(ops);
    GoneSplits(Run(ops).gone);
  }

  lemma CountGonePush(gone: seq<Gone>, g: Gone, why: Why)
    ensures CountGone(gone + [g], why) == CountGone(gone, why) + (if g.why == why then 1 else 0)
  {
    assert (gone + [g])[..|gone|] == gone;
  }

  /** One entry leaves a pass at most once, and for the reason its count and its dispatcher give. */
  lemma RetryCounts(s: Swept, t: Tracked, known: set<string>, sent: Sent, why: Why)
    ensures var expires := t.letter.retries >= MAX_RETRY_ATTEMPTS;
            var succeeds := !expires && t.letter.channel in known && sent.Delivered?;
            CountGone(Retry(s, t, known, sent).gone, why)
            == CountGone(s.gone, why) + (if (why == Expired && expires) || (why == Succeeded && succeeds) then 1 else 0)
  {
    CountGonePush(s.gone, Gone(t, Expired), why);
    CountGonePush(s.gone, Gone(RetriedOnce(t, true), Succeeded), why);
  }

  lemma {:induction false} NobodyIsEvictedByAPass(queue: seq<Tracked>, known: set<string>, results: seq<Sent>)
    ensures CountGone(Sweep(queue, known, results).gone, Evicted) == 0
  {
    if queue != [] {
      var n := |queue| - 1;
      NobodyIsEvictedByAPass(queue[..n], known, results);
      RetryCounts(Sweep(queue[..n], known, results), queue[n], known, ResultAt(results, n), Evicted);
    }
  }

  function One(yes: bool): nat { if yes then 1 else 0 }

  /** How often letter number `serial` is in the queue. */
  function Queued(queue: seq<Tracked>, serial: nat): nat {
    if queue == [] then 0 else Queued(queue[..|queue| - 1], serial) + One(queue[|queue| - 1].serial == serial)
  }

  /** How often it has gone. */
  function Left(gone: seq<Gone>, serial: nat): nat {
    if gone == [] then 0 else Left(gone[..|gone| - 1], serial) + One(gone[|gone| - 1].entry.serial == serial)
  }

  lemma QueuedPush(queue: seq<Tracked>, t: Tracked, serial: nat)
    ensures Queued(queue + [t], serial) == Queued(queue, serial) + One(t.serial == serial)
  {
    assert (queue + [t])[..|queue|] == queue;
  }

  lemma LeftPush(gone: seq<Gone>, g: Gone, serial: nat)
    ensures Left(gone + [g], serial) == Left(gone, serial) + One(g.entry.serial == serial)
  {
    assert (gone + [g])[..|gone|] == gone;
  }

  lemma {:induction false} QueuedFromTheFront(queue: seq<Tracked>, serial: nat)
    requires queue != []
    ensures Queued(queue, serial) == One(queue[0].serial == serial) + Queued(queue[1..], serial)
  {
    var n := |queue| - 1;
    if n > 0 {
      QueuedFromTheFront(queue[..n], serial);
      QueuedPush(queue[..n], queue[n], serial);
      QueuedPush(queue[1..n], queue[n], serial);
      assert queue[..n] + [queue[n]] == queue && queue[1..n] + [queue[n]] == queue[1..];
      assert queue[..n][1..] == queue[1..n];
    }
  }

  lemma {:induction false} LeftAppend(a: seq<Gone>, b: seq<Gone>, serial: nat)
    ensures Left(a + b, serial) == Left(a, serial) + Left(b, serial)
  {
    if b == [] {
      assert a + b == a;
    } else {
      var n := |b| - 1;
      LeftAppend(a, b[..n], serial);
      LeftPush(a + b[..n], b[n], serial);
      assert a + b == a + b[..n] + [b[n]];
    }
  }

  lemma RetryMovesOne(s: Swept, t: Tracked, known: set<string>, sent: Sent, serial: nat)
    ensures var after := Retry(s, t, known, sent);
            Queued(after.kept, serial) + Left(after.gone, serial)
            == Queued(s.kept, serial) + Left(s.gone, serial) + One(t.serial == serial)
  {
    QueuedPush(s.kept, RetriedOnce(t, true), serial);
    QueuedPush(s.kept, RetriedOnce(t, false), serial);
    LeftPush(s.gone, Gone(t, Expired), serial);
    LeftPush(s.gone, Gone(RetriedOnce(t, true), Succeeded), serial);
  }

  lemma {:induction false} SweepMovesEachOnce(queue: seq<Tracked>, known: set<string>, results: seq<Sent>, serial: nat)
    ensures var s := Sweep(queue, known, results);
            Queued(s.kept, serial) + Left(s.gone, serial) == Queued(queue, serial)
  {
    if queue != [] {
      var n := |queue| - 1;
      SweepMovesEachOnce(queue[..n], known, results, serial);
      RetryMovesOne(Sweep(queue[..n], known, results), queue[n], known, ResultAt(results, n), serial);
    }
  }

  /** Letter number `serial` is in one place if it was ever enqueued, and nowhere otherwise. */
  predicate Accounted(g: Ledger, serial: nat) {
    Queued(g.queue, serial) + Left(g.gone, serial) == One(serial < g.enqueued)
  }

  lemma EnqueueAccounts(g: Ledger, letter: Letter, serial: nat)
    requires Accounted(g, serial)
    ensures Accounted(Enqueue(g, letter), serial)
  {
    var entry := Tracked(letter, g.enqueued, g.passes, 0);
    if |g.queue| >= MAX_DEAD_LETTERS {
      QueuedFromTheFront(g.queue, serial);
      QueuedPush(g.queue[1..], entry, serial);
      LeftPush(g.gone, Gone(g.queue[0], Evicted), serial);
    } else {
      QueuedPush(g.queue, entry, serial);
    }
  }

  lemma {:induction false} SendAccounts(g: Ledger, alert: Alert, attempts: seq<Attempt>, serial: nat)
    requires Accounted(g, serial)
    ensures Accounted(SendAll(g, alert, attempts), serial)
  {
    if attempts != [] {
      var n := |attempts| - 1;
      SendAccounts(g, alert, attempts[..n], serial);
      if !attempts[n].sent.Delivered? {
        EnqueueAccounts(SendAll(g, alert, attempts[..n]), NewLetter(alert, attempts[n]), serial);
      }
    }
  }

  /** Over any run every letter ever enqueued is in exactly one place: still queued, or gone once. */
  lemma {:induction false} EveryLetterIsAccountedFor(ops: seq<Op>, serial: nat)
    ensures Accounted(Run(ops), serial)
  {
    if ops != [] {
      var g := Run(ops[..|ops| - 1]);
      EveryLetterIsAccountedFor(ops[..|ops| - 1], serial);
      match ops[|ops| - 1]
      case Send(alert, attempts) => SendAccounts(g, alert, attempts, serial);
      case RetryPass(known, results) =>
        SweepMovesEachOnce(g.queue, known, results, serial);
        LeftAppend(g.gone, Sweep(g.queue, known, results).gone, serial);
    }
  }

  /** The four numbers a pass reports: retried = succeeded + failed + expired. */
  lemma PassReportAddsUp(queue: seq<Tracked>, known: set<string>, results: seq<Sent>)
    ensures var s := Sweep(queue, known, results);
            |queue| == CountGone(s.gone, Succeeded) + |s.kept| + CountGone(s.gone, Expired)
  {
    var from := SurvivorsAreASubsequence(queue, known, results);
    GoneSplits(Sweep(queue, known, results).gone);
    NobodyIsEvictedByAPass(queue, known, results);
  }

  // ---------------------------------------------------------------- who leaves

  /** How many entries at the front have used up their retries. */
  function Spent(queue: seq<Tracked>): (k: nat)
    ensures k <= |queue|
    ensures forall i :: 0 <= i < k ==> queue[i].letter.retries >= MAX_RETRY_ATTEMPTS
    ensures k < |queue| ==> queue[k].letter.retries < MAX_RETRY_ATTEMPTS
  {
    if queue == [] || queue[0].letter.retries < MAX_RETRY_ATTEMPTS then 0 else 1 + Spent(queue[1..])
  }

  /** Expiry always removes a prefix: an entry is spent exactly when it is among the first ones. */
  lemma ExpiryRemovesAPrefix(g: Ledger, i: nat)
    requires Shape(g) && i < |g.queue|
    ensures g.queue[i].letter.retries >= MAX_RETRY_ATTEMPTS <==> i < Spent(g.queue)
  {
    var k := Spent(g.queue);
    if k < i {
      assert g.queue[k].letter.retries >= g.queue[i].letter.retries;
    }
  }

  /** And a pass expires exactly that many. */
  lemma {:induction false} ExpiredAreTheSpent(queue: seq<Tracked>, known: set<string>, results: seq<Sent>)
    requires Ordered(queue)
    ensures CountGone(Sweep(queue, known, results).gone, Expired) == Spent(queue)
  {
    if queue != [] {
      var n := |queue| - 1;
      var less, t := queue[..n], queue[n];
      assert less + [t] == queue && Ordered(less);
      ExpiredAreTheSpent(less, known, results);
      var before := Sweep(less, known, results);
      RetryCounts(before, t, known, ResultAt(results, n), Expired);
      assert Sweep(queue, known, results) == Retry(before, t, known, ResultAt(results, n));
      SpentPush(less, t);
    }
  }

  lemma {:induction false} SpentPush(queue: seq<Tracked>, t: Tracked)
    requires Ordered(queue + [t])
    ensures Spent(queue + [t]) == Spent(queue) + (if t.letter.retries >= MAX_RETRY_ATTEMPTS then 1 else 0)
  {
    var all := queue + [t];
    if queue != [] {
      assert all[1..] == queue[1..] + [t];
      assert all[0] == queue[0] && all[|queue|] == t;
      SpentPush(queue[1..], t);
    }
  }

  /** Overflow evicts the entry at the front, and no entry has been retried more often. */
  lemma EvictionTakesAMaximalCount(g: Ledger, letter: Letter, i: nat)
    requires Shape(g) && i < |g.queue| && |g.queue| >= MAX_DEAD_LETTERS
    ensures var after := Enqueue(g, letter);
            && after.gone == g.gone + [Gone(g.queue[0], Evicted)]
            && g.queue[0].letter.retries >= g.queue[i].letter.retries
            && |after.queue| == MAX_DEAD_LETTERS
  {
  }

  // ---------------------------------------------------------------- what sending leaves behind

  /** The letters the failed attempts of one send give rise to, in order. */
  function Failures(alert: Alert, attempts: seq<Attempt>): seq<Letter> {
    if attempts == [] then []
    else
      var n := |attempts| - 1;
      Failures(alert, attempts[..n])
        + (if attempts[n].sent.Delivered? then [] else [NewLetter(alert, attempts[n])])
  }

  function Letters(queue: seq<Tracked>): (s: seq<Letter>)
    ensures |s| == |queue| && forall i :: 0 <= i < |s| ==> s[i] == queue[i].letter
  {
    if queue == [] then [] else Letters(queue[..|queue| - 1]) + [queue[|queue| - 1].letter]
  }

  function Newest(s: seq<Letter>): seq<Letter> {
    if |s| <= MAX_DEAD_LETTERS then s else s[|s| - MAX_DEAD_LETTERS..]
  }

  lemma LettersPush(queue: seq<Tracked>, t: Tracked)
    ensures Letters(queue + [t]) == Letters(queue) + [t.letter]
  {
    assert (queue + [t])[..|queue|] == queue;
  }

  lemma LettersTail(queue: seq<Tracked>)
    requires queue != []
    ensures Letters(queue[1..]) == Letters(queue)[1..]
  {
  }

  lemma EnqueueKeepsTheNewest(g: Ledger, letter: Letter)
    requires |g.queue| <= MAX_DEAD_LETTERS
    ensures Letters(Enqueue(g, letter).queue) == Newest(Letters(g.queue) + [letter])
    ensures |Enqueue(g, letter).queue| <= MAX_DEAD_LETTERS
  {
    var entry, letters := Tracked(letter, g.enqueued, g.passes, 0), Letters(g.queue);
    if |g.queue| >= MAX_DEAD_LETTERS {
      LettersTail(g.queue);
      LettersPush(g.queue[1..], entry);
      assert (letters + [letter])[1..] == letters[1..] + [letter];
    } else {
      LettersPush(g.queue, entry);
    }
  }

  lemma NewestPush(s: seq<Letter>, letter: Letter)
    ensures Newest(Newest(s) + [letter]) == Newest(s + [letter])
  {
  }

  /** After a send the queue holds the newest thousand of the old letters followed by one new letter for
      each attempt that was refused or raised. */
  lemma {:induction false} SendKeepsTheNewest(g: Ledger, alert: Alert, attempts: seq<Attempt>)
    requires |g.queue| <= MAX_DEAD_LETTERS
    ensures Letters(SendAll(g, alert, attempts).queue) == Newest(Letters(g.queue) + Failures(alert, attempts))
    ensures |SendAll(g, alert, attempts).queue| <= MAX_DEAD_LETTERS
  {
    if attempts == [] {
      assert Letters(g.queue) + [] == Letters(g.queue);
    } else {
      var n := |attempts| - 1;
      SendKeepsTheNewest(g, alert, attempts[..n]);
      var failures := Failures(alert, attempts[..n]);
      if attempts[n].sent.Delivered? {
        assert failures + [] == failures;
      } else {
        var letter := NewLetter(alert, attempts[n]);
        EnqueueKeepsTheNewest(SendAll(g, alert, attempts[..n]), letter);
        NewestPush(Letters(g.queue) + failures, letter);
        assert Letters(g.queue) + failures + [letter] == Letters(g.queue) + (failures + [letter]);
      }
    }
  }

  lemma QueueAfterEnqueue(g: Ledger, letter: Letter)
    requires |g.queue| <= MAX_DEAD_LETTERS
    ensures |Enqueue(g, letter).queue| == if |g.queue| < 1000 then |g.queue| + 1 else 1000
  {
  }

  /** The queue grows by the failures of a send, up to a thousand letters. */
  lemma {:induction false} QueueAfterSend(g: Ledger, alert: Alert, attempts: seq<Attempt>)
    requires |g.queue| <= 1000
    ensures var n := |g.queue| + |Failures(alert, attempts)|;
            |SendAll(g, alert, attempts).queue| == if n <= 1000 then n else 1000
  {
    if attempts != [] {
      var k := |attempts| - 1;
      QueueAfterSend(g, alert, attempts[..k]);
      if !attempts[k].sent.Delivered? {
        QueueAfterEnqueue(SendAll(g, alert, attempts[..k]), NewLetter(alert, attempts[k]));
      }
    }
  }

  // ---------------------------------------------------------------- where letters come from

  /** The letter tells of the failed attempt: the alert, the channel it failed on, and why. */
  predicate TellsOf(l: Letter, alert: Alert, a: Attempt) {
    && !a.sent.Delivered?
    && l.alert == alert && l.channel == a.channel
    && (a.sent.Refused? ==> l.reason == "send returned False")
    && (a.sent.Broke? ==> l.reason == a.sent.error)
  }

  /** Some attempt of some send of the run failed, and this is its letter. */
  ghost predicate ComesFrom(ops: seq<Op>, l: Letter) {
    exists i, j :: IsSource(ops, l, i, j)
  }

  predicate IsSource(ops: seq<Op>, l: Letter, i: nat, j: nat) {
    i < |ops| && ops[i].Send? && j < |ops[i].attempts| && TellsOf(l, ops[i].alert, ops[i].attempts[j])
  }

  lemma StillComesFrom(ops: seq<Op>, op: Op, l: Letter, more: nat)
    requires ComesFrom(ops, l)
    ensures ComesFrom(ops + [op], l.(retries := more))
  {
    var i, j :| IsSource(ops, l, i, j);
    assert IsSource(ops + [op], l.(retries := more), i, j);
  }

  /** Every letter in the ledger, waiting or gone. */
  predicate HasLetter(g: Ledger, l: Letter) {
    Waits(g.queue, l) || HasGone(g.gone, l)
  }

  predicate Waits(queue: seq<Tracked>, l: Letter) {
    exists i :: 0 <= i < |queue| && queue[i].letter == l
  }

  predicate HasGone(gone: seq<Gone>, l: Letter) {
    exists i :: 0 <= i < |gone| && gone[i].entry.letter == l
  }

  lemma HasGoneAppend(a: seq<Gone>, b: seq<Gone>, l: Letter)
    requires HasGone(a + b, l)
    ensures HasGone(a, l) || HasGone(b, l)
  {
    var i :| 0 <= i < |a + b| && (a + b)[i].entry.letter == l;
    if i < |a| {
      assert a[i].entry.letter == l;
    } else {
      assert b[i - |a|].entry.letter == l;
    }
  }

  lemma EnqueuedLetters(g: Ledger, letter: Letter, l: Letter)
    requires HasLetter(Enqueue(g, letter), l)
    ensures HasLetter(g, l) || l == letter
  {
  }

  lemma {:induction false} SentLetters(g: Ledger, alert: Alert, attempts: seq<Attempt>, l: Letter)
    requires HasLetter(SendAll(g, alert, attempts), l)
    ensures HasLetter(g, l) || exists j :: 0 <= j < |attempts| && TellsOf(l, alert, attempts[j])
  {
    if attempts != [] {
      var n := |attempts| - 1;
      if !attempts[n].sent.Delivered? {
        EnqueuedLetters(SendAll(g, alert, attempts[..n]), NewLetter(alert, attempts[n]), l);
      }
      if HasLetter(SendAll(g, alert, attempts[..n]), l) {
        SentLetters(g, alert, attempts[..n], l);
      }
    }
  }

  /** What a pass does with the entry at position `i`, exactly: it expires when it is spent; otherwise,
      when its channel is there and delivers, it is gone; otherwise it stays with one retry more. */
  lemma {:induction false} PassIsExact(queue: seq<Tracked>, known: set<string>, results: seq<Sent>, i: nat)
    requires i < |queue|
    ensures var s, t := Sweep(queue, known, results), queue[i];
            var spent := t.letter.retries >= 3;
            var delivers := t.letter.channel in known && i < |results| && results[i].Delivered?;
            var later := t.letter.(retries := t.letter.retries + 1);
            && (spent ==> Gone(t, Expired) in s.gone)
            && (!spent && delivers ==>
                  Gone(t.(letter := later, redeliveries := t.redeliveries + 1), Succeeded) in s.gone)
            && (!spent && !delivers ==>
                  t.(letter := later, redeliveries := t.redeliveries + (if t.letter.channel in known then 1 else 0)) in s.kept)
  {
    var n := |queue| - 1;
    if i < n {
      PassIsExact(queue[..n], known, results, i);
    }
  }

  lemma {:induction false} PassedLetters(queue: seq<Tracked>, known: set<string>, results: seq<Sent>, l: Letter)
    requires var s := Sweep(queue, known, results); Waits(s.kept, l) || HasGone(s.gone, l)
    ensures exists i :: 0 <= i < |queue| && l == queue[i].letter.(retries := l.retries)
  {
    if queue != [] {
      var n := |queue| - 1;
      var s := Sweep(queue[..n], known, results);
      if Waits(s.kept, l) || HasGone(s.gone, l) {
        PassedLetters(queue[..n], known, results, l);
        var i :| 0 <= i < n && l == queue[..n][i].letter.(retries := l.retries);
        assert l == queue[i].letter.(retries := l.retries);
      } else {
        RetriedLetters(s, queue[n], known, ResultAt(results, n), l);
      }
    }
  }

  lemma RetriedLetters(s: Swept, t: Tracked, known: set<string>, sent: Sent, l: Letter)
    requires var after := Retry(s, t, known, sent); Waits(after.kept, l) || HasGone(after.gone, l)
    requires !Waits(s.kept, l) && !HasGone(s.gone, l)
    ensures l == t.letter.(retries := l.retries)
  {
  }

  /** In every run every letter, waiting or gone, tells of an attempt of that run that was refused or
      raised: its alert, its channel and the reason, whatever passes came between. */
  lemma {:induction false} LettersTellOfFailures(ops: seq<Op>, l: Letter)
    requires HasLetter(Run(ops), l)
    ensures ComesFrom(ops, l)
  {
    if ops != [] {
      var before, op := ops[..|ops| - 1], ops[|ops| - 1];
      var g := Run(before);
      assert before + [op] == ops;
      match op
      case Send(alert, attempts) =>
        SentLetters(g, alert, attempts, l);
        if HasLetter(g, l) {
          LettersTellOfFailures(before, l);
          StillComesFrom(before, op, l, l.retries);
        } else {
          var j :| 0 <= j < |attempts| && TellsOf(l, alert, attempts[j]);
          assert IsSource(ops, l, |before|, j);
        }
      case RetryPass(known, results) =>
        var s := Sweep(g.queue, known, results);
        if HasGone(g.gone + s.gone, l) {
          HasGoneAppend(g.gone, s.gone, l);
        }
        if !HasLetter(g, l) {
          PassedLetters(g.queue, known, results, l);
          var i :| 0 <= i < |g.queue| && l == g.queue[i].letter.(retries := l.retries);
          LettersTellOfFailures(before, g.queue[i].letter);
          StillComesFrom(before, op, g.queue[i].letter, l.retries);
        } else {
          LettersTellOfFailures(before, l);
          StillComesFrom(before, op, l, l.retries);
        }
    }
  }

  // ---------------------------------------------------------------- draining

  /** Any number of passes in a row. */
  function Passes(g: Ledger, passes: seq<(set<string>, seq<Sent>)>): Ledger {
    if passes == [] then g
    else
      var n := |passes| - 1;
      PassOver(Passes(g, passes[..n]), passes[n].0, passes[n].1)
  }

  lemma {:induction false} CountsGrowWithPasses(g: Ledger, passes: seq<(set<string>, seq<Sent>)>, i: nat)
    requires i < |Passes(g, passes).queue|
    ensures Passes(g, passes).queue[i].letter.retries >= |passes|
    ensures passes != [] ==> Passes(g, passes).queue[i].letter.retries <= MAX_RETRY_ATTEMPTS
  {
    if passes != [] {
      var n := |passes| - 1;
      var before := Passes(g, passes[..n]);
      var from := SurvivorsAreASubsequence(before.queue, passes[n].0, passes[n].1);
      CountsGrowWithPasses(g, passes[..n], from[i]);
    }
  }

  /** Four passes without new sends empty any queue, whatever the dispatchers do. */
  lemma FourPassesDrainTheQueue(g: Ledger, passes: seq<(set<string>, seq<Sent>)>)
    requires |passes| > MAX_RETRY_ATTEMPTS
    ensures Passes(g, passes).queue == []
  {
    if Passes(g, passes).queue != [] {
      CountsGrowWithPasses(g, passes, 0);
    }
  }

  lemma {:induction false} FailingPassKeepsAll(queue: seq<Tracked>, known: set<string>)
    requires forall i :: 0 <= i < |queue| ==> queue[i].letter.retries < MAX_RETRY_ATTEMPTS
    ensures var kept := Sweep(queue, known, []).kept;
            |kept| == |queue| && forall i :: 0 <= i < |kept| ==> kept[i].letter.retries == queue[i].letter.retries + 1
  {
    if queue != [] {
      FailingPassKeepsAll(queue[..|queue| - 1], known);
    }
  }

  /** Three are not always enough: with every send refused, fresh letters survive three passes. */
  lemma {:induction false} ThreePassesMayKeepEverything(g: Ledger, known: set<string>, n: nat)
    requires n <= MAX_RETRY_ATTEMPTS && forall i :: 0 <= i < |g.queue| ==> g.queue[i].letter.retries == 0
    ensures var after := Passes(g, seq(n, i => (known, []))).queue;
            |after| == |g.queue| && forall i :: 0 <= i < |after| ==> after[i].letter.retries == n
  {
    if n > 0 {
      var passes: seq<(set<string>, seq<Sent>)> := seq(n, i => (known, []));
      assert passes[..n - 1] == seq(n - 1, i => (known, []));
      ThreePassesMayKeepEverything(g, known, n - 1);
      FailingPassKeepsAll(Passes(g, passes[..n - 1]).queue, known);
    }
  }

  // ---------------------------------------------------------------- the object

  datatype PassReport = PassReport(retried: nat, succeeded: nat, failed: nat, expired: nat)

  class CompositeDispatcher {
    var deadLetters: seq<Letter>
    ghost var ledger: Ledger

    ghost predicate Valid()
      reads this
    {
      Shape(ledger) && deadLetters == Letters(ledger.queue)
    }

    constructor ()
      ensures Valid() && ledger == EMPTY
    {
      deadLetters, ledger := [], EMPTY;
    }

    method EnqueueDeadLetter(alert: Alert, channel: string, reason: string)
      requires Valid()
      modifies this
      ensures Valid() && ledger == Enqueue(old(ledger), Letter(alert, channel, reason, 0))
    {
      var letter := Letter(alert, channel, reason, 0);
      EnqueueKeepsShape(ledger, letter);
      if |deadLetters| >= MAX_DEAD_LETTERS {
        deadLetters := deadLetters[1..];
      }
      deadLetters := deadLetters + [letter];
      ledger := Enqueue(ledger, letter);
    }

    /** One dispatcher's turn. */
    method SendOne(alert: Alert, a: Attempt) returns (ok: bool)
      requires Valid()
      modifies this
      ensures Valid() && ok == a.sent.Delivered?
      ensures ledger == if ok then old(ledger) else Enqueue(old(ledger), NewLetter(alert, a))
    {
      match a.sent
      case Delivered =>
        return true;
      case Refused =>
        EnqueueDeadLetter(alert, a.channel, REFUSAL);
        return false;
      case Broke(error) =>
        EnqueueDeadLetter(alert, a.channel, error);
        return false;
    }

    /** `attempts` names the configured dispatchers in order and what each does with the alert. */
    method SendAlert(alert: Alert, attempts: seq<Attempt>) returns (success: bool)
      requires Valid()
      modifies this
      ensures Valid() && ledger == Step(old(ledger), Send(alert, attempts))
      ensures success <==> attempts == [] || exists i :: 0 <= i < |attempts| && attempts[i].sent.Delivered?
    {
      if attempts == [] {
        return true;
      }
      success := false;
      for i := 0 to |attempts|
        invariant Valid()
        invariant ledger == SendAll(old(ledger), alert, attempts[..i])
        invariant success == AnyDelivered(attempts[..i])
      {
        OneMoreAttempt(old(ledger), alert, attempts, i);
        var ok := SendOne(alert, attempts[i]);
        if ok {
          success := true;
        }
      }
      assert attempts[..|attempts|] == attempts;
      AnyDeliveredMeans(attempts);
    }

    /** `known` are the channel names of the configured dispatchers; `results[i]` is what the one for
        the entry at position `i` does if it is asked. */
    method RetryDeadLetters(known: set<string>, results: seq<Sent>) returns (report: PassReport)
      requires Valid()
      modifies this
      ensures Valid() && ledger == Step(old(ledger), RetryPass(known, results))
      ensures var s := Sweep(old(ledger).queue, known, results);
              report == PassReport(|old(deadLetters)|, CountGone(s.gone, Succeeded), |s.kept|, CountGone(s.gone, Expired))
    {
      PassKeepsShape(ledger, known, results);
      if deadLetters == [] {
        ledger := PassOver(ledger, known, results);
        return PassReport(0, 0, 0, 0);
      }
      var succeeded, expired, stillFailed := 0, 0, [];
      ghost var queue := ledger.queue;
      for i := 0 to |deadLetters|
        invariant ledger == old(ledger) && deadLetters == old(deadLetters)
        invariant var s := Sweep(queue[..i], known, results);
                  && stillFailed == Letters(s.kept)
                  && succeeded == CountGone(s.gone, Succeeded) && expired == CountGone(s.gone, Expired)
      {
        ghost var s := Sweep(queue[..i], known, results);
        SweepStep(queue, i, known, results);
        var entry := deadLetters[i];
        if entry.retries >= MAX_RETRY_ATTEMPTS {
          expired := expired + 1;
        } else if entry.channel !in known {
          stillFailed := stillFailed + [entry.(retries := entry.retries + 1)];
        } else if ResultAt(results, i) == Delivered {
          succeeded := succeeded + 1;
        } else {
          stillFailed := stillFailed + [entry.(retries := entry.retries + 1)];
        }
      }
      assert queue[..|queue|] == queue;
      report := PassReport(|deadLetters|, succeeded, |stillFailed|, expired);
      deadLetters := stillFailed;
      ledger := PassOver(ledger, known, results);
    }
  }

  lemma SweepStep(queue: seq<Tracked>, i: nat, known: set<string>, results: seq<Sent>)
    requires i < |queue|
    ensures var s, t := Sweep(queue[..i], known, results), Sweep(queue[..i + 1], known, results);
            var letter := queue[i].letter;
            if letter.retries >= MAX_RETRY_ATTEMPTS then
              Letters(t.kept) == Letters(s.kept)
              && CountGone(t.gone, Succeeded) == CountGone(s.gone, Succeeded)
              && CountGone(t.gone, Expired) == CountGone(s.gone, Expired) + 1
            else if letter.channel in known && ResultAt(results, i).Delivered? then
              Letters(t.kept) == Letters(s.kept)
              && CountGone(t.gone, Succeeded) == CountGone(s.gone, Succeeded) + 1
              && CountGone(t.gone, Expired) == CountGone(s.gone, Expired)
            else
              Letters(t.kept) == Letters(s.kept) + [letter.(retries := letter.retries + 1)] && t.gone == s.gone
  {
    assert queue[..i + 1][..i] == queue[..i];
    var s := Sweep(queue[..i], known, results);
    RetryCounts(s, queue[i], known, ResultAt(results, i), Succeeded);
    RetryCounts(s, queue[i], known, ResultAt(results, i), Expired);
  }
}
