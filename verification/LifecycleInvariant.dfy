/** What every step of the message life cycle keeps: no message is lost or duplicated, and the log
    table, the status column and the retry header of each message tell the same story. */
module LifecycleInvariant {
  import opened Deliveries
  import opened Sums
  import opened MessageLifecycle
  import W = WorkerPool

  // ---- Counting where a message is ----

  /** After the requeue, the dead-letter insert or the last log row a goroutine no longer
      holds its message; it only acknowledges and gives back its token. */
  predicate Holds(it: Item) {
    it.Job? ==> !it.pc.Ack? && !it.pc.GiveBack?
  }

  function Holding(key: Key): Item -> nat {
    (it: Item) => if Holds(it) && KeyOf(it) == key then 1 else 0
  }

  function Completing(key: Key): LogRow -> nat {
    (r: LogRow) => if r.key == key && r.status.Finished? then 1 else 0
  }

  function Burying(key: Key): DeadRow -> nat {
    (r: DeadRow) => if r.key == key then 1 else 0
  }

  function SecondsFor(key: Key): Wait -> nat {
    (w: Wait) => if w.key == key then w.seconds else 0
  }

  function InFlight(s: System, key: Key): nat {
    Sum(s.flight, Holding(key))
  }

  function CompletedTimes(s: System, key: Key): nat {
    Sum(s.logs, Completing(key))
  }

  function DeadTimes(s: System, key: Key): nat {
    Sum(s.dead, Burying(key))
  }

  function Waited(s: System, key: Key): nat {
    Sum(s.waits, SecondsFor(key))
  }

  /** Each published message is in exactly one place, exactly once; any other message is nowhere. */
  ghost predicate Conserved(s: System) {
    forall key :: InFlight(s, key) + CompletedTimes(s, key) + DeadTimes(s, key)
                  == (if key in s.published then 1 else 0)
  }

  // ---- The log rows of one message ----

  function LogsOf(logs: seq<LogRow>, key: Key): seq<LogStatus> {
    if logs == [] then []
    else
      var n := |logs| - 1;
      LogsOf(logs[..n], key) + (if logs[n].key == key then [logs[n].status] else [])
  }

  function Failures(h: seq<LogStatus>): nat {
    if h == [] then 0
    else Failures(h[..|h| - 1]) + (if h[|h| - 1].Failed? then 1 else 0)
  }

  /** The log rows of a failed attempts. */
  function Attempts(a: nat): seq<LogStatus> {
    if a == 0 then [] else Attempts(a - 1) + [Started, Failed]
  }

  lemma LogsSnoc(logs: seq<LogRow>, r: LogRow, key: Key)
    ensures LogsOf(logs + [r], key) == LogsOf(logs, key) + (if r.key == key then [r.status] else [])
  {
    assert (logs + [r])[..|logs|] == logs;
  }

  lemma FailuresSnoc(h: seq<LogStatus>, x: LogStatus)
    ensures Failures(h + [x]) == Failures(h) + (if x.Failed? then 1 else 0)
  {
    assert (h + [x])[..|h|] == h;
  }

  // ---- The story of one message ----

  /** The first a attempts all read a retry count below the maximum. */
  ghost predicate Tried(back: int -> HeaderValue, a: nat) {
    forall j: nat :: j < a ==> ReadAt(back, j) < MAX_RETRIES
  }

  /** The retry header of a message that waits in the broker after a failures. */
  predicate Carries(back: int -> HeaderValue, h: Headers, a: nat) {
    if a == 0 then "retry_count" !in h
    else "retry_count" in h && h["retry_count"] == GoInt(ReadAt(back, a - 1) + 1)
  }

  /** The rows of the attempt that a holder is in the middle of. */
  function Tail(it: Item): seq<LogStatus> {
    if it.Job? && it.pc in {Run, LogFailed, MarkCompleted, LogCompleted} then [Started] else []
  }

  /** The requeues behind a failures: a job that has logged its failure has yet to route it. */
  function Requeues(it: Item, a: nat): nat {
    if it.Job? && it.pc.Route? && 0 < a then a - 1 else a
  }

  /** How the log rows, the row's status, the total backoff and the headers fit the place where a
      message is. */
  ghost predicate Fits(back: int -> HeaderValue, h: seq<LogStatus>, status: Status, waited: nat, it: Item) {
    var a := Failures(h);
    var k := Requeues(it, a);
    && h == Attempts(a) + Tail(it)
    && Tried(back, k) && waited == Backoff(back, k)
    && (status.Completed? <==> it.Job? && it.pc.LogCompleted?)
    && match it
       case Queued(_, d) => Carries(back, d.headers, a)
       case Delayed(_, d, seconds) =>
         Carries(back, d.headers, a) && 1 <= a && seconds == Square(ReadAt(back, a - 1) + 1)
       case Held(_, d) => RetryCount(d.headers) == ReadAt(back, k)
       case Job(_, d, pc) =>
         && RetryCount(d.headers) == ReadAt(back, k)
         && (pc.Route? ==> 1 <= a)
         && (pc.MarkCompleted? ==> status.Processing?)
  }

  /** A delivery is where its tenant's consumer and queue are. */
  predicate Placed(s: System, it: Item) {
    var t := TenantOf(it);
    && t in s.slots
    && (it.Queued? || it.Delayed? ==> it.queue == QueueName(t))
  }

  /** Body, id and tenant of a delivery are those given to Publish. */
  predicate Genuine(s: System, it: Item) {
    var key := KeyOf(it);
    && key in s.published && it.d.body == s.published[key]
    && "message_id" in it.d.headers && it.d.headers["message_id"] == Text(key.id)
    && "tenant_id" in it.d.headers && it.d.headers["tenant_id"] == Text(key.tenant)
  }

  ghost predicate Sound(back: int -> HeaderValue, s: System, it: Item) {
    var key := KeyOf(it);
    && Placed(s, it)
    && (Holds(it) ==>
          && Genuine(s, it) && key in s.rows
          && Fits(back, LogsOf(s.logs, key), s.rows[key].status, Waited(s, key), it))
  }

  ghost predicate SoundDead(back: int -> HeaderValue, s: System, r: DeadRow) {
    var h := LogsOf(s.logs, r.key);
    var a := Failures(h);
    && r.key in s.published && r.payload == s.published[r.key]
    && r.key in s.rows && !s.rows[r.key].status.Completed?
    && 1 <= a && h == Attempts(a) && Tried(back, a - 1) && Waited(s, r.key) == Backoff(back, a - 1)
    && MAX_RETRIES <= ReadAt(back, a - 1) == r.retryCount
  }

  ghost predicate SoundFinished(back: int -> HeaderValue, s: System, key: Key) {
    var h := LogsOf(s.logs, key);
    var a := Failures(h);
    && key in s.rows && s.rows[key].status.Completed?
    && h == Attempts(a) + [Started, Finished] && Tried(back, a) && Waited(s, key) == Backoff(back, a)
  }

  ghost predicate Recorded(s: System) {
    && (forall key :: key in s.published ==> key in s.rows && s.rows[key].payload == s.published[key])
    && (forall i :: 0 <= i < |s.logs| ==> s.logs[i].key in s.published)
    && (forall i :: 0 <= i < |s.waits| ==> s.waits[i].key in s.published)
  }

  ghost predicate Inv(back: int -> HeaderValue, s: System) {
    && Conserved(s)
    && Recorded(s)
    && (forall it :: it in s.flight ==> Sound(back, s, it))
    && (forall r :: r in s.dead ==> SoundDead(back, s, r))
    && (forall key :: 0 < CompletedTimes(s, key) ==> SoundFinished(back, s, key))
  }

  // ---- One step acts on one message ----

  /** Nothing recorded about a key changes, and its place is counted the same. */
  ghost predicate SameFor(s: System, s': System, key: Key) {
    && LogsOf(s'.logs, key) == LogsOf(s.logs, key)
    && Waited(s', key) == Waited(s, key)
    && CompletedTimes(s', key) == CompletedTimes(s, key)
    && (key in s.published <==> key in s'.published)
    && (key in s.published ==> s'.published[key] == s.published[key])
    && (key in s.rows ==> key in s'.rows && s'.rows[key] == s.rows[key])
  }

  lemma OnlyHolder(s: System, i: nat, j: nat)
    requires Conserved(s) && i < |s.flight| && j < |s.flight| && i != j
    requires Holds(s.flight[i]) && Holds(s.flight[j])
    ensures KeyOf(s.flight[i]) != KeyOf(s.flight[j])
  {
    var key := KeyOf(s.flight[i]);
    SumPair(s.flight, if i < j then i else j, if i < j then j else i, Holding(key));
    assert Holding(key)(s.flight[i]) == 1;
    assert InFlight(s, key) + CompletedTimes(s, key) + DeadTimes(s, key) <= 1;
  }

  /** A message in flight is neither completed nor dead. */
  lemma HolderExcludes(s: System, i: nat)
    requires Conserved(s) && i < |s.flight| && Holds(s.flight[i])
    ensures var key := KeyOf(s.flight[i]);
            key in s.published && InFlight(s, key) == 1 && CompletedTimes(s, key) == 0 && DeadTimes(s, key) == 0
    ensures forall r :: r in s.dead ==> r.key != KeyOf(s.flight[i])
  {
    var key := KeyOf(s.flight[i]);
    SumMember(s.flight, i, Holding(key));
    assert InFlight(s, key) + CompletedTimes(s, key) + DeadTimes(s, key) <= 1;
    forall r | r in s.dead
      ensures r.key != key
    {
      var k :| 0 <= k < |s.dead| && s.dead[k] == r;
      SumMember(s.dead, k, Burying(key));
    }
  }

  lemma SoundSame(back: int -> HeaderValue, s: System, s': System, it: Item)
    requires Sound(back, s, it) && s'.slots.Keys == s.slots.Keys
    requires Holds(it) ==> SameFor(s, s', KeyOf(it))
    ensures Sound(back, s', it)
  {
  }

  lemma SoundDeadSame(back: int -> HeaderValue, s: System, s': System, r: DeadRow)
    requires SoundDead(back, s, r) && SameFor(s, s', r.key)
    ensures SoundDead(back, s', r)
  {
  }

  lemma SoundFinishedSame(back: int -> HeaderValue, s: System, s': System, key: Key)
    requires SoundFinished(back, s, key) && SameFor(s, s', key)
    ensures SoundFinished(back, s', key)
  {
  }

  lemma KeepItem(back: int -> HeaderValue, s: System, s': System, i: nat, it: Item)
    requires Conserved(s) && i < |s.flight| && Holds(s.flight[i])
    requires it in Without(s.flight, i) && Sound(back, s, it)
    requires s'.slots.Keys == s.slots.Keys
    requires forall k :: k != KeyOf(s.flight[i]) ==> SameFor(s, s', k)
    ensures Sound(back, s', it)
  {
    if Holds(it) {
      var w :| 0 <= w < |Without(s.flight, i)| && Without(s.flight, i)[w] == it;
      var o := if w < i then w else w + 1;
      assert s.flight[o] == it;
      OnlyHolder(s, i, o);
    }
    SoundSame(back, s, s', it);
  }

  lemma KeepDead(back: int -> HeaderValue, s: System, s': System, i: nat, r: DeadRow)
    requires Conserved(s) && i < |s.flight| && Holds(s.flight[i])
    requires r in s.dead && SoundDead(back, s, r)
    requires forall k :: k != KeyOf(s.flight[i]) ==> SameFor(s, s', k)
    ensures SoundDead(back, s', r)
  {
    HolderExcludes(s, i);
    assert SameFor(s, s', r.key);
    SoundDeadSame(back, s, s', r);
  }

  lemma KeepFinished(back: int -> HeaderValue, s: System, s': System, key: Key)
    requires 0 < CompletedTimes(s, key) ==> SoundFinished(back, s, key)
    requires SameFor(s, s', key) && 0 < CompletedTimes(s', key)
    ensures SoundFinished(back, s', key)
  {
    SoundFinishedSame(back, s, s', key);
  }

  /** The step from s to s' touches the story of no message but the one that position i holds, counts
      every message as often as before, and the new story of that message fits. */
  ghost predicate Acts(back: int -> HeaderValue, s: System, s': System, i: nat) {
    && i < |s.flight| && Holds(s.flight[i])
    && var key := KeyOf(s.flight[i]);
       && s'.slots.Keys == s.slots.Keys && s'.published == s.published
       && (forall k :: k != key ==> SameFor(s, s', k))
       && (forall k :: InFlight(s', k) + CompletedTimes(s', k) + DeadTimes(s', k)
                       == InFlight(s, k) + CompletedTimes(s, k) + DeadTimes(s, k))
       && (key in s.rows ==> key in s'.rows && s'.rows[key].payload == s.rows[key].payload)
       && (forall r :: r in s'.logs ==> r in s.logs || r.key == key)
       && (forall w :: w in s'.waits ==> w in s.waits || w.key == key)
       && (forall it :: it in s'.flight ==> it in Without(s.flight, i) || Sound(back, s', it))
       && (forall r :: r in s'.dead ==> r in s.dead || SoundDead(back, s', r))
       && (0 < CompletedTimes(s', key) ==> SoundFinished(back, s', key))
  }

  lemma ActsRecorded(back: int -> HeaderValue, s: System, s': System, i: nat)
    requires Recorded(s) && Acts(back, s, s', i) && KeyOf(s.flight[i]) in s.published
    ensures Recorded(s')
  {
    forall k | k in s'.published
      ensures k in s'.rows && s'.rows[k].payload == s'.published[k]
    {
      if k != KeyOf(s.flight[i]) {
        assert SameFor(s, s', k);
      }
    }
    forall n | 0 <= n < |s'.logs|
      ensures s'.logs[n].key in s'.published
    {
      assert s'.logs[n] in s'.logs;
    }
    forall n | 0 <= n < |s'.waits|
      ensures s'.waits[n].key in s'.published
    {
      assert s'.waits[n] in s'.waits;
    }
  }

  lemma StepAt(back: int -> HeaderValue, s: System, s': System, i: nat)
    requires Inv(back, s) && Acts(back, s, s', i)
    ensures Inv(back, s')
  {
    HolderExcludes(s, i);
    ActsRecorded(back, s, s', i);
    forall it | it in s'.flight && it in Without(s.flight, i)
      ensures Sound(back, s', it)
    {
      KeepItem(back, s, s', i, it);
    }
    forall r | r in s'.dead && r in s.dead
      ensures SoundDead(back, s', r)
    {
      KeepDead(back, s, s', i, r);
    }
    forall k | k != KeyOf(s.flight[i]) && 0 < CompletedTimes(s', k)
      ensures SoundFinished(back, s', k)
    {
      KeepFinished(back, s, s', k);
    }
  }

  /** The step from s to s' touches no story that exists, and counts every message as often as it
      should. */
  ghost predicate Apart(back: int -> HeaderValue, s: System, s': System) {
    && s'.slots.Keys == s.slots.Keys && s'.dead == s.dead && s'.logs == s.logs && s'.waits == s.waits
    && (forall k :: k in s.published ==> k in s'.published && s'.published[k] == s.published[k])
    && (forall k :: k in s.published && k in s.rows ==> k in s'.rows && s'.rows[k] == s.rows[k])
    && (forall k :: k in s'.published && k !in s.published ==> k in s'.rows && s'.rows[k].payload == s'.published[k])
    && (forall k :: InFlight(s', k) - (if k in s'.published then 1 else 0)
                    == InFlight(s, k) - (if k in s.published then 1 else 0))
    && (forall it :: it in s'.flight ==> it in s.flight || Sound(back, s', it))
  }

  lemma SoundApart(back: int -> HeaderValue, s: System, s': System, it: Item)
    requires Apart(back, s, s') && Sound(back, s, it)
    ensures Sound(back, s', it)
  {
  }

  lemma SoundDeadApart(back: int -> HeaderValue, s: System, s': System, r: DeadRow)
    requires Apart(back, s, s') && SoundDead(back, s, r)
    ensures SoundDead(back, s', r)
  {
  }

  lemma SoundFinishedApart(back: int -> HeaderValue, s: System, s': System, key: Key)
    requires Apart(back, s, s') && SoundFinished(back, s, key) && key in s.published
    ensures SoundFinished(back, s', key)
  {
  }

  lemma StepApart(back: int -> HeaderValue, s: System, s': System)
    requires Inv(back, s) && Apart(back, s, s')
    ensures Inv(back, s')
  {
    forall it | it in s'.flight && it in s.flight
      ensures Sound(back, s', it)
    {
      SoundApart(back, s, s', it);
    }
    forall r | r in s'.dead
      ensures SoundDead(back, s', r)
    {
      SoundDeadApart(back, s, s', r);
    }
    forall k | 0 < CompletedTimes(s', k)
      ensures SoundFinished(back, s', k)
    {
      assert InFlight(s, k) + CompletedTimes(s, k) + DeadTimes(s, k) > 0;
      SoundFinishedApart(back, s, s', k);
    }
  }
}
