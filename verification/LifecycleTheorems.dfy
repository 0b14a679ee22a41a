/** What holds in every state that a run of the message life cycle reaches. */
module LifecycleTheorems {
  import opened Deliveries
  import opened Sums
  import opened MessageLifecycle
  import opened LifecycleInvariant
  import opened LifecycleSteps

  lemma Reached(back: int -> HeaderValue, s: System, es: seq<Event>)
    requires Init(s) && Legal(back, s, es)
    ensures Inv(back, Final(back, s, es))
  {
    InitInv(back, s);
    RunKeepsInv(back, s, es);
  }

  // ---- Conservation ----

  /** Event e is a publication of this message that reached the broker. */
  predicate Publishes(e: Event, key: Key, payload: string) {
    e.Publish? && e.sent && Key(e.tenant, e.id) == key && e.payload == payload
  }

  ghost predicate PublishedIn(es: seq<Event>, key: Key, payload: string) {
    exists n :: 0 <= n < |es| && Publishes(es[n], key, payload)
  }

  lemma PublishedInTail(es: seq<Event>, key: Key, payload: string)
    requires es != []
    ensures PublishedIn(es, key, payload) <==> Publishes(es[0], key, payload) || PublishedIn(es[1..], key, payload)
  {
    if PublishedIn(es, key, payload) && !Publishes(es[0], key, payload) {
      var n :| 0 <= n < |es| && Publishes(es[n], key, payload);
      assert es[1..][n - 1] == es[n];
    }
    if PublishedIn(es[1..], key, payload) {
      var n :| 0 <= n < |es[1..]| && Publishes(es[1..][n], key, payload);
      assert es[n + 1] == es[1..][n];
    }
  }

  lemma OnlyPublishPublishes(back: int -> HeaderValue, s: System, e: Event)
    requires Enabled(s, e) && !e.Publish?
    ensures Apply(back, s, e).published == s.published
  {
  }

  lemma PublishedStep(back: int -> HeaderValue, s: System, e: Event, key: Key)
    requires Recorded(s) && Enabled(s, e)
    ensures var s' := Apply(back, s, e);
            if e.Publish? && e.sent && Key(e.tenant, e.id) == key
            then key !in s.published && key in s'.published && s'.published[key] == e.payload
            else (key in s'.published <==> key in s.published)
                 && (key in s.published ==> s'.published[key] == s.published[key])
  {
    if !e.Publish? {
      OnlyPublishPublishes(back, s, e);
    }
  }

  /** What counts as published is exactly what the run's Publish calls delivered to the broker. */
  lemma {:induction false} PublishedExactly(back: int -> HeaderValue, s: System, es: seq<Event>, key: Key, payload: string)
    requires Inv(back, s) && Legal(back, s, es)
    ensures var q := Final(back, s, es);
            (key in q.published && q.published[key] == payload)
            <==> (key in s.published && s.published[key] == payload) || PublishedIn(es, key, payload)
    ensures key in s.published ==> !PublishedIn(es, key, payload)
    decreases |es|
  {
    if es != [] {
      StepKeepsInv(back, s, es[0]);
      PublishedStep(back, s, es[0], key);
      PublishedExactly(back, Apply(back, s, es[0]), es[1..], key, payload);
      PublishedInTail(es, key, payload);
    }
  }

  /** No message is published twice in a run. */
  lemma {:induction false} PublishedOnce(back: int -> HeaderValue, s: System, es: seq<Event>, i: nat, j: nat, key: Key, x: string, y: string)
    requires Inv(back, s) && Legal(back, s, es) && i < j < |es|
    requires Publishes(es[i], key, x)
    ensures !Publishes(es[j], key, y)
    decreases |es|
  {
    StepKeepsInv(back, s, es[0]);
    var s1 := Apply(back, s, es[0]);
    assert es[1..][j - 1] == es[j];
    if i == 0 {
      assert key in s1.published;
      PublishedExactly(back, s1, es[1..], key, y);
    } else {
      assert es[1..][i - 1] == es[i];
      PublishedOnce(back, s1, es[1..], i - 1, j - 1, key, x, y);
    }
  }

  /** Message conservation: after any interleaving each message that was published is in exactly one
      place (in flight, completed or dead-lettered) exactly once, and nothing else is anywhere. */
  lemma MessagesConserved(back: int -> HeaderValue, s: System, es: seq<Event>, key: Key)
    requires Init(s) && Legal(back, s, es)
    ensures var q := Final(back, s, es);
            InFlight(q, key) + CompletedTimes(q, key) + DeadTimes(q, key)
            == (if exists payload :: PublishedIn(es, key, payload) then 1 else 0)
  {
    Reached(back, s, es);
    InitInv(back, s);
    var q := Final(back, s, es);
    if key in q.published {
      PublishedExactly(back, s, es, key, q.published[key]);
    }
    if payload :| PublishedIn(es, key, payload) {
      PublishedExactly(back, s, es, key, payload);
    }
  }

  /** No two holders hold one message, so two attempts on it never overlap. */
  lemma AttemptsNeverOverlap(back: int -> HeaderValue, s: System, es: seq<Event>, i: nat, j: nat)
    requires Init(s) && Legal(back, s, es)
    requires i < |Final(back, s, es).flight| && j < |Final(back, s, es).flight| && i != j
    requires Holds(Final(back, s, es).flight[i]) && Holds(Final(back, s, es).flight[j])
    ensures KeyOf(Final(back, s, es).flight[i]) != KeyOf(Final(back, s, es).flight[j])
  {
    Reached(back, s, es);
    OnlyHolder(Final(back, s, es), i, j);
  }

  // ---- Identity and isolation ----

  /** Every holder carries the body, the id and the tenant that Publish was given, and is the queue or
      the consumer of that tenant. */
  lemma IdentityAndIsolation(back: int -> HeaderValue, s: System, es: seq<Event>, i: nat)
    requires Init(s) && Legal(back, s, es) && i < |Final(back, s, es).flight|
    requires Holds(Final(back, s, es).flight[i])
    ensures var it := Final(back, s, es).flight[i];
            var key := KeyOf(it);
            && PublishedIn(es, key, it.d.body)
            && "message_id" in it.d.headers && it.d.headers["message_id"] == Text(key.id)
            && "tenant_id" in it.d.headers && it.d.headers["tenant_id"] == Text(key.tenant)
            && (it.Queued? || it.Delayed? ==> it.queue == QueueName(key.tenant))
            && (it.Held? || it.Job? ==> it.tenant == key.tenant)
  {
    Reached(back, s, es);
    InitInv(back, s);
    var q := Final(back, s, es);
    var it := q.flight[i];
    assert it in q.flight;
    PublishedExactly(back, s, es, KeyOf(it), it.d.body);
  }

  // ---- The log rows of a message ----

  /** The log rows of a message after a failures and k requeues. */
  ghost predicate Story(back: int -> HeaderValue, q: System, key: Key, a: nat, k: nat, tail: seq<LogStatus>) {
    && LogsOf(q.logs, key) == Attempts(a) + tail && Failures(LogsOf(q.logs, key)) == a
    && Tried(back, k) && Waited(q, key) == Backoff(back, k)
    && tail <= [Started, Finished] && (a == k || (a == k + 1 && tail == []))
  }

  lemma HolderStory(back: int -> HeaderValue, q: System, it: Item) returns (a: nat, k: nat, tail: seq<LogStatus>)
    requires Sound(back, q, it) && Holds(it)
    ensures Story(back, q, KeyOf(it), a, k, tail)
  {
    a := Failures(LogsOf(q.logs, KeyOf(it)));
    k, tail := Requeues(it, a), Tail(it);
  }

  lemma DeadStory(back: int -> HeaderValue, q: System, r: DeadRow) returns (a: nat)
    requires SoundDead(back, q, r)
    ensures 1 <= a && Story(back, q, r.key, a, a - 1, [])
    ensures LogsOf(q.logs, r.key) == Attempts(a) && MAX_RETRIES <= ReadAt(back, a - 1) == r.retryCount
  {
    a := Failures(LogsOf(q.logs, r.key));
    assert Attempts(a) + [] == Attempts(a);
  }

  lemma FinishedStory(back: int -> HeaderValue, q: System, key: Key) returns (a: nat)
    requires SoundFinished(back, q, key)
    ensures Story(back, q, key, a, a, [Started, Finished])
  {
    a := Failures(LogsOf(q.logs, key));
  }

  lemma NoneStory(back: int -> HeaderValue, q: System, key: Key)
    requires Recorded(q) && key !in q.published
    ensures Story(back, q, key, 0, 0, [])
  {
    NoStory(q, key);
  }

  lemma InFlightStory(back: int -> HeaderValue, q: System, key: Key) returns (a: nat, k: nat, tail: seq<LogStatus>)
    requires forall it :: it in q.flight ==> Sound(back, q, it)
    requires 0 < InFlight(q, key)
    ensures Story(back, q, key, a, k, tail)
  {
    var i := SumWitness(q.flight, Holding(key));
    assert q.flight[i] in q.flight;
    a, k, tail := HolderStory(back, q, q.flight[i]);
  }

  lemma BuriedStory(back: int -> HeaderValue, q: System, key: Key) returns (a: nat, k: nat)
    requires forall r :: r in q.dead ==> SoundDead(back, q, r)
    requires 0 < DeadTimes(q, key)
    ensures Story(back, q, key, a, k, [])
  {
    var i := SumWitness(q.dead, Burying(key));
    assert q.dead[i] in q.dead;
    a := DeadStory(back, q, q.dead[i]);
    k := a - 1;
  }

  lemma StoryOf(back: int -> HeaderValue, q: System, key: Key) returns (a: nat, k: nat, tail: seq<LogStatus>)
    requires Inv(back, q)
    ensures Story(back, q, key, a, k, tail)
  {
    a, k, tail := 0, 0, [];
    if key !in q.published {
      NoneStory(back, q, key);
    } else if 0 < CompletedTimes(q, key) {
      a := FinishedStory(back, q, key);
      k, tail := a, [Started, Finished];
    } else if 0 < DeadTimes(q, key) {
      a, k := BuriedStory(back, q, key);
    } else {
      a, k, tail := InFlightStory(back, q, key);
    }
  }

  /** A prefix of (started failed)^k started completed with k at most the retry limit. */
  ghost predicate Succeeding(h: seq<LogStatus>) {
    exists k: nat :: k <= MAX_RETRIES && h <= Attempts(k) + [Started, Finished]
  }

  lemma TriedKept(back: int -> HeaderValue, a: nat)
    requires KeepsInt(back) && Tried(back, a)
    ensures a <= MAX_RETRIES
  {
    if MAX_RETRIES < a {
      ReadAtKept(back, MAX_RETRIES);
    }
  }

  /** With integer headers intact, the rows logged for a message are a prefix of three failed attempts
      at most and a successful one, or four failed attempts. */
  lemma LogTraceShape(back: int -> HeaderValue, s: System, es: seq<Event>, key: Key)
    requires KeepsInt(back) && Init(s) && Legal(back, s, es)
    ensures var h := LogsOf(Final(back, s, es).logs, key);
            Succeeding(h) || h == Attempts(MAX_RETRIES + 1)
  {
    Reached(back, s, es);
    var a, k, tail := StoryOf(back, Final(back, s, es), key);
    StoryShape(back, Final(back, s, es), key, a, k, tail);
  }

  lemma StoryShape(back: int -> HeaderValue, q: System, key: Key, a: nat, k: nat, tail: seq<LogStatus>)
    requires KeepsInt(back) && Story(back, q, key, a, k, tail)
    ensures var h := LogsOf(q.logs, key); Succeeding(h) || h == Attempts(MAX_RETRIES + 1)
  {
    TriedKept(back, k);
    if a <= MAX_RETRIES {
      assert Attempts(a) + tail <= Attempts(a) + [Started, Finished];
    } else {
      assert Attempts(a) + [] == Attempts(a);
    }
  }

  lemma DeadRowKept(back: int -> HeaderValue, q: System, r: DeadRow)
    requires KeepsInt(back) && SoundDead(back, q, r)
    ensures LogsOf(q.logs, r.key) == Attempts(MAX_RETRIES + 1) && r.retryCount == MAX_RETRIES && Waited(q, r.key) == 14
  {
    var a := DeadStory(back, q, r);
    TriedKept(back, a - 1);
    ReadAtKept(back, a - 1);
    BackoffKept(back, 3);
  }

  /** A dead-lettered message failed exactly four times, its row carries the published body and retry
      count 3, it waited 14 seconds in all, and it never completed. */
  lemma DeadLetterExact(back: int -> HeaderValue, s: System, es: seq<Event>, i: nat)
    requires KeepsInt(back) && Init(s) && Legal(back, s, es) && i < |Final(back, s, es).dead|
    ensures var q := Final(back, s, es);
            var r := q.dead[i];
            && LogsOf(q.logs, r.key) == Attempts(MAX_RETRIES + 1)
            && r.retryCount == MAX_RETRIES && PublishedIn(es, r.key, r.payload)
            && Waited(q, r.key) == 14
            && r.key in q.rows && !q.rows[r.key].status.Completed?
  {
    Reached(back, s, es);
    InitInv(back, s);
    var q := Final(back, s, es);
    var r := q.dead[i];
    assert r in q.dead;
    DeadRowKept(back, q, r);
    PublishedExactly(back, s, es, r.key, r.payload);
  }

  /** Whatever the broker does to integer headers, a dead-letter row carries the key and the body given to
      Publish, and the count that the last of its failed attempts read, which is the first to reach the
      maximum. */
  lemma DeadLetterIdentity(back: int -> HeaderValue, s: System, es: seq<Event>, i: nat) returns (a: nat)
    requires Init(s) && Legal(back, s, es) && i < |Final(back, s, es).dead|
    ensures var q := Final(back, s, es);
            var r := q.dead[i];
            && PublishedIn(es, r.key, r.payload)
            && 1 <= a && LogsOf(q.logs, r.key) == Attempts(a)
            && MAX_RETRIES <= ReadAt(back, a - 1) == r.retryCount
            && (forall j: nat :: j < a - 1 ==> ReadAt(back, j) < MAX_RETRIES)
  {
    Reached(back, s, es);
    InitInv(back, s);
    var q := Final(back, s, es);
    var r := q.dead[i];
    assert r in q.dead;
    a := DeadStory(back, q, r);
    PublishedExactly(back, s, es, r.key, r.payload);
  }

  /** The total backoff of a message is that of its requeues, k(k+1)(2k+1)/6 seconds for k of them, and
      so 14 seconds at most. */
  lemma BackoffBounded(back: int -> HeaderValue, s: System, es: seq<Event>, key: Key) returns (k: nat)
    requires KeepsInt(back) && Init(s) && Legal(back, s, es)
    ensures k <= MAX_RETRIES && k <= Failures(LogsOf(Final(back, s, es).logs, key)) <= k + 1
    ensures 6 * Waited(Final(back, s, es), key) == k * (k + 1) * (2 * k + 1)
    ensures Waited(Final(back, s, es), key) <= 14
  {
    Reached(back, s, es);
    var a, n, tail := StoryOf(back, Final(back, s, es), key);
    StoryBackoff(back, Final(back, s, es), key, a, n, tail);
    k := n;
  }

  lemma StoryBackoff(back: int -> HeaderValue, q: System, key: Key, a: nat, k: nat, tail: seq<LogStatus>)
    requires KeepsInt(back) && Story(back, q, key, a, k, tail)
    ensures k <= MAX_RETRIES && k <= Failures(LogsOf(q.logs, key)) <= k + 1
    ensures 6 * Waited(q, key) == k * (k + 1) * (2 * k + 1) && Waited(q, key) <= 14
  {
    TriedKept(back, k);
    BackoffKept(back, k);
    assert k == 0 || k == 1 || k == 2 || k == 3;
  }

  // ---- When integers do not come back as int ----

  /** A dead letter takes an attempt that read the maximum number of retries. */
  lemma DeadNeedsThree(back: int -> HeaderValue, s: System, es: seq<Event>) returns (j: nat)
    requires Init(s) && Legal(back, s, es) && Final(back, s, es).dead != []
    ensures MAX_RETRIES <= ReadAt(back, j)
  {
    Reached(back, s, es);
    var q := Final(back, s, es);
    assert q.dead[0] in q.dead;
    j := DeadReads(back, q);
  }

  lemma DeadReads(back: int -> HeaderValue, q: System) returns (j: nat)
    requires q.dead != [] && SoundDead(back, q, q.dead[0])
    ensures MAX_RETRIES <= ReadAt(back, j)
  {
    var a := DeadStory(back, q, q.dead[0]);
    j := a - 1;
  }

  /** If integer headers come back under any other type, every delivery reads retry count 0, the
      header written is never above 1, and nothing is ever dead-lettered. */
  lemma HeaderDichotomy(back: int -> HeaderValue, s: System, es: seq<Event>)
    requires LosesInt(back) && Init(s) && Legal(back, s, es)
    ensures var q := Final(back, s, es);
            && q.dead == []
            && (forall it :: it in q.flight && Holds(it) && (it.Held? || it.Job?) ==> RetryCount(it.d.headers) == 0)
            && (forall it :: it in q.flight && (it.Queued? || it.Delayed?) && "retry_count" in it.d.headers
                  ==> it.d.headers["retry_count"] == GoInt(1))
  {
    Reached(back, s, es);
    var q := Final(back, s, es);
    if q.dead != [] {
      var j := DeadNeedsThree(back, s, es);
      ReadAtLost(back, j);
    }
    forall it | it in q.flight && Holds(it)
      ensures it.Held? || it.Job? ==> RetryCount(it.d.headers) == 0
      ensures (it.Queued? || it.Delayed?) && "retry_count" in it.d.headers ==> it.d.headers["retry_count"] == GoInt(1)
    {
      HolderReadsZero(back, q, it);
    }
  }

  lemma HolderReadsZero(back: int -> HeaderValue, q: System, it: Item)
    requires LosesInt(back) && Sound(back, q, it) && Holds(it)
    ensures it.Held? || it.Job? ==> RetryCount(it.d.headers) == 0
    ensures (it.Queued? || it.Delayed?) && "retry_count" in it.d.headers ==> it.d.headers["retry_count"] == GoInt(1)
  {
    var a := Failures(LogsOf(q.logs, KeyOf(it)));
    ReadAtLost(back, a);
    if 0 < a {
      ReadAtLost(back, a - 1);
    }
  }

  // ---- The status column ----

  function Rank(st: Status): nat {
    match st
    case Pending => 0
    case Processing => 1
    case Completed => 2
  }

  predicate Advances(r: Row, r': Row) {
    && r'.payload == r.payload && Rank(r.status) <= Rank(r'.status)
    && (r.status.Completed? ==> r' == r)
  }

  lemma StatusWork(back: int -> HeaderValue, s: System, i: nat, outcome: Outcome, now: int, key: Key)
    requires Enabled(s, Work(i, outcome, now)) && Sound(back, s, s.flight[i]) && key in s.rows
    ensures var s' := Apply(back, s, Work(i, outcome, now));
            key in s'.rows && Advances(s.rows[key], s'.rows[key])
  {
    if !s.flight[i].pc.Run? && !s.flight[i].pc.MarkCompleted? {
      assert Apply(back, s, Work(i, outcome, now)).rows == s.rows;
    }
  }

  lemma StatusStep(back: int -> HeaderValue, s: System, e: Event, key: Key)
    requires Enabled(s, e) && key in s.rows
    requires e.Work? ==> Sound(back, s, s.flight[e.i])
    ensures var s' := Apply(back, s, e);
            key in s'.rows && Advances(s.rows[key], s'.rows[key])
  {
    if e.Work? {
      StatusWork(back, s, e.i, e.outcome, e.now, key);
    }
  }

  ghost predicate RowsAdvance(s: System, s': System) {
    forall key :: key in s.rows ==> key in s'.rows && Advances(s.rows[key], s'.rows[key])
  }

  lemma AdvanceStep(back: int -> HeaderValue, s: System, e: Event)
    requires Inv(back, s) && Enabled(s, e)
    ensures RowsAdvance(s, Apply(back, s, e))
  {
    assert e.Work? ==> s.flight[e.i] in s.flight;
    forall key | key in s.rows
      ensures key in Apply(back, s, e).rows && Advances(s.rows[key], Apply(back, s, e).rows[key])
    {
      StatusStep(back, s, e, key);
    }
  }

  lemma AdvanceTransitive(s0: System, s1: System, s2: System)
    requires RowsAdvance(s0, s1) && RowsAdvance(s1, s2)
    ensures RowsAdvance(s0, s2)
  {
  }

  /** A row only moves from pending to processing to completed, and completed is final: from any
      reached state on (each satisfies Inv), over any further run. */
  lemma {:induction false} RowsAdvanceOverRun(back: int -> HeaderValue, s: System, es: seq<Event>)
    requires Inv(back, s) && Legal(back, s, es)
    ensures RowsAdvance(s, Final(back, s, es))
    decreases |es|
  {
    if es != [] {
      AdvanceStep(back, s, es[0]);
      StepKeepsInv(back, s, es[0]);
      RowsAdvanceOverRun(back, Apply(back, s, es[0]), es[1..]);
      AdvanceTransitive(s, Apply(back, s, es[0]), Final(back, s, es));
    }
  }

  /** A completed log row stands for a completed status, a dead letter for one that is not, and no
      message has both. */
  lemma OutcomesAgree(back: int -> HeaderValue, s: System, es: seq<Event>, key: Key)
    requires Init(s) && Legal(back, s, es)
    ensures var q := Final(back, s, es);
            && (0 < CompletedTimes(q, key) ==> key in q.rows && q.rows[key].status.Completed?)
            && (0 < DeadTimes(q, key) ==> key in q.rows && !q.rows[key].status.Completed?)
            && CompletedTimes(q, key) + DeadTimes(q, key) <= 1
  {
    Reached(back, s, es);
    var q := Final(back, s, es);
    assert InFlight(q, key) + CompletedTimes(q, key) + DeadTimes(q, key) <= 1;
    if 0 < DeadTimes(q, key) {
      var i := SumWitness(q.dead, Burying(key));
      assert SoundDead(back, q, q.dead[i]);
    }
  }
}
