/** When a dead letter can occur at all, and when retrying comes to an end: exactly when the type under which
    integer headers come back lets some attempt read the maximum number of retries. */
module DeadLetterReach {
  import opened Deliveries
  import opened Sums
  import opened MessageLifecycle
  import opened LifecycleInvariant
  import opened LifecycleSteps
  import opened LifecycleTheorems
  import opened LifecycleTermination

  ghost predicate Reaches(back: int -> HeaderValue, s: System, q: System) {
    exists es :: Legal(back, s, es) && Final(back, s, es) == q
  }

  /** From s, at least n steps on messages and no publication lead to q. */
  ghost predicate Works(back: int -> HeaderValue, s: System, q: System, n: nat) {
    exists es :: Legal(back, s, es) && Final(back, s, es) == q && NothingPublished(es) && n <= MessageSteps(es)
  }

  lemma {:induction false} MessageStepsAppend(es: seq<Event>, e: Event)
    ensures MessageSteps(es + [e]) == MessageSteps(es) + if MessageStep(e) then 1 else 0
  {
    if es == [] {
      assert es + [e] == [e];
    } else {
      assert (es + [e])[0] == es[0] && (es + [e])[1..] == es[1..] + [e];
      MessageStepsAppend(es[1..], e);
    }
  }

  lemma Go(back: int -> HeaderValue, s: System, q: System, e: Event, n: nat) returns (q': System)
    requires Works(back, s, q, n) && Enabled(q, e) && MessageStep(e)
    ensures Works(back, s, q', n + 1) && q' == Apply(back, q, e)
  {
    var es :| Legal(back, s, es) && Final(back, s, es) == q && NothingPublished(es) && n <= MessageSteps(es);
    q' := Apply(back, q, e);
    assert [e][1..] == [] && Legal(back, q', []) && Final(back, q', []) == q';
    assert Legal(back, q, [e]) && Final(back, q, [e]) == Final(back, q', [e][1..]);
    RunAppend(back, s, es, [e]);
    MessageStepsAppend(es, e);
  }

  /** One message waits in tenant t's queue, and nothing else is in flight. */
  predicate Lone(q: System, t: string, d: Delivery) {
    && q.flight == [Queued(QueueName(t), d)]
    && t in q.slots && 1 <= q.slots[t].cap == q.slots[t].tokens
  }

  lemma Started(back: int -> HeaderValue, s: System, q: System, t: string, d: Delivery, n: nat) returns (q': System)
    requires Works(back, s, q, n) && Lone(q, t, d)
    ensures Works(back, s, q', n + 2) && q'.flight == [Job(t, d.(headers := Wire(back, d.headers)), Begin)]
    ensures q'.dead == q.dead && t in q'.slots
    ensures 1 <= q'.slots[t].cap && q'.slots[t].tokens + 1 == q'.slots[t].cap
  {
    QueueNameInverse(t);
    var q1 := Go(back, s, q, Receive(0), n);
    q' := Go(back, s, q1, Take(0), n + 1);
  }

  lemma WorkOne(back: int -> HeaderValue, s: System, q: System, t: string, d: Delivery, pc: Pc, n: nat) returns (q': System)
    requires Works(back, s, q, n) && q.flight == [Job(t, d, pc)] && t in q.slots
    requires pc in {Begin, Run, LogFailed}
    ensures Works(back, s, q', n + 1) && q'.flight == [Job(t, d, NextPc(Job(t, d, pc), StoreError))]
    ensures q'.dead == q.dead && q'.slots == q.slots
  {
    q' := Go(back, s, q, Work(0, StoreError, 0), n);
  }

  lemma FailedToRoute(back: int -> HeaderValue, s: System, q: System, t: string, d: Delivery, n: nat) returns (q': System)
    requires Works(back, s, q, n) && q.flight == [Job(t, d, Begin)] && t in q.slots
    ensures Works(back, s, q', n + 3)
    ensures q'.flight == [Job(t, d, Route)] && q'.dead == q.dead && q'.slots == q.slots
  {
    var q1 := WorkOne(back, s, q, t, d, Begin, n);
    var q2 := WorkOne(back, s, q1, t, d, Run, n + 1);
    q' := WorkOne(back, s, q2, t, d, LogFailed, n + 2);
  }

  lemma Rerouted(back: int -> HeaderValue, s: System, q: System, t: string, d: Delivery, n: nat) returns (q': System)
    requires Works(back, s, q, n) && q.flight == [Job(t, d, Route)] && t in q.slots
    requires RetryCount(d.headers) < MAX_RETRIES
    ensures Works(back, s, q', n + 1) && q'.slots == q.slots
    ensures q'.flight == [Job(t, d, Ack), Again(Job(t, d, Route), 0)]
  {
    q' := Go(back, s, q, Work(0, StoreError, 0), n);
  }

  lemma Acknowledged(back: int -> HeaderValue, s: System, q: System, t: string, d: Delivery, x: Item, n: nat) returns (q': System)
    requires Works(back, s, q, n) && q.flight == [Job(t, d, Ack), x] && t in q.slots && q.slots[t].tokens < q.slots[t].cap
    ensures Works(back, s, q', n + 2) && q'.flight == [x] && t in q'.slots
    ensures q'.slots[t] == q.slots[t].(tokens := q.slots[t].tokens + 1)
  {
    var q1 := Go(back, s, q, Work(0, StoreError, 0), n);
    assert q1.flight == [Job(t, d, GiveBack), x];
    q' := Go(back, s, q1, Work(0, StoreError, 0), n + 1);
  }

  /** The lone message is tried and fails. */
  lemma FailedAttempt(back: int -> HeaderValue, s: System, q: System, t: string, d: Delivery, n: nat) returns (q': System)
    requires Works(back, s, q, n) && Lone(q, t, d) && RetryCount(Wire(back, d.headers)) < MAX_RETRIES
    ensures var it := Job(t, d.(headers := Wire(back, d.headers)), Route);
            Works(back, s, q', n + 6) && q'.flight == [it.(pc := Ack), Again(it, 0)]
    ensures t in q'.slots && 1 <= q'.slots[t].cap && q'.slots[t].tokens + 1 == q'.slots[t].cap
  {
    var w := d.(headers := Wire(back, d.headers));
    var q1 := Started(back, s, q, t, d, n);
    var q2 := FailedToRoute(back, s, q1, t, w, n + 2);
    q' := Rerouted(back, s, q2, t, w, n + 5);
  }

  /** It is back in its queue after the delay. */
  lemma FailedOnce(back: int -> HeaderValue, s: System, q: System, t: string, d: Delivery, n: nat)
    returns (q': System, d': Delivery)
    requires Works(back, s, q, n) && Lone(q, t, d) && RetryCount(Wire(back, d.headers)) < MAX_RETRIES
    ensures Works(back, s, q', n + 9) && Lone(q', t, d')
    ensures RetryCount(Wire(back, d'.headers)) == NextRead(back, RetryCount(Wire(back, d.headers)))
  {
    var it := Job(t, d.(headers := Wire(back, d.headers)), Route);
    var q1 := FailedAttempt(back, s, q, t, d, n);
    var q2 := Acknowledged(back, s, q1, t, it.d, Again(it, 0), n + 6);
    q' := Go(back, s, q2, Fire(0), n + 8);
    d' := Again(it, 0).d;
    RequeueReads(back, it, 0);
  }

  /** As long as every attempt reads a count below the maximum, a message can go on failing, with nine steps
      each time. */
  lemma {:induction false} FailTimes(back: int -> HeaderValue, s: System, t: string, d: Delivery, j: nat)
    returns (q: System, d': Delivery)
    requires Lone(s, t, d) && RetryCount(Wire(back, d.headers)) == ReadAt(back, 0) && Tried(back, j)
    ensures Works(back, s, q, 9 * j) && Lone(q, t, d') && RetryCount(Wire(back, d'.headers)) == ReadAt(back, j)
  {
    if j == 0 {
      assert Legal(back, s, []) && Final(back, s, []) == s && NothingPublished([]) && MessageSteps([]) == 0;
      q, d' := s, d;
    } else {
      var q1, d1 := FailTimes(back, s, t, d, j - 1);
      q, d' := FailedOnce(back, s, q1, t, d1, 9 * (j - 1));
    }
  }

  lemma {:induction false} LeastRead(back: int -> HeaderValue, j: nat) returns (k: nat)
    requires MAX_RETRIES <= ReadAt(back, j)
    ensures MAX_RETRIES <= ReadAt(back, k) && Tried(back, k)
  {
    k := j;
    if i: nat :| i < j && MAX_RETRIES <= ReadAt(back, i) {
      k := LeastRead(back, i);
    }
  }

  function FirstPublish(t: string): Event {
    Publish(t, "m", "{}", 0, 0, None, true)
  }

  /** A first message is published. */
  lemma PublishedFirst(back: int -> HeaderValue, s: System, t: string) returns (q: System, d: Delivery)
    requires Init(s) && t in s.slots
    ensures Enabled(s, FirstPublish(t)) && q == Apply(back, s, FirstPublish(t))
    ensures Lone(q, t, d) && RetryCount(Wire(back, d.headers)) == ReadAt(back, 0)
  {
    q := Apply(back, s, FirstPublish(t));
    d := q.flight[0].d;
    PublishedTexts(t, "m", 0, 0, None);
  }

  lemma ThenWorks(back: int -> HeaderValue, s: System, e: Event, q: System, n: nat)
    requires Enabled(s, e) && Works(back, Apply(back, s, e), q, n)
    ensures Reaches(back, s, q)
  {
    var es :| Legal(back, Apply(back, s, e), es) && Final(back, Apply(back, s, e), es) == q;
    assert ([e] + es)[1..] == es;
    assert Legal(back, s, [e] + es) && Final(back, s, [e] + es) == q;
  }

  lemma DeadLettered(back: int -> HeaderValue, s: System, t: string, j: nat) returns (q: System)
    requires Init(s) && t in s.slots && MAX_RETRIES <= ReadAt(back, j)
    ensures Reaches(back, s, q) && q.dead != []
  {
    var k := LeastRead(back, j);
    var s1, d0 := PublishedFirst(back, s, t);
    var q0, d := FailTimes(back, s1, t, d0, k);
    var w := d.(headers := Wire(back, d.headers));
    var q1 := Started(back, s1, q0, t, d, 9 * k);
    var q2 := FailedToRoute(back, s1, q1, t, w, 9 * k + 2);
    q := Go(back, s1, q2, Work(0, StoreError, 0), 9 * k + 5);
    ThenWorks(back, s, FirstPublish(t), q, 9 * k + 6);
  }

  /** Some attempt of a message reads the maximum. */
  ghost predicate SomeReadReaches(back: int -> HeaderValue) {
    exists j: nat :: MAX_RETRIES <= ReadAt(back, j)
  }

  /** The exact condition, whatever the broker does to integer headers: with any consumer at all, a dead
      letter is reachable if and only if some attempt of a message reads the maximum retry count. */
  lemma DeadLettersExactly(back: int -> HeaderValue, s: System, t: string)
    requires Init(s) && t in s.slots
    ensures (exists q :: Reaches(back, s, q) && q.dead != []) <==> SomeReadReaches(back)
  {
    if q :| Reaches(back, s, q) && q.dead != [] {
      var es :| Legal(back, s, es) && Final(back, s, es) == q;
      var j := DeadNeedsThree(back, s, es);
    }
    if j: nat :| MAX_RETRIES <= ReadAt(back, j) {
      var q := DeadLettered(back, s, t, j);
    }
  }

  // ---- When retrying ends ----

  /** From q, the steps on messages are bounded once nothing is published any more. */
  ghost predicate Ends(back: int -> HeaderValue, q: System) {
    exists b: nat :: BoundedBy(back, q, b)
  }

  ghost predicate BoundedBy(back: int -> HeaderValue, q: System, b: nat) {
    forall es :: Legal(back, q, es) && NothingPublished(es) ==> MessageSteps(es) <= b
  }

  /** After any run they are. */
  ghost predicate RetryingEnds(back: int -> HeaderValue, s: System) {
    forall q :: Reaches(back, s, q) ==> Ends(back, q)
  }

  lemma ReachedEnds(back: int -> HeaderValue, k: nat, s: System, q: System)
    requires Init(s) && Reaches(back, s, q) && MAX_RETRIES <= ReadAt(back, k)
    ensures Ends(back, q)
  {
    var es :| Legal(back, s, es) && Final(back, s, es) == q;
    ReachedWithin(back, k, s, es);
    forall fs | Legal(back, q, fs) && NothingPublished(fs)
      ensures MessageSteps(fs) <= Measure(back, k, q)
    {
      RunsAreBounded(back, k, q, fs);
    }
    assert BoundedBy(back, q, Measure(back, k, q));
  }

  /** A message whose attempts never read the maximum can fail for ever. */
  lemma FailsForEver(back: int -> HeaderValue, s: System, t: string) returns (q: System)
    requires Init(s) && t in s.slots && !SomeReadReaches(back)
    ensures Reaches(back, s, q) && !Ends(back, q)
  {
    var d;
    q, d := PublishedFirst(back, s, t);
    assert Legal(back, q, []) && Final(back, q, []) == q && NothingPublished([]) && MessageSteps([]) == 0;
    assert Works(back, q, q, 0);
    ThenWorks(back, s, FirstPublish(t), q, 0);
    forall b: nat
      ensures !BoundedBy(back, q, b)
    {
      var q', d' := FailTimes(back, q, t, d, b + 1);
      var es :| Legal(back, q, es) && Final(back, q, es) == q' && NothingPublished(es) && 9 * (b + 1) <= MessageSteps(es);
    }
  }

  /** Retry termination, exactly, whatever the broker does to integer headers: after the last publication
      the steps on messages are bounded if and only if some attempt of a message reads the maximum retry
      count.  Otherwise a message can fail and be retried for ever. */
  lemma RetryingEndsExactly(back: int -> HeaderValue, s: System, t: string)
    requires Init(s) && t in s.slots
    ensures RetryingEnds(back, s) <==> SomeReadReaches(back)
  {
    if k: nat :| MAX_RETRIES <= ReadAt(back, k) {
      forall q | Reaches(back, s, q)
        ensures Ends(back, q)
      {
        ReachedEnds(back, k, s, q);
      }
    } else {
      var q := FailsForEver(back, s, t);
    }
  }

  /** So it ends when integers come back as `int`, and does not when they come back under another type. */
  lemma RetryingByType(back: int -> HeaderValue, s: System, t: string)
    requires Init(s) && t in s.slots
    ensures KeepsInt(back) ==> RetryingEnds(back, s)
    ensures LosesInt(back) ==> !RetryingEnds(back, s)
  {
    RetryingEndsExactly(back, s, t);
    if KeepsInt(back) {
      ReadAtKept(back, MAX_RETRIES);
    }
    if LosesInt(back) {
      forall j: nat
        ensures ReadAt(back, j) < MAX_RETRIES
      {
        ReadAtLost(back, j);
      }
    }
  }
}
