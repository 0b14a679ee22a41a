/** Each kind of step keeps the life-cycle invariant, hence every run does. */
module LifecycleSteps {
  import opened Deliveries
  import opened Sums
  import opened MessageLifecycle
  import opened LifecycleInvariant
  import W = WorkerPool

  // ---- How the counts follow the tables ----

  lemma MoveKeepsCounts(xs: seq<Item>, i: nat, x: Item)
    requires i < |xs| && KeyOf(x) == KeyOf(xs[i]) && Holds(x) == Holds(xs[i])
    ensures forall k :: Sum(xs[i := x], Holding(k)) == Sum(xs, Holding(k))
  {
    forall k
      ensures Sum(xs[i := x], Holding(k)) == Sum(xs, Holding(k))
    {
      SumUpdate(xs, i, x, Holding(k));
    }
  }

  /** A goroutine that lets go of its message. */
  lemma ReleaseCounts(xs: seq<Item>, i: nat, x: Item)
    requires i < |xs| && Holds(xs[i]) && !Holds(x)
    ensures forall k :: Sum(xs[i := x], Holding(k)) + (if k == KeyOf(xs[i]) then 1 else 0) == Sum(xs, Holding(k))
  {
    forall k
      ensures Sum(xs[i := x], Holding(k)) + (if k == KeyOf(xs[i]) then 1 else 0) == Sum(xs, Holding(k))
    {
      SumUpdate(xs, i, x, Holding(k));
    }
  }

  lemma ArrivalCounts(xs: seq<Item>, x: Item)
    requires Holds(x)
    ensures forall k :: Sum(xs + [x], Holding(k)) == Sum(xs, Holding(k)) + (if k == KeyOf(x) then 1 else 0)
  {
    forall k
      ensures Sum(xs + [x], Holding(k)) == Sum(xs, Holding(k)) + (if k == KeyOf(x) then 1 else 0)
    {
      SumSnoc(xs, x, Holding(k));
    }
  }

  lemma LeaveCounts(xs: seq<Item>, i: nat)
    requires i < |xs|
    ensures forall k :: Sum(Without(xs, i), Holding(k))
                        + (if Holds(xs[i]) && k == KeyOf(xs[i]) then 1 else 0) == Sum(xs, Holding(k))
  {
    forall k
      ensures Sum(Without(xs, i), Holding(k))
              + (if Holds(xs[i]) && k == KeyOf(xs[i]) then 1 else 0) == Sum(xs, Holding(k))
    {
      SumWithout(xs, i, Holding(k));
    }
  }

  lemma LogCounts(logs: seq<LogRow>, r: LogRow)
    ensures forall k :: Sum(logs + [r], Completing(k))
                        == Sum(logs, Completing(k)) + (if k == r.key && r.status.Finished? then 1 else 0)
    ensures forall k :: k != r.key ==> LogsOf(logs + [r], k) == LogsOf(logs, k)
    ensures LogsOf(logs + [r], r.key) == LogsOf(logs, r.key) + [r.status]
    ensures Failures(LogsOf(logs + [r], r.key)) == Failures(LogsOf(logs, r.key)) + (if r.status.Failed? then 1 else 0)
  {
    forall k
      ensures Sum(logs + [r], Completing(k))
              == Sum(logs, Completing(k)) + (if k == r.key && r.status.Finished? then 1 else 0)
    {
      SumSnoc(logs, r, Completing(k));
    }
    forall k
      ensures LogsOf(logs + [r], k) == LogsOf(logs, k) + (if r.key == k then [r.status] else [])
    {
      LogsSnoc(logs, r, k);
    }
    FailuresSnoc(LogsOf(logs, r.key), r.status);
  }

  lemma DeadCounts(dead: seq<DeadRow>, r: DeadRow)
    ensures forall k :: Sum(dead + [r], Burying(k)) == Sum(dead, Burying(k)) + (if k == r.key then 1 else 0)
  {
    forall k
      ensures Sum(dead + [r], Burying(k)) == Sum(dead, Burying(k)) + (if k == r.key then 1 else 0)
    {
      SumSnoc(dead, r, Burying(k));
    }
  }

  lemma WaitCounts(waits: seq<Wait>, w: Wait)
    ensures forall k :: Sum(waits + [w], SecondsFor(k)) == Sum(waits, SecondsFor(k)) + (if k == w.key then w.seconds else 0)
  {
    forall k
      ensures Sum(waits + [w], SecondsFor(k)) == Sum(waits, SecondsFor(k)) + (if k == w.key then w.seconds else 0)
    {
      SumSnoc(waits, w, SecondsFor(k));
    }
  }

  lemma {:induction false} NoLogs(logs: seq<LogRow>, key: Key)
    requires forall i :: 0 <= i < |logs| ==> logs[i].key != key
    ensures LogsOf(logs, key) == []
  {
    if logs != [] {
      NoLogs(logs[..|logs| - 1], key);
    }
  }

  /** Nothing is recorded about a message that was never published. */
  lemma NoStory(s: System, key: Key)
    requires Recorded(s) && key !in s.published
    ensures LogsOf(s.logs, key) == [] && Waited(s, key) == 0 && CompletedTimes(s, key) == 0
  {
    NoLogs(s.logs, key);
    SumZero(s.waits, SecondsFor(key));
    SumZero(s.logs, Completing(key));
  }

  // ---- Headers along the way ----

  lemma WireKeepsTexts(back: int -> HeaderValue, h: Headers)
    ensures MessageId(Wire(back, h)) == MessageId(h) || ("message_id" in h && h["message_id"].GoInt?)
    ensures forall name :: name in h && h[name].Text? ==> name in Wire(back, h) && Wire(back, h)[name] == h[name]
  {
  }

  lemma WireReads(back: int -> HeaderValue, h: Headers, a: nat)
    requires Carries(back, h, a)
    ensures RetryCount(Wire(back, h)) == ReadAt(back, a)
  {
  }

  lemma RequeuedTexts(h: Headers, count: int, now: int)
    ensures var r := RequeuedHeaders(h, count, now);
            && (forall name :: name in {"message_id", "tenant_id"} && name in h ==> name in r && r[name] == h[name])
            && "retry_count" in r && r["retry_count"] == GoInt(count)
            && MessageId(r) == MessageId(h)
  {
    assert |"message_id"| == 10 && |"tenant_id"| == 9 && |"retry_count"| == 11 && |"retry_timestamp"| == 15;
  }

  lemma PublishedTexts(tenant: string, id: string, priority: int, now: int, scheduled: Option<int>)
    ensures var h := PublishedHeaders(tenant, id, priority, now, scheduled);
            && "message_id" in h && h["message_id"] == Text(id)
            && "tenant_id" in h && h["tenant_id"] == Text(tenant)
            && "retry_count" !in h
  {
    assert |"message_id"| == 10 && |"tenant_id"| == 9 && |"retry_count"| == 11
           && |"priority"| == 8 && |"created_at"| == 10 && |"scheduled_at"| == 12;
    assert "message_id"[0] != "created_at"[0];
  }

  lemma UpdateMembers<T>(xs: seq<T>, i: nat, x: T)
    requires i < |xs|
    ensures forall y :: y in xs[i := x] ==> y == x || y in Without(xs, i)
  {
    forall y | y in xs[i := x] && y != x
      ensures y in Without(xs, i)
    {
      var j :| 0 <= j < |xs| && xs[i := x][j] == y;
      assert Without(xs, i)[if j < i then j else j - 1] == y;
    }
  }

  // ---- The steps ----

  lemma StepPublish(back: int -> HeaderValue, s: System, e: Event)
    requires Inv(back, s) && e.Publish? && Enabled(s, e)
    ensures Inv(back, Apply(back, s, e))
  {
    var key := Key(e.tenant, e.id);
    NoStory(s, key);
    PublishApart(back, s, e);
    StepApart(back, s, Apply(back, s, e));
  }

  lemma PublishApart(back: int -> HeaderValue, s: System, e: Event)
    requires e.Publish? && Enabled(s, e) && Key(e.tenant, e.id) !in s.published
    requires LogsOf(s.logs, Key(e.tenant, e.id)) == [] && Waited(s, Key(e.tenant, e.id)) == 0
    ensures Apart(back, s, Apply(back, s, e))
  {
    if e.sent {
      ArrivalFits(back, s, e);
      ArrivalApart(back, s, Apply(back, s, e), Arrival(e), Key(e.tenant, e.id), e.payload);
    }
  }

  lemma ArrivalApart(back: int -> HeaderValue, s: System, s': System, it: Item, key: Key, payload: string)
    requires key !in s.published && key !in s.rows && KeyOf(it) == key && Holds(it) && Sound(back, s', it)
    requires s' == s.(rows := s.rows[key := Row(payload, Pending)], flight := s.flight + [it],
                      published := s.published[key := payload])
    ensures Apart(back, s, s')
  {
    ArrivalCounts(s.flight, it);
  }

  function Arrival(e: Event): Item
    requires e.Publish?
  {
    Queued(QueueName(e.tenant),
           Delivery(PublishedHeaders(e.tenant, e.id, e.priority, e.now, e.scheduled), e.payload))
  }

  lemma ArrivalFits(back: int -> HeaderValue, s: System, e: Event)
    requires e.Publish? && e.sent && Enabled(s, e)
    requires LogsOf(s.logs, Key(e.tenant, e.id)) == [] && Waited(s, Key(e.tenant, e.id)) == 0
    ensures KeyOf(Arrival(e)) == Key(e.tenant, e.id) && Sound(back, Apply(back, s, e), Arrival(e))
  {
    assert Attempts(0) + [] == [];
    QueueNameInverse(e.tenant);
    PublishedTexts(e.tenant, e.id, e.priority, e.now, e.scheduled);
  }

  /** A holder that changes in place, with at most its own row and some token counts. */
  lemma MoveActs(back: int -> HeaderValue, s: System, s': System, i: nat, it': Item)
    requires i < |s.flight| && Holds(s.flight[i]) && Holds(it') && KeyOf(it') == KeyOf(s.flight[i])
    requires s' == s.(flight := s.flight[i := it'], rows := s'.rows, slots := s'.slots)
    requires s'.slots.Keys == s.slots.Keys
    requires forall k :: k in s.rows ==> k in s'.rows && s'.rows[k].payload == s.rows[k].payload
                                         && (k != KeyOf(it') ==> s'.rows[k] == s.rows[k])
    requires Sound(back, s', it') && CompletedTimes(s, KeyOf(it')) == 0
    ensures Acts(back, s, s', i)
  {
    MoveKeepsCounts(s.flight, i, it');
    UpdateMembers(s.flight, i, it');
  }

  lemma ReceiveFits(back: int -> HeaderValue, s: System, s': System, it: Item)
    requires it.Queued? && Sound(back, s, it) && s' == s.(flight := s'.flight)
    ensures var held := Held(QueueTenant(it.queue), it.d.(headers := Wire(back, it.d.headers)));
            KeyOf(held) == KeyOf(it) && Sound(back, s', held)
  {
    WireKeepsTexts(back, it.d.headers);
    WireReads(back, it.d.headers, Failures(LogsOf(s.logs, KeyOf(it))));
  }

  lemma ReceiveActs(back: int -> HeaderValue, s: System, i: nat)
    requires Enabled(s, Receive(i)) && Sound(back, s, s.flight[i]) && CompletedTimes(s, KeyOf(s.flight[i])) == 0
    ensures Acts(back, s, Apply(back, s, Receive(i)), i)
  {
    var s' := Apply(back, s, Receive(i));
    ReceiveFits(back, s, s', s.flight[i]);
    MoveActs(back, s, s', i, s'.flight[i]);
  }

  lemma TakeActs(back: int -> HeaderValue, s: System, i: nat)
    requires Enabled(s, Take(i)) && Sound(back, s, s.flight[i]) && CompletedTimes(s, KeyOf(s.flight[i])) == 0
    ensures Acts(back, s, Apply(back, s, Take(i)), i)
  {
    var s' := Apply(back, s, Take(i));
    MoveActs(back, s, s', i, Job(s.flight[i].tenant, s.flight[i].d, Begin));
  }

  lemma FireActs(back: int -> HeaderValue, s: System, s': System, i: nat)
    requires i < |s.flight| && s.flight[i].Delayed?
    requires Sound(back, s, s.flight[i]) && CompletedTimes(s, KeyOf(s.flight[i])) == 0
    requires s' == s.(flight := Without(s.flight, i) + [Queued(s.flight[i].queue, s.flight[i].d)])
    ensures Acts(back, s, s', i)
  {
    var it' := Queued(s.flight[i].queue, s.flight[i].d);
    LeaveCounts(s.flight, i);
    ArrivalCounts(Without(s.flight, i), it');
    assert Sound(back, s', it');
  }

  lemma LogOne(logs: seq<LogRow>, r: LogRow)
    ensures LogsOf(logs + [r], r.key) == LogsOf(logs, r.key) + [r.status]
    ensures Failures(LogsOf(logs + [r], r.key)) == Failures(LogsOf(logs, r.key)) + (if r.status.Failed? then 1 else 0)
  {
    LogsSnoc(logs, r, r.key);
    FailuresSnoc(LogsOf(logs, r.key), r.status);
  }

  lemma StartedStory(back: int -> HeaderValue, h: seq<LogStatus>, status: Status, waited: nat, it: Item)
    requires it.Job? && it.pc.Begin? && Fits(back, h, status, waited, it)
    ensures Fits(back, h + [Started], status, waited, it.(pc := Run))
  {
    FailuresSnoc(h, Started);
    assert Attempts(Failures(h)) + [] + [Started] == Attempts(Failures(h)) + [Started];
  }

  lemma FailedStory(back: int -> HeaderValue, h: seq<LogStatus>, status: Status, waited: nat, it: Item)
    requires it.Job? && it.pc.LogFailed? && Fits(back, h, status, waited, it)
    ensures Fits(back, h + [Failed], status, waited, it.(pc := Route))
  {
    FailuresSnoc(h, Failed);
    assert Attempts(Failures(h)) + [Started] + [Failed] == Attempts(Failures(h) + 1) + [];
  }

  lemma StartFits(back: int -> HeaderValue, s: System, s': System, it: Item)
    requires it.Job? && it.pc.Begin? && Sound(back, s, it)
    requires s' == s.(flight := s'.flight, logs := s.logs + [LogRow(KeyOf(it), Started)])
    ensures Sound(back, s', it.(pc := Run))
  {
    var key := KeyOf(it);
    LogOne(s.logs, LogRow(key, Started));
    StartedStory(back, LogsOf(s.logs, key), s.rows[key].status, Waited(s, key), it);
  }

  lemma FailFits(back: int -> HeaderValue, s: System, s': System, it: Item)
    requires it.Job? && it.pc.LogFailed? && Sound(back, s, it)
    requires s' == s.(flight := s'.flight, logs := s.logs + [LogRow(KeyOf(it), Failed)])
    ensures Sound(back, s', it.(pc := Route))
  {
    var key := KeyOf(it);
    LogOne(s.logs, LogRow(key, Failed));
    FailedStory(back, LogsOf(s.logs, key), s.rows[key].status, Waited(s, key), it);
  }

  lemma LogActs(back: int -> HeaderValue, s: System, s': System, i: nat, it': Item, status: LogStatus)
    requires i < |s.flight| && Holds(s.flight[i]) && Holds(it') && KeyOf(it') == KeyOf(s.flight[i])
    requires s' == s.(flight := s.flight[i := it'], logs := s.logs + [LogRow(KeyOf(it'), status)])
    requires !status.Finished? && Sound(back, s', it') && CompletedTimes(s, KeyOf(it')) == 0
    ensures Acts(back, s, s', i)
  {
    LogCounts(s.logs, LogRow(KeyOf(it'), status));
    MoveKeepsCounts(s.flight, i, it');
    UpdateMembers(s.flight, i, it');
  }

  lemma BeginActs(back: int -> HeaderValue, s: System, i: nat, outcome: Outcome, now: int)
    requires Enabled(s, Work(i, outcome, now)) && s.flight[i].pc.Begin?
    requires Sound(back, s, s.flight[i]) && CompletedTimes(s, KeyOf(s.flight[i])) == 0
    ensures Acts(back, s, Apply(back, s, Work(i, outcome, now)), i)
  {
    var s' := Apply(back, s, Work(i, outcome, now));
    StartFits(back, s, s', s.flight[i]);
    LogActs(back, s, s', i, s.flight[i].(pc := Run), Started);
  }

  lemma FailActs(back: int -> HeaderValue, s: System, i: nat, outcome: Outcome, now: int)
    requires Enabled(s, Work(i, outcome, now)) && s.flight[i].pc.LogFailed?
    requires Sound(back, s, s.flight[i]) && CompletedTimes(s, KeyOf(s.flight[i])) == 0
    ensures Acts(back, s, Apply(back, s, Work(i, outcome, now)), i)
  {
    var s' := Apply(back, s, Work(i, outcome, now));
    FailFits(back, s, s', s.flight[i]);
    LogActs(back, s, s', i, s.flight[i].(pc := Route), Failed);
  }

  lemma RunActs(back: int -> HeaderValue, s: System, i: nat, outcome: Outcome, now: int)
    requires Enabled(s, Work(i, outcome, now)) && s.flight[i].pc.Run?
    requires Sound(back, s, s.flight[i]) && CompletedTimes(s, KeyOf(s.flight[i])) == 0
    ensures Acts(back, s, Apply(back, s, Work(i, outcome, now)), i)
  {
    var s' := Apply(back, s, Work(i, outcome, now));
    MoveActs(back, s, s', i, s.flight[i].(pc := NextPc(s.flight[i], outcome)));
  }

  lemma MarkActs(back: int -> HeaderValue, s: System, i: nat, outcome: Outcome, now: int)
    requires Enabled(s, Work(i, outcome, now)) && s.flight[i].pc.MarkCompleted?
    requires Sound(back, s, s.flight[i]) && CompletedTimes(s, KeyOf(s.flight[i])) == 0
    ensures Acts(back, s, Apply(back, s, Work(i, outcome, now)), i)
  {
    var s' := Apply(back, s, Work(i, outcome, now));
    MoveActs(back, s, s', i, s.flight[i].(pc := LogCompleted));
  }

  lemma FinishActs(back: int -> HeaderValue, s: System, s': System, i: nat)
    requires i < |s.flight| && Holds(s.flight[i]) && s.flight[i].Job? && s.flight[i].pc.LogCompleted?
    requires Sound(back, s, s.flight[i])
    requires s' == s.(flight := s.flight[i := s.flight[i].(pc := Ack)],
                      logs := s.logs + [LogRow(KeyOf(s.flight[i]), Finished)])
    ensures Acts(back, s, s', i)
  {
    var it := s.flight[i];
    FinishFits(back, s, s', it);
    ReleaseCounts(s.flight, i, it.(pc := Ack));
    UpdateMembers(s.flight, i, it.(pc := Ack));
    LogCounts(s.logs, LogRow(KeyOf(it), Finished));
    assert Sound(back, s', it.(pc := Ack));
  }

  lemma FinishFits(back: int -> HeaderValue, s: System, s': System, it: Item)
    requires it.Job? && it.pc.LogCompleted? && Sound(back, s, it)
    requires s' == s.(flight := s'.flight, logs := s.logs + [LogRow(KeyOf(it), Finished)])
    ensures SoundFinished(back, s', KeyOf(it))
  {
    var a := Failures(LogsOf(s.logs, KeyOf(it)));
    LogOne(s.logs, LogRow(KeyOf(it), Finished));
    assert Attempts(a) + [Started] + [Finished] == Attempts(a) + [Started, Finished];
  }

  lemma BuryActs(back: int -> HeaderValue, s: System, s': System, i: nat, r: DeadRow)
    requires i < |s.flight| && Holds(s.flight[i]) && s.flight[i].Job? && s.flight[i].pc.Route?
    requires Sound(back, s, s.flight[i]) && CompletedTimes(s, KeyOf(s.flight[i])) == 0
    requires r == DeadRow(KeyOf(s.flight[i]), s.flight[i].d.body, RetryCount(s.flight[i].d.headers))
    requires MAX_RETRIES <= r.retryCount
    requires s' == s.(flight := s.flight[i := s.flight[i].(pc := Ack)], dead := s.dead + [r])
    ensures Acts(back, s, s', i)
  {
    ReleaseCounts(s.flight, i, s.flight[i].(pc := Ack));
    UpdateMembers(s.flight, i, s.flight[i].(pc := Ack));
    DeadCounts(s.dead, r);
    var a := Failures(LogsOf(s.logs, r.key));
    assert Attempts(a) + [] == Attempts(a);
    assert SoundDead(back, s', r);
    assert Sound(back, s', s.flight[i].(pc := Ack));
  }

  /** The delivery that a failed job sends back to its queue. */
  function Again(it: Item, now: int): Item
    requires it.Job?
  {
    var count := RetryCount(it.d.headers) + 1;
    Delayed(QueueName(it.tenant), it.d.(headers := RequeuedHeaders(it.d.headers, count, now)), Square(count))
  }

  lemma AgainKey(it: Item, now: int)
    requires it.Job?
    ensures KeyOf(Again(it, now)) == KeyOf(it)
  {
    RequeuedTexts(it.d.headers, RetryCount(it.d.headers) + 1, now);
    QueueNameInverse(it.tenant);
  }

  lemma RequeueFits(back: int -> HeaderValue, s: System, s': System, it: Item, now: int)
    requires it.Job? && it.pc.Route? && RetryCount(it.d.headers) < MAX_RETRIES && Sound(back, s, it)
    requires s' == s.(flight := s'.flight, waits := s.waits + [Wait(KeyOf(it), Again(it, now).seconds)])
    ensures Sound(back, s', Again(it, now))
  {
    RequeuedTexts(it.d.headers, RetryCount(it.d.headers) + 1, now);
    QueueNameInverse(it.tenant);
    WaitCounts(s.waits, Wait(KeyOf(it), Again(it, now).seconds));
  }

  lemma RequeueActs(back: int -> HeaderValue, s: System, s': System, i: nat, now: int)
    requires i < |s.flight| && Holds(s.flight[i]) && s.flight[i].Job? && s.flight[i].pc.Route?
    requires RetryCount(s.flight[i].d.headers) < MAX_RETRIES
    requires Sound(back, s, s.flight[i]) && CompletedTimes(s, KeyOf(s.flight[i])) == 0
    requires s' == s.(flight := s.flight[i := s.flight[i].(pc := Ack)] + [Again(s.flight[i], now)],
                      waits := s.waits + [Wait(KeyOf(s.flight[i]), Again(s.flight[i], now).seconds)])
    ensures Acts(back, s, s', i)
  {
    var it := s.flight[i];
    RequeueFits(back, s, s', it, now);
    AgainKey(it, now);
    ReleaseCounts(s.flight, i, it.(pc := Ack));
    UpdateMembers(s.flight, i, it.(pc := Ack));
    ArrivalCounts(s.flight[i := it.(pc := Ack)], Again(it, now));
    WaitCounts(s.waits, Wait(KeyOf(it), Again(it, now).seconds));
    assert Sound(back, s', it.(pc := Ack));
  }

  lemma RouteActs(back: int -> HeaderValue, s: System, i: nat, outcome: Outcome, now: int)
    requires Enabled(s, Work(i, outcome, now)) && s.flight[i].pc.Route?
    requires Sound(back, s, s.flight[i]) && CompletedTimes(s, KeyOf(s.flight[i])) == 0
    ensures Acts(back, s, Apply(back, s, Work(i, outcome, now)), i)
  {
    var it := s.flight[i];
    var s' := Apply(back, s, Work(i, outcome, now));
    if RetryCount(it.d.headers) < MAX_RETRIES {
      RequeueActs(back, s, s', i, now);
    } else {
      BuryActs(back, s, s', i, DeadRow(KeyOf(it), it.d.body, RetryCount(it.d.headers)));
    }
  }

  /** A goroutine that no longer holds a message acknowledges it. */
  lemma AckApart(back: int -> HeaderValue, s: System, s': System, i: nat)
    requires i < |s.flight| && s.flight[i].Job? && s.flight[i].pc.Ack? && Sound(back, s, s.flight[i])
    requires s' == s.(flight := s.flight[i := s.flight[i].(pc := GiveBack)])
    ensures Apart(back, s, s')
  {
    MoveKeepsCounts(s.flight, i, s.flight[i].(pc := GiveBack));
    UpdateMembers(s.flight, i, s.flight[i].(pc := GiveBack));
  }

  /** It gives its token back and ends. */
  lemma GiveBackApart(back: int -> HeaderValue, s: System, s': System, i: nat)
    requires i < |s.flight| && s.flight[i].Job? && s.flight[i].pc.GiveBack?
    requires s' == s.(flight := Without(s.flight, i), slots := s'.slots) && s'.slots.Keys == s.slots.Keys
    ensures Apart(back, s, s')
  {
    LeaveCounts(s.flight, i);
    assert forall y :: y in Without(s.flight, i) ==> y in s.flight;
  }

  lemma LeavesApart(back: int -> HeaderValue, s: System, i: nat, outcome: Outcome, now: int)
    requires Enabled(s, Work(i, outcome, now)) && !Holds(s.flight[i]) && Sound(back, s, s.flight[i])
    ensures Apart(back, s, Apply(back, s, Work(i, outcome, now)))
  {
    var s' := Apply(back, s, Work(i, outcome, now));
    if s.flight[i].pc.Ack? {
      AckApart(back, s, s', i);
    } else {
      GiveBackApart(back, s, s', i);
    }
  }

  lemma StepLeaves(back: int -> HeaderValue, s: System, i: nat, outcome: Outcome, now: int)
    requires Inv(back, s) && Enabled(s, Work(i, outcome, now)) && !Holds(s.flight[i])
    ensures Inv(back, Apply(back, s, Work(i, outcome, now)))
  {
    LeavesApart(back, s, i, outcome, now);
    StepApart(back, s, Apply(back, s, Work(i, outcome, now)));
  }

  lemma SlotsApart(back: int -> HeaderValue, s: System, s': System)
    requires s' == s.(slots := s'.slots) && s'.slots.Keys == s.slots.Keys
    ensures Apart(back, s, s')
  {
  }

  lemma StepUpdate(back: int -> HeaderValue, s: System, tenant: string, u: W.Event)
    requires Inv(back, s) && Enabled(s, Update(tenant, u))
    ensures Inv(back, Apply(back, s, Update(tenant, u)))
  {
    var s' := Apply(back, s, Update(tenant, u));
    SlotsApart(back, s, s');
    StepApart(back, s, s');
  }

  lemma WorkActs(back: int -> HeaderValue, s: System, i: nat, outcome: Outcome, now: int)
    requires Enabled(s, Work(i, outcome, now)) && Holds(s.flight[i])
    requires Sound(back, s, s.flight[i]) && CompletedTimes(s, KeyOf(s.flight[i])) == 0
    ensures Acts(back, s, Apply(back, s, Work(i, outcome, now)), i)
  {
    match s.flight[i].pc
    case Begin => BeginActs(back, s, i, outcome, now);
    case Run => RunActs(back, s, i, outcome, now);
    case LogFailed => FailActs(back, s, i, outcome, now);
    case Route => RouteActs(back, s, i, outcome, now);
    case MarkCompleted => MarkActs(back, s, i, outcome, now);
    case LogCompleted => FinishActs(back, s, Apply(back, s, Work(i, outcome, now)), i);
  }

  /** The position an event acts on, when it acts on a message in flight. */
  predicate ActsOn(s: System, e: Event, i: nat) {
    && i < |s.flight| && Holds(s.flight[i])
    && match e
       case Receive(j) => i == j
       case Take(j) => i == j
       case Fire(j) => i == j
       case Work(j, _, _) => i == j
       case _ => false
  }

  lemma EventActs(back: int -> HeaderValue, s: System, e: Event, i: nat)
    requires Enabled(s, e) && ActsOn(s, e, i)
    requires Sound(back, s, s.flight[i]) && CompletedTimes(s, KeyOf(s.flight[i])) == 0
    ensures Acts(back, s, Apply(back, s, e), i)
  {
    match e
    case Receive(_) => ReceiveActs(back, s, i);
    case Take(_) => TakeActs(back, s, i);
    case Fire(_) => FireActs(back, s, Apply(back, s, e), i);
    case Work(_, outcome, now) => WorkActs(back, s, i, outcome, now);
  }

  lemma StepHolder(back: int -> HeaderValue, s: System, e: Event, i: nat)
    requires Inv(back, s) && Enabled(s, e) && ActsOn(s, e, i)
    ensures Inv(back, Apply(back, s, e))
  {
    HolderExcludes(s, i);
    EventActs(back, s, e, i);
    StepAt(back, s, Apply(back, s, e), i);
  }

  lemma StepKeepsInv(back: int -> HeaderValue, s: System, e: Event)
    requires Inv(back, s) && Enabled(s, e)
    ensures Inv(back, Apply(back, s, e))
  {
    match e
    case Publish(_, _, _, _, _, _, _) => StepPublish(back, s, e);
    case Update(t, u) => StepUpdate(back, s, t, u);
    case Work(i, outcome, now) =>
      if Holds(s.flight[i]) {
        StepHolder(back, s, e, i);
      } else {
        StepLeaves(back, s, i, outcome, now);
      }
    case Receive(i) => StepHolder(back, s, e, i);
    case Take(i) => StepHolder(back, s, e, i);
    case Fire(i) => StepHolder(back, s, e, i);
  }

  lemma InitInv(back: int -> HeaderValue, s: System)
    requires Init(s)
    ensures Inv(back, s)
  {
  }

  lemma {:induction false} RunKeepsInv(back: int -> HeaderValue, s: System, es: seq<Event>)
    requires Inv(back, s) && Legal(back, s, es)
    ensures Inv(back, Final(back, s, es))
    decreases |es|
  {
    if es != [] {
      StepKeepsInv(back, s, es[0]);
      RunKeepsInv(back, Apply(back, s, es[0]), es[1..]);
    }
  }
}
