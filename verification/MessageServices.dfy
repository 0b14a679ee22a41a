/** Publication and processing as the services' methods, on tables, queues and header maps that are
    updated in place; each method is proved against the step machine of the message life cycle. */
module MessageServices {
  import opened Deliveries
  import opened MessageLifecycle
  import opened LifecycleHeaders

  /** One attempt at a message: the statements of processMessage up to the acknowledgement. */
  function Attempt(i: nat, outcome: Outcome, now: int): seq<Event> {
    seq(5, _ => Work(i, outcome, now))
  }

  /** What an attempt amounts to: two log rows, and a completed row, a requeue or a dead letter. */
  function Attempted(s: System, i: nat, outcome: Outcome, now: int): System
    requires i < |s.flight| && s.flight[i].Job?
  {
    var it := s.flight[i];
    var key := KeyOf(it);
    var count := RetryCount(it.d.headers);
    var logged := s.(flight := s.flight[i := it.(pc := GiveBack)],
                     logs := s.logs + [LogRow(key, Started), LogRow(key, if outcome.Stored? then Finished else Failed)]);
    if outcome.Stored? then
      logged.(rows := s.rows[key := Row(if key in s.rows then s.rows[key].payload else it.d.body, Completed)])
    else if count < MAX_RETRIES then Requeue(logged, it, count + 1, now)
    else SendToDeadLetter(logged, key, it.d.body, count)
  }

  /** The job at i when its next statement is pc. */
  function At(s: System, i: nat, pc: Pc): System
    requires i < |s.flight| && s.flight[i].Job?
  {
    s.(flight := s.flight[i := s.flight[i].(pc := pc)])
  }

  /** One statement of a job that does not give its token back yet. */
  lemma StatementStep(back: int -> HeaderValue, s: System, s': System, i: nat, outcome: Outcome, now: int)
    requires i < |s.flight| && s.flight[i].Job? && s.flight[i].tenant in s.slots && !s.flight[i].pc.GiveBack?
    requires s' == Effect(At(s, i, NextPc(s.flight[i], outcome)), s.flight[i], outcome, now)
    ensures Enabled(s, Work(i, outcome, now)) && Apply(back, s, Work(i, outcome, now)) == s'
    ensures s'.slots == s.slots && i < |s'.flight| && s'.flight[i] == s.flight[i].(pc := NextPc(s.flight[i], outcome))
  {
  }

  lemma {:induction false} RunFive(back: int -> HeaderValue, s0: System, s1: System, s2: System, s3: System, s4: System, s5: System, e: Event)
    requires Enabled(s0, e) && Apply(back, s0, e) == s1
    requires Enabled(s1, e) && Apply(back, s1, e) == s2
    requires Enabled(s2, e) && Apply(back, s2, e) == s3
    requires Enabled(s3, e) && Apply(back, s3, e) == s4
    requires Enabled(s4, e) && Apply(back, s4, e) == s5
    ensures Legal(back, s0, [e, e, e, e, e]) && Final(back, s0, [e, e, e, e, e]) == s5
  {
    assert [e][1..] == [];
    assert Legal(back, s4, [e]) && Final(back, s4, [e]) == s5;
    assert [e, e][1..] == [e];
    assert Legal(back, s3, [e, e]) && Final(back, s3, [e, e]) == s5;
    assert [e, e, e][1..] == [e, e];
    assert Legal(back, s2, [e, e, e]) && Final(back, s2, [e, e, e]) == s5;
    assert [e, e, e, e][1..] == [e, e, e];
    assert Legal(back, s1, [e, e, e, e]) && Final(back, s1, [e, e, e, e]) == s5;
    assert [e, e, e, e, e][1..] == [e, e, e, e];
  }

  /** The state after the next statement of job i. */
  function Next(s: System, i: nat, outcome: Outcome, now: int): System
    requires i < |s.flight| && s.flight[i].Job? && !s.flight[i].pc.GiveBack?
  {
    Effect(At(s, i, NextPc(s.flight[i], outcome)), s.flight[i], outcome, now)
  }

  /** The first three statements of an attempt. */
  lemma Opening(s: System, i: nat, outcome: Outcome, now: int) returns (s1: System, s2: System, s3: System)
    requires i < |s.flight| && s.flight[i].Job? && s.flight[i].pc.Begin?
    ensures s1 == At(AddLog(s, KeyOf(s.flight[i]), Started), i, Run) == Next(s, i, outcome, now)
    ensures s2 == Next(s1, i, outcome, now) && s3 == Next(s2, i, outcome, now)
    ensures !s2.flight[i].pc.GiveBack?
    ensures var it := s.flight[i];
            var key := KeyOf(it);
            if outcome.Stored? then
              s3 == At(s1, i, LogCompleted).(rows := s.rows[key := Row(if key in s.rows then s.rows[key].payload else it.d.body, Completed)])
            else s3 == At(AddLog(s1, key, Failed), i, Route)
  {
    var it := s.flight[i];
    s1 := Next(s, i, outcome, now);
    s2 := Next(s1, i, outcome, now);
    s3 := Next(s2, i, outcome, now);
    assert KeyOf(it.(pc := Run)) == KeyOf(it);
  }

  /** The last two statements of an attempt that stored the message. */
  lemma ClosingStored(s: System, s1: System, s3: System, i: nat, outcome: Outcome, now: int)
    requires i < |s.flight| && s.flight[i].Job? && outcome.Stored?
    requires s1 == At(AddLog(s, KeyOf(s.flight[i]), Started), i, Run)
    requires var it := s.flight[i];
             var key := KeyOf(it);
             s3 == At(s1, i, LogCompleted).(rows := s.rows[key := Row(if key in s.rows then s.rows[key].payload else it.d.body, Completed)])
    ensures !Next(s3, i, outcome, now).flight[i].pc.GiveBack?
    ensures Next(Next(s3, i, outcome, now), i, outcome, now) == Attempted(s, i, outcome, now)
  {
    assert KeyOf(s3.flight[i]) == KeyOf(s.flight[i]);
    var s4 := Next(s3, i, outcome, now);
    assert s4.flight == s.flight[i := s.flight[i].(pc := Ack)];
    assert s4.logs == Attempted(s, i, outcome, now).logs;
  }

  /** The last two statements of an attempt that failed. */
  lemma ClosingFailed(s: System, s3: System, i: nat, outcome: Outcome, now: int)
    requires i < |s.flight| && s.flight[i].Job? && !outcome.Stored?
    requires var key := KeyOf(s.flight[i]);
             s3 == At(s, i, Route).(logs := s.logs + [LogRow(key, Started), LogRow(key, Failed)])
    ensures i < |Next(s3, i, outcome, now).flight| && Next(s3, i, outcome, now).flight[i] == s.flight[i].(pc := Ack)
    ensures Next(Next(s3, i, outcome, now), i, outcome, now) == Attempted(s, i, outcome, now)
  {
    var it := s.flight[i];
    assert KeyOf(s3.flight[i]) == KeyOf(it);
    var s4 := Next(s3, i, outcome, now);
    var s5 := Next(s4, i, outcome, now);
    assert At(s3, i, Ack).flight[i := it.(pc := GiveBack)] == s.flight[i := it.(pc := GiveBack)];
    if RetryCount(it.d.headers) < MAX_RETRIES {
      assert s4.flight == At(s3, i, Ack).flight + [s4.flight[|s.flight|]];
      assert s5.flight == Attempted(s, i, outcome, now).flight;
    }
  }

  lemma FiveStatements(back: int -> HeaderValue, s: System, s1: System, s2: System, s3: System, s4: System,
                       i: nat, outcome: Outcome, now: int)
    requires i < |s.flight| && s.flight[i].Job? && !s.flight[i].pc.GiveBack? && s.flight[i].tenant in s.slots
    requires s1 == Next(s, i, outcome, now) && i < |s1.flight| && s1.flight[i].Job? && !s1.flight[i].pc.GiveBack?
    requires s2 == Next(s1, i, outcome, now) && i < |s2.flight| && s2.flight[i].Job? && !s2.flight[i].pc.GiveBack?
    requires s3 == Next(s2, i, outcome, now) && i < |s3.flight| && s3.flight[i].Job? && !s3.flight[i].pc.GiveBack?
    requires s4 == Next(s3, i, outcome, now) && i < |s4.flight| && s4.flight[i].Job? && !s4.flight[i].pc.GiveBack?
    ensures var e, s5 := Work(i, outcome, now), Next(s4, i, outcome, now);
            Legal(back, s, [e, e, e, e, e]) && Final(back, s, [e, e, e, e, e]) == s5
  {
    StatementStep(back, s, s1, i, outcome, now);
    StatementStep(back, s1, s2, i, outcome, now);
    StatementStep(back, s2, s3, i, outcome, now);
    StatementStep(back, s3, s4, i, outcome, now);
    StatementStep(back, s4, Next(s4, i, outcome, now), i, outcome, now);
    RunFive(back, s, s1, s2, s3, s4, Next(s4, i, outcome, now), Work(i, outcome, now));
  }

  /** An attempt that nothing disturbs is five steps of the life cycle, with this outcome. */
  lemma AttemptIsRun(back: int -> HeaderValue, s: System, i: nat, outcome: Outcome, now: int)
    requires i < |s.flight| && s.flight[i].Job? && s.flight[i].pc.Begin? && s.flight[i].tenant in s.slots
    ensures Legal(back, s, Attempt(i, outcome, now))
    ensures Final(back, s, Attempt(i, outcome, now)) == Attempted(s, i, outcome, now)
  {
    var s1, s2, s3 := Opening(s, i, outcome, now);
    var s4 := Next(s3, i, outcome, now);
    var key := KeyOf(s.flight[i]);
    if outcome.Stored? {
      ClosingStored(s, s1, s3, i, outcome, now);
    } else {
      assert s.logs + [LogRow(key, Started)] + [LogRow(key, Failed)] == s.logs + [LogRow(key, Started), LogRow(key, Failed)];
      ClosingFailed(s, s3, i, outcome, now);
    }
    FiveStatements(back, s, s1, s2, s3, s4, i, outcome, now);
    var e := Work(i, outcome, now);
    assert Attempt(i, outcome, now) == [e, e, e, e, e];
  }

  // ---- The services ----

  /** The table after a requeue: the two retry entries are new, every other name is as it was. */
  predicate StampedAgain(h: Headers, h': Headers, retryCount: int, now: int) {
    && (forall name :: name in h && name != "retry_count" && name != "retry_timestamp" ==> name in h' && h'[name] == h[name])
    && (forall name :: name in h' && name != "retry_count" && name != "retry_timestamp" ==> name in h)
    && "retry_count" in h' && h'["retry_count"] == GoInt(retryCount)
    && "retry_timestamp" in h' && h'["retry_timestamp"] == Int64(now)
  }

  lemma RequeueStamps(h: Headers, retryCount: int, now: int)
    ensures StampedAgain(h, RequeuedHeaders(h, retryCount, now), retryCount, now)
  {
    assert |"retry_count"| == 11 && |"retry_timestamp"| == 15;
  }

  /** What a new message looks like in the table and in the queue. */
  predicate Posted(rows: map<Key, Row>, it: Item, tenant: string, id: string, payload: string, priority: int, now: int, scheduled: Option<int>) {
    && Key(tenant, id) in rows && rows[Key(tenant, id)] == Row(payload, Pending)
    && it.Queued? && it.queue == QueueName(tenant) && it.d.body == payload
    && Stamped(_ => GoInt(0), Event.Publish(tenant, id, payload, priority, now, scheduled, true), 0, it.d.headers)
  }

  /** A header map, shared by whoever holds the delivery. */
  class HeaderTable {
    var fields: Headers

    constructor ()
      ensures fields == map[]
    {
      fields := map[];
    }
  }

  datatype PublishError = SerializeFailed | InsertFailed | SendFailed

  /** The tables, the broker and the deliveries that MessageService and TenantManager work on. */
  class Services {
    var flight: seq<Item>
    var rows: map<Key, Row>
    var logs: seq<LogRow>
    var dead: seq<DeadRow>
    var slots: map<string, Slots>
    ghost var published: map<Key, string>
    ghost var waits: seq<Wait>

    ghost function State(): System
      reads this
    {
      System(flight, rows, logs, dead, slots, published, waits)
    }

    constructor (slots: map<string, Slots>)
      ensures State() == System([], map[], [], [], slots, map[], [])
    {
      flight, rows, logs, dead, published, waits := [], map[], [], [], map[], [];
      this.slots := slots;
    }

    /** The INSERT of a new message: it fails on a duplicate key and on a tenant without partition. */
    method InsertMessage(key: Key, payload: string) returns (ok: bool)
      modifies this
      ensures ok <==> key.tenant in slots && key !in old(rows)
      ensures State() == if ok then old(State()).(rows := old(rows)[key := Row(payload, Pending)]) else old(State())
    {
      ok := key.tenant in slots && key !in rows;
      if ok {
        rows := rows[key := Row(payload, Pending)];
      }
    }

    /** The header map of a new message, entry by entry. */
    method FillHeaders(tenantID: string, messageID: string, priority: int, now: int, scheduledAt: Option<int>)
      returns (headers: HeaderTable)
      ensures fresh(headers) && headers.fields == PublishedHeaders(tenantID, messageID, priority, now, scheduledAt)
    {
      headers := new HeaderTable();
      headers.fields := headers.fields["message_id" := Text(messageID)];
      headers.fields := headers.fields["tenant_id" := Text(tenantID)];
      headers.fields := headers.fields["priority" := GoInt(priority)];
      headers.fields := headers.fields["created_at" := Int64(now)];
      if scheduledAt.Some? && now < scheduledAt.value {
        headers.fields := headers.fields["scheduled_at" := Int64(scheduledAt.value)];
      }
    }

    /** `payload` is the encoded request, if it could be encoded; `sent` is the broker's answer. */
    method Publish(tenantID: string, messageID: string, payload: Option<string>, priority: int, now: int,
                   scheduledAt: Option<int>, sent: bool) returns (err: Option<PublishError>)
      modifies this
      ensures payload.None? ==> err == Some(SerializeFailed) && State() == old(State())
      ensures payload.Some? ==>
                var e := Event.Publish(tenantID, messageID, payload.value, priority, now, scheduledAt, sent);
                if Enabled(old(State()), e) then
                  State() == DoPublish(old(State()), e) && err == if sent then None else Some(SendFailed)
                else State() == old(State()) && err == Some(InsertFailed)
      ensures err.None? ==>
                && |flight| == |old(flight)| + 1
                && Posted(rows, flight[|old(flight)|], tenantID, messageID, payload.value, priority, now, scheduledAt)
    {
      if payload.None? {
        return Some(SerializeFailed);
      }
      var headers := FillHeaders(tenantID, messageID, priority, now, scheduledAt);
      var inserted := InsertMessage(Key(tenantID, messageID), payload.value);
      if !inserted {
        return Some(InsertFailed);
      }
      if !sent {
        return Some(SendFailed);
      }
      flight := flight + [Queued(QueueName(tenantID), Delivery(headers.fields, payload.value))];
      published := published[Key(tenantID, messageID) := payload.value];
      PublishedStamp(_ => GoInt(0), Event.Publish(tenantID, messageID, payload.value, priority, now, scheduledAt, true));
      return None;
    }

    method LogProcessingEvent(key: Key, status: LogStatus)
      modifies this`logs
      ensures logs == old(logs) + [LogRow(key, status)]
    {
      logs := logs + [LogRow(key, status)];
    }

    method UpdateMessageStatus(key: Key, status: Status)
      modifies this`rows
      ensures State() == old(MessageLifecycle.UpdateMessageStatus(State(), key, status))
    {
      if key in rows {
        rows := rows[key := rows[key].(status := status)];
      }
    }

    /** Parses the payload, then inserts the row or marks it as processing. */
    method HandleBusinessLogic(key: Key, payload: string, outcome: Outcome) returns (ok: bool)
      modifies this`rows
      ensures ok <==> outcome.Stored?
      ensures State() == if ok then old(StoreMessage(State(), key, payload)) else old(State())
    {
      if outcome.ParseError? {
        return false;
      }
      if outcome.StoreError? {
        return false;
      }
      if key in rows {
        rows := rows[key := rows[key].(status := Processing)];
      } else {
        rows := rows[key := Row(payload, Processing)];
      }
      return true;
    }

    method GetRetryCount(headers: HeaderTable) returns (n: int)
      ensures n == RetryCount(headers.fields)
    {
      if "retry_count" in headers.fields {
        match headers.fields["retry_count"]
        case GoInt(count) => return count;
        case _ =>
      }
      return 0;
    }

    /** Changes the delivery's own header map and leaves a goroutine that will publish it. */
    method RequeueMessage(it: Item, headers: HeaderTable, retryCount: int, now: int)
      requires it.Job? && headers.fields == it.d.headers
      modifies this`flight, this`waits, headers
      ensures State() == old(Requeue(State(), it, retryCount, now))
      ensures headers.fields == RequeuedHeaders(old(headers.fields), retryCount, now)
      ensures StampedAgain(old(headers.fields), headers.fields, retryCount, now)
      ensures flight == old(flight) + [Delayed(QueueName(it.tenant), Delivery(headers.fields, it.d.body), Square(retryCount))]
    {
      RequeueStamps(headers.fields, retryCount, now);
      headers.fields := headers.fields["retry_count" := GoInt(retryCount)];
      headers.fields := headers.fields["retry_timestamp" := Int64(now)];
      flight := flight + [Delayed(QueueName(it.tenant), Delivery(headers.fields, it.d.body), Square(retryCount))];
      waits := waits + [Wait(KeyOf(it), Square(retryCount))];
    }

    method SendToDeadLetter(key: Key, payload: string, retryCount: int)
      modifies this`dead
      ensures dead == old(dead) + [DeadRow(key, payload, retryCount)]
    {
      dead := dead + [DeadRow(key, payload, retryCount)];
    }

    method MessageIdOf(headers: HeaderTable) returns (id: string)
      ensures id == MessageId(headers.fields)
    {
      id := "";
      if "message_id" in headers.fields {
        match headers.fields["message_id"]
        case Text(s) => id := s;
        case _ =>
      }
    }

    /** The retry logic of a failed attempt. */
    method RouteFailure(it: Item, key: Key, headers: HeaderTable, now: int)
      requires it.Job? && key == KeyOf(it) && headers.fields == it.d.headers
      modifies this`flight, this`waits, this`dead, headers
      ensures var count := RetryCount(old(headers.fields));
              if count < MAX_RETRIES then
                && State() == old(Requeue(State(), it, count + 1, now)) && |flight| == |old(flight)| + 1
                && headers.fields == RequeuedHeaders(old(headers.fields), count + 1, now)
                && StampedAgain(old(headers.fields), headers.fields, count + 1, now)
                && flight[|old(flight)|] == Delayed(QueueName(it.tenant), Delivery(headers.fields, it.d.body), Square(count + 1))
              else State() == old(MessageLifecycle.SendToDeadLetter(State(), key, it.d.body, count)) && headers.fields == old(headers.fields)
    {
      var retryCount := GetRetryCount(headers);
      if retryCount < MAX_RETRIES {
        RequeueMessage(it, headers, retryCount + 1, now);
      } else {
        SendToDeadLetter(key, it.d.body, retryCount);
      }
    }

    /** The end of an attempt that succeeded. */
    method Complete(key: Key)
      requires key in rows
      modifies this`rows, this`logs
      ensures rows == old(rows)[key := old(rows)[key].(status := Completed)] && logs == old(logs) + [LogRow(key, Finished)]
    {
      UpdateMessageStatus(key, Completed);
      LogProcessingEvent(key, Finished);
    }

    /** The end of an attempt that failed. */
    method Fail(it: Item, key: Key, headers: HeaderTable, now: int)
      requires it.Job? && key == KeyOf(it) && headers.fields == it.d.headers
      modifies this`logs, this`flight, this`waits, this`dead, headers
      ensures var count := RetryCount(old(headers.fields));
              var s := old(AddLog(State(), key, Failed));
              if count < MAX_RETRIES then
                && State() == Requeue(s, it, count + 1, now) && |flight| == |old(flight)| + 1
                && headers.fields == RequeuedHeaders(old(headers.fields), count + 1, now)
                && StampedAgain(old(headers.fields), headers.fields, count + 1, now)
                && flight[|old(flight)|] == Delayed(QueueName(it.tenant), Delivery(headers.fields, it.d.body), Square(count + 1))
              else State() == MessageLifecycle.SendToDeadLetter(s, key, it.d.body, count) && headers.fields == old(headers.fields)
    {
      LogProcessingEvent(key, Failed);
      RouteFailure(it, key, headers, now);
    }

    /** One attempt at the delivery that job i holds.  What is left of the job is to give its token back. */
    method ProcessMessage(i: nat, headers: HeaderTable, outcome: Outcome, now: int)
      requires i < |flight| && flight[i].Job? && flight[i].pc.Begin? && headers.fields == flight[i].d.headers
      modifies this, headers
      ensures State() == old(Attempted(State(), i, outcome, now))
      ensures headers.fields == if !outcome.Stored? && RetryCount(old(headers.fields)) < MAX_RETRIES
                                then RequeuedHeaders(old(headers.fields), RetryCount(old(headers.fields)) + 1, now)
                                else old(headers.fields)
      ensures !outcome.Stored? && RetryCount(old(headers.fields)) < MAX_RETRIES ==>
                && StampedAgain(old(headers.fields), headers.fields, RetryCount(old(headers.fields)) + 1, now)
                && |flight| == |old(flight)| + 1 && flight[|old(flight)|].Delayed? && flight[|old(flight)|].d.headers == headers.fields
    {
      var it := flight[i];
      var messageID := MessageIdOf(headers);
      var key := Key(it.tenant, messageID);
      flight := flight[i := it.(pc := GiveBack)];
      LogProcessingEvent(key, Started);
      var ok := HandleBusinessLogic(key, it.d.body, outcome);
      if !ok {
        Fail(it, key, headers, now);
        assert logs == old(logs) + [LogRow(key, Started), LogRow(key, Failed)];
        return;
      }
      Complete(key);
      assert logs == old(logs) + [LogRow(key, Started), LogRow(key, Finished)];
    }
  }
}
