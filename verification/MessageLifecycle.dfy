/** The life of messages as a step machine: publication, the broker's queues, the consumer loops, the
    worker goroutines statement by statement, delayed requeues and the database tables they write. */
module MessageLifecycle {
  import opened Deliveries
  import opened Sums
  import W = WorkerPool

  datatype Key = Key(tenant: string, id: string)

  /** The next statement of a worker goroutine. */
  datatype Pc = Begin | Run | LogFailed | Route | MarkCompleted | LogCompleted | Ack | GiveBack

  /** Whatever holds a delivery: a queue entry, a consumer loop that waits for a token, a worker
      goroutine, or a goroutine that sleeps before it publishes again. */
  datatype Item =
    | Queued(queue: string, d: Delivery)
    | Held(tenant: string, d: Delivery)
    | Job(tenant: string, d: Delivery, pc: Pc)
    | Delayed(queue: string, d: Delivery, seconds: nat)

  datatype Status = Pending | Processing | Completed
  datatype Row = Row(payload: string, status: Status)
  datatype LogStatus = Started | Failed | Finished
  datatype LogRow = LogRow(key: Key, status: LogStatus)
  datatype DeadRow = DeadRow(key: Key, payload: string, retryCount: int)
  datatype Wait = Wait(key: Key, seconds: nat)

  /** The part of a consumer's token pool that is not goroutines. */
  datatype Slots = Slots(cap: nat, tokens: nat, workerCount: int, updater: W.Updater)

  datatype System = System(
    flight: seq<Item>,           // in arrival order, so the entries of one queue are first in, first out
    rows: map<Key, Row>,         // table messages
    logs: seq<LogRow>,           // table message_processing_logs
    dead: seq<DeadRow>,          // table dead_letter_messages
    slots: map<string, Slots>,   // the consumers, by tenant
    published: map<Key, string>, // history: what Publish accepted
    waits: seq<Wait>             // history: the requeues and their delays
  )

  /** What handleBusinessLogic comes back with. */
  datatype Outcome = Stored | ParseError | StoreError

  datatype Event =
    | Publish(tenant: string, id: string, payload: string, priority: int, now: int, scheduled: Option<int>, sent: bool)
    | Receive(i: nat)
    | Take(i: nat)
    | Work(i: nat, outcome: Outcome, now: int)
    | Fire(i: nat)
    | Update(tenant: string, u: W.Event)

  function TenantOf(it: Item): string {
    match it
    case Queued(queue, _) => QueueTenant(queue)
    case Delayed(queue, _, _) => QueueTenant(queue)
    case Held(tenant, _) => tenant
    case Job(tenant, _, _) => tenant
  }

  function KeyOf(it: Item): Key {
    Key(TenantOf(it), MessageId(it.d.headers))
  }

  /** Consumers as StartConsumer leaves them, and nothing published yet. */
  predicate Init(s: System) {
    && s.flight == [] && s.rows == map[] && s.logs == [] && s.dead == [] && s.published == map[] && s.waits == []
    && forall t :: t in s.slots ==>
         s.slots[t].updater.Idle? && 1 <= s.slots[t].cap && s.slots[t].tokens == s.slots[t].cap == s.slots[t].workerCount
  }

  function AsPool(c: Slots): W.Pool {
    W.Pool(c.cap, c.tokens, 0, 0, W.Selecting, c.workerCount, c.updater)
  }

  function AsSlots(p: W.Pool): Slots {
    Slots(p.cap, p.tokens, p.workerCount, p.updater)
  }

  /** The updater's steps on a buffered channel. */
  predicate Resizes(u: W.Event) {
    W.OfUpdater(u) && !u.AddToLoop? && !u.RemoveFromSender?
  }

  predicate Enabled(s: System, e: Event) {
    match e
    case Publish(t, id, _, _, _, _, _) => t in s.slots && Key(t, id) !in s.rows
    case Receive(i) =>
      && i < |s.flight| && s.flight[i].Queued?
      && var t := QueueTenant(s.flight[i].queue);
         && t in s.slots && QueueName(t) == s.flight[i].queue
         && (forall j :: 0 <= j < |s.flight| && s.flight[j].Held? ==> s.flight[j].tenant != t)
         && (forall j :: 0 <= j < i && s.flight[j].Queued? ==> s.flight[j].queue != s.flight[i].queue)
    case Take(i) =>
      i < |s.flight| && s.flight[i].Held? && s.flight[i].tenant in s.slots && 0 < s.slots[s.flight[i].tenant].tokens
    case Work(i, _, _) =>
      && i < |s.flight| && s.flight[i].Job? && s.flight[i].tenant in s.slots
      && (s.flight[i].pc.GiveBack? ==>
            s.slots[s.flight[i].tenant].tokens < s.slots[s.flight[i].tenant].cap)
    case Fire(i) => i < |s.flight| && s.flight[i].Delayed?
    case Update(t, u) => t in s.slots && Resizes(u) && W.Enabled(AsPool(s.slots[t]), u)
  }

  function WithTokens(s: System, t: string, tokens: nat): System
    requires t in s.slots
  {
    s.(slots := s.slots[t := s.slots[t].(tokens := tokens)])
  }

  function AddLog(s: System, key: Key, status: LogStatus): System {
    s.(logs := s.logs + [LogRow(key, status)])
  }

  /** INSERT ... ON CONFLICT (id, tenant_id) DO UPDATE SET status = 'processing'. */
  function StoreMessage(s: System, key: Key, payload: string): System {
    s.(rows := s.rows[key := Row(if key in s.rows then s.rows[key].payload else payload, Processing)])
  }

  /** UPDATE messages SET status = ... WHERE id = ... AND tenant_id = .... */
  function UpdateMessageStatus(s: System, key: Key, status: Status): System {
    if key in s.rows then s.(rows := s.rows[key := s.rows[key].(status := status)]) else s
  }

  function Requeue(s: System, it: Item, retryCount: int, now: int): System
    requires it.Job?
  {
    var d := it.d.(headers := RequeuedHeaders(it.d.headers, retryCount, now));
    s.(flight := s.flight + [Delayed(QueueName(it.tenant), d, Square(retryCount))],
       waits := s.waits + [Wait(KeyOf(it), Square(retryCount))])
  }

  function SendToDeadLetter(s: System, key: Key, payload: string, retryCount: int): System {
    s.(dead := s.dead + [DeadRow(key, payload, retryCount)])
  }

  function NextPc(it: Item, outcome: Outcome): Pc
    requires it.Job? && !it.pc.GiveBack?
  {
    match it.pc
    case Begin => Run
    case Run => if outcome.Stored? then MarkCompleted else LogFailed
    case LogFailed => Route
    case Route => Ack
    case MarkCompleted => LogCompleted
    case LogCompleted => Ack
    case Ack => GiveBack
  }

  /** What one statement of processMessage does to the tables and the broker. */
  function Effect(s: System, it: Item, outcome: Outcome, now: int): System
    requires it.Job?
  {
    match it.pc
    case Begin => AddLog(s, KeyOf(it), Started)
    case Run => if outcome.Stored? then StoreMessage(s, KeyOf(it), it.d.body) else s
    case LogFailed => AddLog(s, KeyOf(it), Failed)
    case Route =>
      var count := RetryCount(it.d.headers);
      if count < MAX_RETRIES then Requeue(s, it, count + 1, now)
      else SendToDeadLetter(s, KeyOf(it), it.d.body, count)
    case MarkCompleted => UpdateMessageStatus(s, KeyOf(it), Completed)
    case LogCompleted => AddLog(s, KeyOf(it), Finished)
    case Ack => s
    case GiveBack => s
  }

  function DoPublish(s: System, e: Event): System
    requires e.Publish?
  {
    var key := Key(e.tenant, e.id);
    var inserted := s.(rows := s.rows[key := Row(e.payload, Pending)]);
    if !e.sent then inserted
    else
      var d := Delivery(PublishedHeaders(e.tenant, e.id, e.priority, e.now, e.scheduled), e.payload);
      inserted.(flight := s.flight + [Queued(QueueName(e.tenant), d)],
                published := s.published[key := e.payload])
  }

  function DoWork(s: System, i: nat, outcome: Outcome, now: int): System
    requires Enabled(s, Work(i, outcome, now))
  {
    var it := s.flight[i];
    if it.pc.GiveBack? then
      WithTokens(s, it.tenant, s.slots[it.tenant].tokens + 1).(flight := Without(s.flight, i))
    else
      Effect(s.(flight := s.flight[i := it.(pc := NextPc(it, outcome))]), it, outcome, now)
  }

  function Apply(back: int -> HeaderValue, s: System, e: Event): System
    requires Enabled(s, e)
  {
    match e
    case Publish(_, _, _, _, _, _, _) => DoPublish(s, e)
    case Receive(i) =>
      var it := s.flight[i];
      var d := it.d.(headers := Wire(back, it.d.headers));
      s.(flight := s.flight[i := Held(QueueTenant(it.queue), d)])
    case Take(i) =>
      var it := s.flight[i];
      WithTokens(s, it.tenant, s.slots[it.tenant].tokens - 1).(flight := s.flight[i := Job(it.tenant, it.d, Begin)])
    case Work(i, outcome, now) => DoWork(s, i, outcome, now)
    case Fire(i) =>
      var it := s.flight[i];
      s.(flight := Without(s.flight, i) + [Queued(it.queue, it.d)])
    case Update(t, u) =>
      s.(slots := s.slots[t := AsSlots(W.Apply(AsPool(s.slots[t]), u))])
  }

  predicate Legal(back: int -> HeaderValue, s: System, es: seq<Event>)
    decreases |es|
  {
    es == [] || (Enabled(s, es[0]) && Legal(back, Apply(back, s, es[0]), es[1..]))
  }

  function Final(back: int -> HeaderValue, s: System, es: seq<Event>): System
    requires Legal(back, s, es)
    decreases |es|
  {
    if es == [] then s else Final(back, Apply(back, s, es[0]), es[1..])
  }

  lemma {:induction false} RunAppend(back: int -> HeaderValue, s: System, es: seq<Event>, fs: seq<Event>)
    requires Legal(back, s, es) && Legal(back, Final(back, s, es), fs)
    ensures Legal(back, s, es + fs)
    ensures Final(back, s, es + fs) == Final(back, Final(back, s, es), fs)
    decreases |es|
  {
    if es == [] {
      assert es + fs == fs;
    } else {
      assert (es + fs)[0] == es[0] && (es + fs)[1..] == es[1..] + fs;
      RunAppend(back, Apply(back, s, es[0]), es[1..], fs);
    }
  }
}
