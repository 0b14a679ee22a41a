/** The headers of a message from publication on: every holder carries those that Publish wrote, as the broker
    hands them back, and nothing but the retry headers is ever added. */
module LifecycleHeaders {
  import opened Deliveries
  import opened Sums
  import opened MessageLifecycle
  import opened LifecycleInvariant
  import opened LifecycleSteps
  import opened LifecycleTheorems
  import opened LifecycleTermination

  /** A value after k deliveries by the broker. */
  function Delivered(back: int -> HeaderValue, v: HeaderValue, k: nat): HeaderValue {
    if k == 0 then v
    else var w := Delivered(back, v, k - 1); if w.GoInt? then back(w.n) else w
  }

  /** Where integers come back under another type, the first delivery settles a value. */
  lemma {:induction false} LostSettled(back: int -> HeaderValue, n: int, k: nat)
    requires LosesInt(back) && 1 <= k
    ensures Delivered(back, GoInt(n), k) == back(n)
  {
    assert !back(n).GoInt?;
    if k != 1 {
      LostSettled(back, n, k - 1);
    } else {
      assert Delivered(back, GoInt(n), 0) == GoInt(n);
    }
  }

  /** With integer headers intact no value ever changes. */
  lemma {:induction false} KeptUnchanged(back: int -> HeaderValue, v: HeaderValue, k: nat)
    requires KeepsInt(back)
    ensures Delivered(back, v, k) == v
  {
    if k != 0 {
      KeptUnchanged(back, v, k - 1);
    }
  }

  /** Name and value are in the table. */
  predicate Has(h: Headers, name: string, v: HeaderValue) {
    name in h && h[name] == v
  }

  const RETRY_NAMES := {"retry_count", "retry_timestamp"}
  const PUBLISHED_NAMES := {"message_id", "tenant_id", "priority", "created_at", "scheduled_at"}

  /** The headers that publication e wrote, after k deliveries, and perhaps retry headers. */
  predicate Stamped(back: int -> HeaderValue, e: Event, k: nat, h: Headers)
    requires e.Publish?
  {
    && Has(h, "message_id", Text(e.id)) && Has(h, "tenant_id", Text(e.tenant))
    && Has(h, "priority", Delivered(back, GoInt(e.priority), k)) && Has(h, "created_at", Int64(e.now))
    && ("scheduled_at" in h <==> e.scheduled.Some? && e.now < e.scheduled.value)
    && ("scheduled_at" in h ==> h["scheduled_at"] == Int64(e.scheduled.value))
    && h.Keys <= PUBLISHED_NAMES + RETRY_NAMES
  }

  lemma PublishedStamp(back: int -> HeaderValue, e: Event)
    requires e.Publish?
    ensures Stamped(back, e, 0, PublishedHeaders(e.tenant, e.id, e.priority, e.now, e.scheduled))
  {
    assert |"message_id"| == 10 && |"tenant_id"| == 9 && |"priority"| == 8 && |"created_at"| == 10 && |"scheduled_at"| == 12;
    assert "message_id"[0] != "created_at"[0];
  }

  lemma WiredStamp(back: int -> HeaderValue, e: Event, k: nat, h: Headers)
    requires e.Publish? && Stamped(back, e, k, h)
    ensures Stamped(back, e, k + 1, Wire(back, h))
  {
    assert Wire(back, h).Keys == h.Keys;
  }

  lemma RequeuedStamp(back: int -> HeaderValue, e: Event, k: nat, h: Headers, count: int, now: int)
    requires e.Publish? && Stamped(back, e, k, h)
    ensures Stamped(back, e, k, RequeuedHeaders(h, count, now))
  {
    assert |"message_id"| == 10 && |"tenant_id"| == 9 && |"priority"| == 8 && |"created_at"| == 10 && |"scheduled_at"| == 12;
    assert |"retry_count"| == 11 && |"retry_timestamp"| == 15;
  }

  // ---- What a run has published and delivered ----

  /** The publication of each message, and how often the broker has delivered it. */
  datatype History = History(sent: map<Key, Event>, delivered: map<Key, nat>)

  const NOTHING := History(map[], map[])

  function Next(h: History, s: System, e: Event): History
    requires Enabled(s, e)
  {
    match e
    case Publish(t, id, _, _, _, _, sent) =>
      if sent then History(h.sent[Key(t, id) := e], h.delivered[Key(t, id) := 0]) else h
    case Receive(i) =>
      var key := KeyOf(s.flight[i]);
      h.(delivered := h.delivered[key := if key in h.delivered then h.delivered[key] + 1 else 1])
    case _ => h
  }

  function HistoryOf(back: int -> HeaderValue, s: System, es: seq<Event>, h: History): History
    requires Legal(back, s, es)
    decreases |es|
  {
    if es == [] then h else HistoryOf(back, Apply(back, s, es[0]), es[1..], Next(h, s, es[0]))
  }

  /** A holder carries what its publication wrote. */
  predicate Bears(back: int -> HeaderValue, h: History, it: Item) {
    var key := KeyOf(it);
    && key in h.sent && key in h.delivered
    && var e := h.sent[key];
       e.Publish? && e.sent && Key(e.tenant, e.id) == key && it.d.body == e.payload && Stamped(back, e, h.delivered[key], it.d.headers)
  }

  ghost predicate AllBear(back: int -> HeaderValue, h: History, xs: seq<Item>) {
    forall it :: it in xs && Holds(it) ==> Bears(back, h, it)
  }

  // ---- One step ----

  /** The histories agree on all messages but one. */
  predicate SameBut(h: History, h': History, key: Key) {
    && (forall k :: k in h.sent && k != key ==> k in h'.sent && h'.sent[k] == h.sent[k])
    && (forall k :: k in h.delivered && k != key ==> k in h'.delivered && h'.delivered[k] == h.delivered[k])
  }

  lemma OthersBear(back: int -> HeaderValue, h: History, h': History, it: Item, key: Key)
    requires Bears(back, h, it) && SameBut(h, h', key) && KeyOf(it) != key
    ensures Bears(back, h', it)
  {
  }

  /** A new message that no holder has yet. */
  lemma PublishBears(back: int -> HeaderValue, s: System, e: Event, h: History)
    requires (forall it :: it in s.flight && Holds(it) ==> KeyOf(it) in s.rows)
    requires Enabled(s, e) && e.Publish? && e.sent && AllBear(back, h, s.flight)
    ensures AllBear(back, Next(h, s, e), s.flight + [Arrival(e)])
  {
    var key, h', x := Key(e.tenant, e.id), Next(h, s, e), Arrival(e);
    PublishedStamp(back, e);
    PublishedTexts(e.tenant, e.id, e.priority, e.now, e.scheduled);
    QueueNameInverse(e.tenant);
    assert Bears(back, h', x);
    forall it | it in s.flight && Holds(it)
      ensures Bears(back, h', it)
    {
      OthersBear(back, h, h', it, key);
    }
  }

  lemma ReceivedBears(back: int -> HeaderValue, h: History, h': History, it: Item)
    requires it.Queued? && Bears(back, h, it)
    requires KeyOf(it) in h'.delivered && h'.delivered[KeyOf(it)] == h.delivered[KeyOf(it)] + 1 && h'.sent == h.sent
    ensures Bears(back, h', Held(QueueTenant(it.queue), it.d.(headers := Wire(back, it.d.headers))))
  {
    WiredStamp(back, h.sent[KeyOf(it)], h.delivered[KeyOf(it)], it.d.headers);
  }

  lemma ReceiveBears(back: int -> HeaderValue, s: System, i: nat, h: History)
    requires Conserved(s) && Enabled(s, Receive(i)) && AllBear(back, h, s.flight)
    ensures var it := s.flight[i];
            AllBear(back, Next(h, s, Receive(i)), s.flight[i := Held(QueueTenant(it.queue), it.d.(headers := Wire(back, it.d.headers)))])
  {
    var it, h' := s.flight[i], Next(h, s, Receive(i));
    var xs := s.flight[i := Held(QueueTenant(it.queue), it.d.(headers := Wire(back, it.d.headers)))];
    assert it in s.flight;
    ReceivedBears(back, h, h', it);
    forall x | x in xs && Holds(x)
      ensures Bears(back, h', x)
    {
      var j :| 0 <= j < |xs| && xs[j] == x;
      if j != i {
        assert x == s.flight[j] && x in s.flight;
        OnlyHolder(s, i, j);
        OthersBear(back, h, h', x, KeyOf(it));
      }
    }
  }

  lemma AgainBears(back: int -> HeaderValue, h: History, it: Item, now: int)
    requires it.Job? && Bears(back, h, it)
    ensures Bears(back, h, Again(it, now))
  {
    AgainKey(it, now);
    RequeuedStamp(back, h.sent[KeyOf(it)], h.delivered[KeyOf(it)], it.d.headers, RetryCount(it.d.headers) + 1, now);
  }

  lemma WorkBears(back: int -> HeaderValue, s: System, i: nat, outcome: Outcome, now: int, h: History)
    requires Enabled(s, Work(i, outcome, now)) && AllBear(back, h, s.flight)
    ensures AllBear(back, h, Apply(back, s, Work(i, outcome, now)).flight)
  {
    var it := s.flight[i];
    assert it in s.flight;
    WorkMoves(back, s, i, outcome, now);
    if it.pc.Route? {
      AgainBears(back, h, it, now);
    }
  }

  /** A holder that moves on with its delivery. */
  lemma MovedBears(back: int -> HeaderValue, h: History, xs: seq<Item>, i: nat, x: Item)
    requires i < |xs| && Holds(xs[i]) && AllBear(back, h, xs) && x.d == xs[i].d && KeyOf(x) == KeyOf(xs[i])
    ensures AllBear(back, h, xs[i := x]) && AllBear(back, h, Without(xs, i) + [x])
  {
    assert xs[i] in xs;
  }

  lemma StepBears(back: int -> HeaderValue, s: System, e: Event, h: History)
    requires Inv(back, s) && Enabled(s, e) && AllBear(back, h, s.flight)
    ensures AllBear(back, Next(h, s, e), Apply(back, s, e).flight)
  {
    match e
    case Publish(_, _, _, _, _, _, sent) =>
      if sent {
        PublishBears(back, s, e, h);
      }
    case Receive(i) => ReceiveBears(back, s, i, h);
    case Take(i) => MovedBears(back, h, s.flight, i, Job(s.flight[i].tenant, s.flight[i].d, Begin));
    case Work(i, outcome, now) => WorkBears(back, s, i, outcome, now, h);
    case Fire(i) => MovedBears(back, h, s.flight, i, Queued(s.flight[i].queue, s.flight[i].d));
    case Update(_, _) =>
  }

  lemma {:induction false} RunBears(back: int -> HeaderValue, s: System, es: seq<Event>, h: History)
    requires Inv(back, s) && Legal(back, s, es) && AllBear(back, h, s.flight)
    ensures AllBear(back, HistoryOf(back, s, es, h), Final(back, s, es).flight)
    decreases |es|
  {
    if es != [] {
      StepBears(back, s, es[0], h);
      StepKeepsInv(back, s, es[0]);
      RunBears(back, Apply(back, s, es[0]), es[1..], Next(h, s, es[0]));
    }
  }

  /** What the history calls sent was sent in the run. */
  lemma {:induction false} SentInRun(back: int -> HeaderValue, s: System, es: seq<Event>, h: History, key: Key)
    requires Legal(back, s, es)
    ensures var q := HistoryOf(back, s, es, h);
            key in q.sent ==> (key in h.sent && q.sent[key] == h.sent[key]) || q.sent[key] in es
    decreases |es|
  {
    if es != [] {
      SentInRun(back, Apply(back, s, es[0]), es[1..], Next(h, s, es[0]), key);
    }
  }

  /** How often a run has delivered a message. */
  function TimesDelivered(back: int -> HeaderValue, s: System, es: seq<Event>, key: Key): nat
    requires Legal(back, s, es)
  {
    var h := HistoryOf(back, s, es, NOTHING);
    if key in h.delivered then h.delivered[key] else 0
  }

  /** Every holder carries the body and every header that its Publish call wrote: texts, the creation time and
      the schedule unchanged, the priority as the broker hands it back after as many deliveries as there
      were; and beside these only the retry headers. */
  lemma HeadersCarried(back: int -> HeaderValue, s: System, es: seq<Event>, i: nat) returns (e: Event)
    requires Init(s) && Legal(back, s, es) && i < |Final(back, s, es).flight|
    requires Holds(Final(back, s, es).flight[i])
    ensures e in es && e.Publish?
    ensures var it := Final(back, s, es).flight[i];
            && Publishes(e, KeyOf(it), it.d.body)
            && Stamped(back, e, TimesDelivered(back, s, es, KeyOf(it)), it.d.headers)
  {
    InitInv(back, s);
    RunBears(back, s, es, NOTHING);
    var it, h := Final(back, s, es).flight[i], HistoryOf(back, s, es, NOTHING);
    assert it in Final(back, s, es).flight;
    SentInRun(back, s, es, NOTHING, KeyOf(it));
    e := h.sent[KeyOf(it)];
  }

  /** With integer headers intact, the priority is the one given to Publish. */
  lemma PriorityKept(back: int -> HeaderValue, s: System, es: seq<Event>, i: nat) returns (e: Event)
    requires KeepsInt(back) && Init(s) && Legal(back, s, es) && i < |Final(back, s, es).flight|
    requires Holds(Final(back, s, es).flight[i])
    ensures e in es && e.Publish?
    ensures var it := Final(back, s, es).flight[i];
            Publishes(e, KeyOf(it), it.d.body) && Has(it.d.headers, "priority", GoInt(e.priority))
  {
    e := HeadersCarried(back, s, es, i);
    KeptUnchanged(back, GoInt(e.priority), TimesDelivered(back, s, es, KeyOf(Final(back, s, es).flight[i])));
  }
}
