/** Every message comes to an end: a measure falls with each step on a message, and where no such
    step is left, nothing is in flight. */
module LifecycleTermination {
  import opened Sums
  import opened Deliveries
  import opened MessageLifecycle
  import opened LifecycleInvariant
  import opened LifecycleSteps
  import opened LifecycleTheorems
  import opened LifecyclePools
  import W = WorkerPool

  // ---- The retries that are left ----

  /** What the attempt after one that read r reads. */
  function NextRead(back: int -> HeaderValue, r: int): int {
    Read(back(r + 1))
  }

  /** After a read of r, at most k more attempts pass before one reads the maximum. */
  predicate Within(back: int -> HeaderValue, r: int, k: nat)
    decreases k
  {
    MAX_RETRIES <= r || (k != 0 && Within(back, NextRead(back, r), k - 1))
  }

  /** How many do, up to k. */
  function Left(back: int -> HeaderValue, r: int, k: nat): nat
    decreases k
  {
    if MAX_RETRIES <= r || k == 0 then 0 else 1 + Left(back, NextRead(back, r), k - 1)
  }

  lemma {:induction false} WithinMore(back: int -> HeaderValue, r: int, k: nat)
    requires Within(back, r, k)
    ensures Within(back, r, k + 1) && Left(back, r, k + 1) == Left(back, r, k)
    decreases k
  {
    if r < MAX_RETRIES {
      WithinMore(back, NextRead(back, r), k - 1);
    }
  }

  /** A failed attempt uses up one. */
  lemma LeftFalls(back: int -> HeaderValue, r: int, k: nat)
    requires Within(back, r, k) && r < MAX_RETRIES
    ensures Within(back, NextRead(back, r), k) && Left(back, r, k) == 1 + Left(back, NextRead(back, r), k)
  {
    WithinMore(back, NextRead(back, r), k - 1);
  }

  /** If attempt j + k of a message reads the maximum, then attempt j is within k of it. */
  lemma {:induction false} ReadAtWithin(back: int -> HeaderValue, j: nat, k: nat)
    requires MAX_RETRIES <= ReadAt(back, j + k)
    ensures Within(back, ReadAt(back, j), k)
    decreases k
  {
    if k != 0 {
      ReadAtWithin(back, j + 1, k - 1);
    }
  }

  lemma {:induction false} KeptReadWithin(back: int -> HeaderValue, r: int, k: nat)
    requires KeepsInt(back) && MAX_RETRIES <= r + k
    ensures Within(back, r, k)
    decreases k
  {
    if r < MAX_RETRIES {
      KeptReadWithin(back, r + 1, k - 1);
    }
  }

  /** The retry count that a holder's attempt reads, or will read. */
  function Reads(back: int -> HeaderValue, it: Item): int {
    RetryCount(if it.Queued? || it.Delayed? then Wire(back, it.d.headers) else it.d.headers)
  }

  ghost predicate AllWithin(back: int -> HeaderValue, xs: seq<Item>, k: nat) {
    forall it :: it in xs ==> Within(back, Reads(back, it), k)
  }

  lemma RequeueReads(back: int -> HeaderValue, it: Item, now: int)
    requires it.Job?
    ensures Reads(back, Again(it, now)) == NextRead(back, RetryCount(it.d.headers))
  {
    RequeuedTexts(it.d.headers, RetryCount(it.d.headers) + 1, now);
  }

  // ---- The measure ----

  /** The most steps that can still follow from one holder. */
  function WeightOf(back: int -> HeaderValue, k: nat, it: Item): nat {
    var left := 9 * Left(back, Reads(back, it), k);
    match it
    case Delayed(_, _, _) => left + 9
    case Queued(_, _) => left + 8
    case Held(_, _) => left + 7
    case Job(_, _, pc) =>
      match pc
      case Begin => left + 6
      case Run => left + 5
      case LogFailed => left + 4
      case MarkCompleted => 4
      case Route => left + 3
      case LogCompleted => 3
      case Ack => 2
      case GiveBack => 1
  }

  function Weight(back: int -> HeaderValue, k: nat): Item -> nat {
    (it: Item) => WeightOf(back, k, it)
  }

  function Measure(back: int -> HeaderValue, k: nat, s: System): nat {
    Sum(s.flight, Weight(back, k))
  }

  predicate MessageStep(e: Event) {
    e.Receive? || e.Take? || e.Work? || e.Fire?
  }

  lemma EffectFlight(s: System, it: Item, outcome: Outcome, now: int)
    requires it.Job?
    ensures Effect(s, it, outcome, now).flight
            == if it.pc.Route? && RetryCount(it.d.headers) < MAX_RETRIES then s.flight + [Again(it, now)] else s.flight
  {
  }

  lemma RequeueLighter(back: int -> HeaderValue, k: nat, it: Item, now: int)
    requires it.Job? && it.pc.Route? && RetryCount(it.d.headers) < MAX_RETRIES && Within(back, Reads(back, it), k)
    ensures Within(back, Reads(back, Again(it, now)), k)
    ensures WeightOf(back, k, Again(it, now)) + WeightOf(back, k, it.(pc := Ack)) < WeightOf(back, k, it)
  {
    RequeueReads(back, it, now);
    LeftFalls(back, RetryCount(it.d.headers), k);
  }

  lemma JobLighter(back: int -> HeaderValue, k: nat, it: Item, outcome: Outcome)
    requires it.Job? && !it.pc.GiveBack?
    ensures Reads(back, it.(pc := NextPc(it, outcome))) == Reads(back, it)
    ensures WeightOf(back, k, it.(pc := NextPc(it, outcome))) < WeightOf(back, k, it)
  {
  }

  /** The deliveries in flight after one statement of a job. */
  function Moved(xs: seq<Item>, i: nat, outcome: Outcome, now: int): seq<Item>
    requires i < |xs| && xs[i].Job? && !xs[i].pc.GiveBack?
  {
    var moved := xs[i := xs[i].(pc := NextPc(xs[i], outcome))];
    if xs[i].pc.Route? && RetryCount(xs[i].d.headers) < MAX_RETRIES then moved + [Again(xs[i], now)] else moved
  }

  lemma MovedWithin(back: int -> HeaderValue, k: nat, xs: seq<Item>, i: nat, outcome: Outcome, now: int)
    requires i < |xs| && xs[i].Job? && !xs[i].pc.GiveBack? && AllWithin(back, xs, k)
    ensures AllWithin(back, Moved(xs, i, outcome, now), k)
  {
    assert xs[i] in xs;
    JobLighter(back, k, xs[i], outcome);
    if xs[i].pc.Route? && RetryCount(xs[i].d.headers) < MAX_RETRIES {
      RequeueLighter(back, k, xs[i], now);
    }
  }

  lemma MovedDecreases(back: int -> HeaderValue, k: nat, xs: seq<Item>, i: nat, outcome: Outcome, now: int)
    requires i < |xs| && xs[i].Job? && !xs[i].pc.GiveBack? && Within(back, Reads(back, xs[i]), k)
    ensures Sum(Moved(xs, i, outcome, now), Weight(back, k)) < Sum(xs, Weight(back, k))
  {
    var it' := xs[i].(pc := NextPc(xs[i], outcome));
    SumUpdate(xs, i, it', Weight(back, k));
    if xs[i].pc.Route? && RetryCount(xs[i].d.headers) < MAX_RETRIES {
      RequeueLighter(back, k, xs[i], now);
      SumSnoc(xs[i := it'], Again(xs[i], now), Weight(back, k));
    } else {
      JobLighter(back, k, xs[i], outcome);
    }
  }

  lemma WorkMoves(back: int -> HeaderValue, s: System, i: nat, outcome: Outcome, now: int)
    requires Enabled(s, Work(i, outcome, now))
    ensures Apply(back, s, Work(i, outcome, now)).flight
            == if s.flight[i].pc.GiveBack? then Without(s.flight, i) else Moved(s.flight, i, outcome, now)
  {
    var it := s.flight[i];
    if !it.pc.GiveBack? {
      EffectFlight(s.(flight := s.flight[i := it.(pc := NextPc(it, outcome))]), it, outcome, now);
    }
  }

  /** Without new publications all deliveries stay within k. */
  lemma StepWithin(back: int -> HeaderValue, k: nat, s: System, e: Event)
    requires Enabled(s, e) && !e.Publish? && AllWithin(back, s.flight, k)
    ensures AllWithin(back, Apply(back, s, e).flight, k)
  {
    if e.Work? {
      WorkMoves(back, s, e.i, e.outcome, e.now);
      if !s.flight[e.i].pc.GiveBack? {
        MovedWithin(back, k, s.flight, e.i, e.outcome, e.now);
      }
    } else if !e.Update? {
      assert s.flight[e.i] in s.flight;
    }
  }

  lemma ReceivedLighter(back: int -> HeaderValue, k: nat, xs: seq<Item>, i: nat)
    requires i < |xs| && xs[i].Queued?
    ensures var it := Held(QueueTenant(xs[i].queue), xs[i].d.(headers := Wire(back, xs[i].d.headers)));
            Sum(xs[i := it], Weight(back, k)) < Sum(xs, Weight(back, k))
  {
    SumUpdate(xs, i, Held(QueueTenant(xs[i].queue), xs[i].d.(headers := Wire(back, xs[i].d.headers))), Weight(back, k));
  }

  lemma TakenLighter(back: int -> HeaderValue, k: nat, xs: seq<Item>, i: nat)
    requires i < |xs| && xs[i].Held?
    ensures Sum(xs[i := Job(xs[i].tenant, xs[i].d, Begin)], Weight(back, k)) < Sum(xs, Weight(back, k))
  {
    SumUpdate(xs, i, Job(xs[i].tenant, xs[i].d, Begin), Weight(back, k));
  }

  lemma FiredLighter(back: int -> HeaderValue, k: nat, xs: seq<Item>, i: nat)
    requires i < |xs| && xs[i].Delayed?
    ensures Sum(Without(xs, i) + [Queued(xs[i].queue, xs[i].d)], Weight(back, k)) < Sum(xs, Weight(back, k))
  {
    SumWithout(xs, i, Weight(back, k));
    SumSnoc(Without(xs, i), Queued(xs[i].queue, xs[i].d), Weight(back, k));
  }

  /** Where every delivery in flight is within k attempts of the maximum, each step on a message lowers the
      measure and a concurrency update leaves it alone. */
  lemma StepDecreases(back: int -> HeaderValue, k: nat, s: System, e: Event)
    requires Enabled(s, e) && !e.Publish? && AllWithin(back, s.flight, k)
    ensures MessageStep(e) ==> Measure(back, k, Apply(back, s, e)) < Measure(back, k, s)
    ensures e.Update? ==> Measure(back, k, Apply(back, s, e)) == Measure(back, k, s)
  {
    match e
    case Receive(i) => ReceivedLighter(back, k, s.flight, i);
    case Take(i) => TakenLighter(back, k, s.flight, i);
    case Work(i, outcome, now) =>
      WorkMoves(back, s, i, outcome, now);
      if s.flight[i].pc.GiveBack? {
        SumWithout(s.flight, i, Weight(back, k));
      } else {
        assert s.flight[i] in s.flight;
        MovedDecreases(back, k, s.flight, i, outcome, now);
      }
    case Fire(i) => FiredLighter(back, k, s.flight, i);
    case Update(_, _) =>
  }

  function MessageSteps(es: seq<Event>): nat {
    if es == [] then 0 else (if MessageStep(es[0]) then 1 else 0) + MessageSteps(es[1..])
  }

  predicate NothingPublished(es: seq<Event>) {
    forall e :: e in es ==> !e.Publish?
  }

  /** When nothing new is published, the steps on messages are bounded by the measure, whatever else
      happens in between. */
  lemma {:induction false} RunsAreBounded(back: int -> HeaderValue, k: nat, s: System, es: seq<Event>)
    requires AllWithin(back, s.flight, k) && Legal(back, s, es) && NothingPublished(es)
    ensures MessageSteps(es) + Measure(back, k, Final(back, s, es)) <= Measure(back, k, s)
    decreases |es|
  {
    if es != [] {
      assert es[0] in es;
      StepDecreases(back, k, s, es[0]);
      StepWithin(back, k, s, es[0]);
      RunsAreBounded(back, k, Apply(back, s, es[0]), es[1..]);
    }
  }

  /** With integer headers intact every state has such a k, reached or not. */
  lemma KeptWithin(back: int -> HeaderValue, xs: seq<Item>) returns (k: nat)
    requires KeepsInt(back)
    ensures AllWithin(back, xs, k)
  {
    k := 0;
    for i := 0 to |xs|
      invariant AllWithin(back, xs[..i], k)
    {
      var r := Reads(back, xs[i]);
      if MAX_RETRIES < r + k {
        KeptReadWithin(back, r, k);
      } else {
        var k' := MAX_RETRIES - r;
        forall it | it in xs[..i]
          ensures Within(back, Reads(back, it), k')
        {
          WithinUpTo(back, Reads(back, it), k, k');
        }
        k := k';
        KeptReadWithin(back, r, k);
      }
    }
  }

  lemma {:induction false} WithinUpTo(back: int -> HeaderValue, r: int, k: nat, k': nat)
    requires Within(back, r, k) && k <= k'
    ensures Within(back, r, k')
    decreases k'
  {
    if k < k' {
      WithinUpTo(back, r, k, k' - 1);
      WithinMore(back, r, k' - 1);
    }
  }

  lemma PublishWithin(back: int -> HeaderValue, k: nat, s: System, e: Event)
    requires Enabled(s, e) && e.Publish? && AllWithin(back, s.flight, k) && MAX_RETRIES <= ReadAt(back, k)
    ensures AllWithin(back, Apply(back, s, e).flight, k)
  {
    ReadAtWithin(back, 0, k);
    PublishedTexts(e.tenant, e.id, e.priority, e.now, e.scheduled);
  }

  /** If attempt k of a message reads the maximum, every state that a run reaches is within k of it. */
  lemma {:induction false} ReachedWithin(back: int -> HeaderValue, k: nat, s: System, es: seq<Event>)
    requires AllWithin(back, s.flight, k) && Legal(back, s, es) && MAX_RETRIES <= ReadAt(back, k)
    ensures AllWithin(back, Final(back, s, es).flight, k)
    decreases |es|
  {
    if es != [] {
      if es[0].Publish? {
        PublishWithin(back, k, s, es[0]);
      } else {
        StepWithin(back, k, s, es[0]);
      }
      ReachedWithin(back, k, Apply(back, s, es[0]), es[1..]);
    }
  }

  // ---- Where runs end ----

  /** No step on a message is left. */
  ghost predicate Settled(s: System) {
    forall e :: MessageStep(e) ==> !Enabled(s, e)
  }

  /** A consumer that waits for a token can take one, or a goroutine of its tenant can move. */
  lemma HeldMoves(s: System, i: nat) returns (e: Event)
    requires i < |s.flight| && s.flight[i].Held? && s.flight[i].tenant in s.slots
    requires W.Covered(PoolView(s, s.flight[i].tenant))
    ensures MessageStep(e) && Enabled(s, e)
  {
    var t := s.flight[i].tenant;
    e := Take(i);
    if s.slots[t].tokens == 0 {
      var j: nat;
      if 0 < Sum(s.flight, WorkingFor(t)) {
        j := SumWitness(s.flight, WorkingFor(t));
      } else {
        j := SumWitness(s.flight, ReturningFor(t));
      }
      e := Work(j, Stored, 0);
    }
  }

  /** The first entry of a queue. */
  lemma {:induction false} FirstOfQueue(xs: seq<Item>, i: nat) returns (j: nat)
    requires i < |xs| && xs[i].Queued?
    ensures j <= i && xs[j].Queued? && xs[j].queue == xs[i].queue
    ensures forall k :: 0 <= k < j && xs[k].Queued? ==> xs[k].queue != xs[i].queue
  {
    j := i;
    if k :| 0 <= k < i && xs[k].Queued? && xs[k].queue == xs[i].queue {
      j := FirstOfQueue(xs, k);
    }
  }

  lemma QueuedMoves(s: System, i: nat) returns (e: Event)
    requires i < |s.flight| && s.flight[i].Queued? && Placed(s, s.flight[i])
    requires forall t :: t in s.slots ==> W.Covered(PoolView(s, t))
    ensures MessageStep(e) && Enabled(s, e)
  {
    var t := TenantOf(s.flight[i]);
    if h :| 0 <= h < |s.flight| && s.flight[h].Held? && s.flight[h].tenant == t {
      e := HeldMoves(s, h);
    } else {
      var j := FirstOfQueue(s.flight, i);
      e := Receive(j);
    }
  }

  /** Whatever holds a message can move, or something it waits for can. */
  lemma HolderMoves(s: System, i: nat) returns (e: Event)
    requires i < |s.flight| && Holds(s.flight[i]) && Placed(s, s.flight[i])
    requires forall t :: t in s.slots ==> W.Covered(PoolView(s, t))
    ensures MessageStep(e) && Enabled(s, e)
  {
    match s.flight[i]
    case Queued(_, _) => e := QueuedMoves(s, i);
    case Held(_, _) => e := HeldMoves(s, i);
    case Job(_, _, _) => e := Work(i, Stored, 0);
    case Delayed(_, _, _) => e := Fire(i);
  }

  lemma SettledIsEmpty(back: int -> HeaderValue, q: System, key: Key)
    requires Inv(back, q) && Settled(q)
    requires forall t :: t in q.slots ==> W.Covered(PoolView(q, t))
    ensures InFlight(q, key) == 0
  {
    if 0 < InFlight(q, key) {
      var i := SumWitness(q.flight, Holding(key));
      assert q.flight[i] in q.flight;
      var e := HolderMoves(q, i);
    }
  }

  /** If requests stay between one and the capacity, then wherever no step on a message is left each
      published message has ended, completed or dead-lettered, exactly once. */
  lemma EveryMessageEnds(back: int -> HeaderValue, s: System, es: seq<Event>, key: Key)
    requires Init(s) && Legal(back, s, es) && RequestsWithin(s, es) && Settled(Final(back, s, es))
    ensures var q := Final(back, s, es);
            && InFlight(q, key) == 0
            && (key in q.published ==> CompletedTimes(q, key) + DeadTimes(q, key) == 1)
  {
    Reached(back, s, es);
    var q := Final(back, s, es);
    SlotsStay(back, s, es);
    forall t | t in q.slots
      ensures W.Covered(PoolView(q, t))
    {
      TokensSupplied(back, s, es, t);
    }
    SettledIsEmpty(back, q, key);
  }

  lemma SlotsStep(back: int -> HeaderValue, s: System, e: Event)
    requires Enabled(s, e)
    ensures Apply(back, s, e).slots.Keys == s.slots.Keys
  {
    if e.Work? && !s.flight[e.i].pc.GiveBack? {
      WorkFlight(back, s, e.i, e.outcome, e.now);
    }
  }

  lemma {:induction false} SlotsStay(back: int -> HeaderValue, s: System, es: seq<Event>)
    requires Legal(back, s, es)
    ensures Final(back, s, es).slots.Keys == s.slots.Keys
    decreases |es|
  {
    if es != [] {
      SlotsStep(back, s, es[0]);
      SlotsStay(back, Apply(back, s, es[0]), es[1..]);
    }
  }
}
