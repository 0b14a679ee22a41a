/** The life cycle refines the token machine: seen from one tenant, every run of the whole system is a
    run of that tenant's worker pool, so what is proved about the pool holds of the running jobs. */
module LifecyclePools {
  import opened Sums
  import opened Deliveries
  import opened MessageLifecycle
  import W = WorkerPool

  function WorkingFor(t: string): Item -> nat {
    (it: Item) => if it.Job? && it.tenant == t && !it.pc.GiveBack? then 1 else 0
  }

  function ReturningFor(t: string): Item -> nat {
    (it: Item) => if it.Job? && it.tenant == t && it.pc.GiveBack? then 1 else 0
  }

  function HeldFor(t: string): Item -> nat {
    (it: Item) => if it.Held? && it.tenant == t then 1 else 0
  }

  /** The worker pool of a tenant: the goroutines and the loop are found among the holders. */
  function PoolView(s: System, t: string): W.Pool
    requires t in s.slots
  {
    var c := s.slots[t];
    W.Pool(c.cap, c.tokens, Sum(s.flight, WorkingFor(t)), Sum(s.flight, ReturningFor(t)),
           if 0 < Sum(s.flight, HeldFor(t)) then W.Waiting else W.Selecting, c.workerCount, c.updater)
  }

  /** The pool steps that a system step amounts to, for one tenant: none or one. */
  function Projected(s: System, e: Event, t: string): seq<W.Event>
    requires Enabled(s, e)
  {
    match e
    case Publish(_, _, _, _, _, _, _) => []
    case Receive(i) => if QueueTenant(s.flight[i].queue) == t then [W.Receive] else []
    case Take(i) => if s.flight[i].tenant == t then [W.Take] else []
    case Work(i, _, _) =>
      if s.flight[i].tenant == t && s.flight[i].pc.Ack? then [W.Finish]
      else if s.flight[i].tenant == t && s.flight[i].pc.GiveBack? then [W.Return]
      else []
    case Fire(_) => []
    case Update(u, x) => if u == t then [x] else []
  }

  function ProjectedRun(back: int -> HeaderValue, s: System, es: seq<Event>, t: string): seq<W.Event>
    requires Legal(back, s, es)
    decreases |es|
  {
    if es == [] then []
    else Projected(s, es[0], t) + ProjectedRun(back, Apply(back, s, es[0]), es[1..], t)
  }

  // ---- One step ----

  lemma Replace(xs: seq<Item>, i: nat, x: Item, t: string)
    requires i < |xs|
    ensures Sum(xs[i := x], WorkingFor(t)) + WorkingFor(t)(xs[i]) == Sum(xs, WorkingFor(t)) + WorkingFor(t)(x)
    ensures Sum(xs[i := x], ReturningFor(t)) + ReturningFor(t)(xs[i]) == Sum(xs, ReturningFor(t)) + ReturningFor(t)(x)
    ensures Sum(xs[i := x], HeldFor(t)) + HeldFor(t)(xs[i]) == Sum(xs, HeldFor(t)) + HeldFor(t)(x)
  {
    SumUpdate(xs, i, x, WorkingFor(t));
    SumUpdate(xs, i, x, ReturningFor(t));
    SumUpdate(xs, i, x, HeldFor(t));
  }

  lemma Leave(xs: seq<Item>, i: nat, t: string)
    requires i < |xs|
    ensures Sum(Without(xs, i), WorkingFor(t)) + WorkingFor(t)(xs[i]) == Sum(xs, WorkingFor(t))
    ensures Sum(Without(xs, i), ReturningFor(t)) + ReturningFor(t)(xs[i]) == Sum(xs, ReturningFor(t))
    ensures Sum(Without(xs, i), HeldFor(t)) + HeldFor(t)(xs[i]) == Sum(xs, HeldFor(t))
  {
    SumWithout(xs, i, WorkingFor(t));
    SumWithout(xs, i, ReturningFor(t));
    SumWithout(xs, i, HeldFor(t));
  }

  lemma Enter(xs: seq<Item>, x: Item, t: string)
    requires x.Queued? || x.Delayed?
    ensures Sum(xs + [x], WorkingFor(t)) == Sum(xs, WorkingFor(t))
    ensures Sum(xs + [x], ReturningFor(t)) == Sum(xs, ReturningFor(t))
    ensures Sum(xs + [x], HeldFor(t)) == Sum(xs, HeldFor(t))
  {
    SumSnoc(xs, x, WorkingFor(t));
    SumSnoc(xs, x, ReturningFor(t));
    SumSnoc(xs, x, HeldFor(t));
  }

  /** One system step is the projected pool step, or leaves the pool alone. */
  ghost predicate Refines(s: System, s': System, ws: seq<W.Event>, t: string) {
    && t in s.slots && t in s'.slots && Sum(s'.flight, HeldFor(t)) <= 1
    && W.Legal(PoolView(s, t), ws) && W.Final(PoolView(s, t), ws) == PoolView(s', t)
  }

  lemma Single(p: W.Pool, x: W.Event)
    requires W.Enabled(p, x)
    ensures W.Legal(p, [x]) && W.Final(p, [x]) == W.Apply(p, x)
  {
    assert [x][1..] == [];
  }

  lemma ReceiveRefines(back: int -> HeaderValue, s: System, i: nat, t: string)
    requires Enabled(s, Receive(i)) && t in s.slots && Sum(s.flight, HeldFor(t)) <= 1
    ensures Refines(s, Apply(back, s, Receive(i)), Projected(s, Receive(i), t), t)
  {
    Replace(s.flight, i, Apply(back, s, Receive(i)).flight[i], t);
    if QueueTenant(s.flight[i].queue) == t {
      SumZero(s.flight, HeldFor(t));
      Single(PoolView(s, t), W.Receive);
    }
  }

  lemma TakeRefines(back: int -> HeaderValue, s: System, i: nat, t: string)
    requires Enabled(s, Take(i)) && t in s.slots && Sum(s.flight, HeldFor(t)) <= 1
    ensures Refines(s, Apply(back, s, Take(i)), Projected(s, Take(i), t), t)
  {
    Replace(s.flight, i, Job(s.flight[i].tenant, s.flight[i].d, Begin), t);
    if s.flight[i].tenant == t {
      SumMember(s.flight, i, HeldFor(t));
      Single(PoolView(s, t), W.Take);
    }
  }

  lemma GiveBackRefines(back: int -> HeaderValue, s: System, i: nat, outcome: Outcome, now: int, t: string)
    requires Enabled(s, Work(i, outcome, now)) && t in s.slots && Sum(s.flight, HeldFor(t)) <= 1
    requires s.flight[i].pc.GiveBack?
    ensures Refines(s, Apply(back, s, Work(i, outcome, now)), Projected(s, Work(i, outcome, now), t), t)
  {
    Leave(s.flight, i, t);
    if s.flight[i].tenant == t {
      SumMember(s.flight, i, ReturningFor(t));
      Single(PoolView(s, t), W.Return);
    }
  }

  /** The flight after a statement of a job: its program counter moves, and a requeue adds one item. */
  lemma WorkFlight(back: int -> HeaderValue, s: System, i: nat, outcome: Outcome, now: int)
    requires Enabled(s, Work(i, outcome, now)) && !s.flight[i].pc.GiveBack?
    ensures var s' := Apply(back, s, Work(i, outcome, now));
            var moved := s.flight[i := s.flight[i].(pc := NextPc(s.flight[i], outcome))];
            && s'.slots == s.slots
            && (s'.flight == moved
                || (s.flight[i].pc.Route? && exists x: Item :: x.Delayed? && s'.flight == moved + [x]))
  {
  }

  lemma WorkRefines(back: int -> HeaderValue, s: System, i: nat, outcome: Outcome, now: int, t: string)
    requires Enabled(s, Work(i, outcome, now)) && t in s.slots && Sum(s.flight, HeldFor(t)) <= 1
    requires !s.flight[i].pc.GiveBack?
    ensures Refines(s, Apply(back, s, Work(i, outcome, now)), Projected(s, Work(i, outcome, now), t), t)
  {
    var s' := Apply(back, s, Work(i, outcome, now));
    WorkFlight(back, s, i, outcome, now);
    MovedRefines(s, s', i, outcome, t, Projected(s, Work(i, outcome, now), t));
  }

  lemma MovedRefines(s: System, s': System, i: nat, outcome: Outcome, t: string, ws: seq<W.Event>)
    requires t in s.slots && s'.slots == s.slots && Sum(s.flight, HeldFor(t)) <= 1
    requires i < |s.flight| && s.flight[i].Job? && !s.flight[i].pc.GiveBack?
    requires var moved := s.flight[i := s.flight[i].(pc := NextPc(s.flight[i], outcome))];
             s'.flight == moved || exists x: Item :: x.Delayed? && s'.flight == moved + [x]
    requires ws == if s.flight[i].tenant == t && s.flight[i].pc.Ack? then [W.Finish] else []
    ensures Refines(s, s', ws, t)
  {
    var moved := s.flight[i := s.flight[i].(pc := NextPc(s.flight[i], outcome))];
    Replace(s.flight, i, s.flight[i].(pc := NextPc(s.flight[i], outcome)), t);
    if s'.flight != moved {
      var x: Item :| x.Delayed? && s'.flight == moved + [x];
      Enter(moved, x, t);
    }
    if ws != [] {
      SumMember(s.flight, i, WorkingFor(t));
      Single(PoolView(s, t), W.Finish);
    }
  }

  lemma UpdateRefines(s: System, s': System, u: W.Event, t: string)
    requires t in s.slots && Sum(s.flight, HeldFor(t)) <= 1
    requires Resizes(u) && W.Enabled(AsPool(s.slots[t]), u)
    requires s'.flight == s.flight && t in s'.slots && s'.slots[t] == AsSlots(W.Apply(AsPool(s.slots[t]), u))
    ensures Refines(s, s', [u], t)
  {
    Single(PoolView(s, t), u);
  }

  lemma SameView(s: System, s': System, t: string)
    requires t in s.slots && t in s'.slots && s'.slots[t] == s.slots[t] && Sum(s.flight, HeldFor(t)) <= 1
    requires Sum(s'.flight, WorkingFor(t)) == Sum(s.flight, WorkingFor(t))
    requires Sum(s'.flight, ReturningFor(t)) == Sum(s.flight, ReturningFor(t))
    requires Sum(s'.flight, HeldFor(t)) == Sum(s.flight, HeldFor(t))
    ensures Refines(s, s', [], t)
  {
  }

  lemma StepRefines(back: int -> HeaderValue, s: System, e: Event, t: string)
    requires Enabled(s, e) && t in s.slots && Sum(s.flight, HeldFor(t)) <= 1
    ensures Refines(s, Apply(back, s, e), Projected(s, e, t), t)
  {
    var s' := Apply(back, s, e);
    match e
    case Publish(_, _, _, _, _, _, _) =>
      if e.sent {
        assert s'.flight == s.flight + [s'.flight[|s.flight|]];
        Enter(s.flight, s'.flight[|s.flight|], t);
      }
      SameView(s, s', t);
    case Receive(i) => ReceiveRefines(back, s, i, t);
    case Take(i) => TakeRefines(back, s, i, t);
    case Work(i, outcome, now) =>
      if s.flight[i].pc.GiveBack? {
        GiveBackRefines(back, s, i, outcome, now, t);
      } else {
        WorkRefines(back, s, i, outcome, now, t);
      }
    case Fire(i) =>
      Leave(s.flight, i, t);
      Enter(Without(s.flight, i), Queued(s.flight[i].queue, s.flight[i].d), t);
      SameView(s, s', t);
    case Update(u, x) =>
      if u == t {
        UpdateRefines(s, s', x, t);
      } else {
        SameView(s, s', t);
      }
  }

  // ---- Runs ----

  /** Every run of the system is, for each tenant, a run of that tenant's pool. */
  lemma {:induction false} RunRefines(back: int -> HeaderValue, s: System, es: seq<Event>, t: string)
    requires Legal(back, s, es) && t in s.slots && Sum(s.flight, HeldFor(t)) <= 1
    ensures Refines(s, Final(back, s, es), ProjectedRun(back, s, es, t), t)
    decreases |es|
  {
    if es != [] {
      var s1 := Apply(back, s, es[0]);
      StepRefines(back, s, es[0], t);
      RunRefines(back, s1, es[1..], t);
      W.RunAppend(PoolView(s, t), Projected(s, es[0], t), ProjectedRun(back, s1, es[1..], t));
    }
  }

  /** The update steps of the projection are those of the run. */
  lemma {:induction false} ProjectedUpdates(back: int -> HeaderValue, s: System, es: seq<Event>, t: string)
    requires Legal(back, s, es)
    ensures forall x :: x in ProjectedRun(back, s, es, t) && W.OfUpdater(x) ==> Update(t, x) in es
    decreases |es|
  {
    if es != [] {
      ProjectedUpdates(back, Apply(back, s, es[0]), es[1..], t);
    }
  }

  lemma StartView(s: System, t: string)
    requires Init(s) && t in s.slots
    ensures PoolView(s, t) == W.Start(s.slots[t].cap) && Sum(s.flight, HeldFor(t)) <= 1
  {
  }

  lemma {:induction false} NeverCounted(ws: seq<W.Event>, x: W.Event)
    requires x !in ws
    ensures W.Count(ws, x) == 0
  {
    if ws != [] {
      NeverCounted(ws[1..], x);
    }
  }

  /** Concurrency bound on the jobs that exist: if no removal of a tenant's updates took its default
      branch, its worker goroutines never outnumber its worker count between updates. */
  lemma JobsBounded(back: int -> HeaderValue, s: System, es: seq<Event>, t: string)
    requires Init(s) && Legal(back, s, es) && t in s.slots && Update(t, W.RemoveDefault) !in es
    ensures var q := Final(back, s, es);
            t in q.slots && (q.slots[t].updater.Idle? ==>
              Sum(q.flight, WorkingFor(t)) + Sum(q.flight, ReturningFor(t)) <= q.slots[t].workerCount)
  {
    StartView(s, t);
    RunRefines(back, s, es, t);
    ProjectedUpdates(back, s, es, t);
    var ws := ProjectedRun(back, s, es, t);
    NeverCounted(ws, W.RemoveDefault);
    W.ConcurrencyBound(s.slots[t].cap, ws);
  }

  /** Every requested worker count of the run lies between one and the tenant's capacity. */
  ghost predicate RequestsWithin(s: System, es: seq<Event>) {
    forall e :: e in es && e.Update? && e.u.Begin? && e.tenant in s.slots ==>
      1 <= e.u.workers <= s.slots[e.tenant].cap
  }

  /** Under such requests the pool of every tenant always holds a token for its waiting loop. */
  lemma TokensSupplied(back: int -> HeaderValue, s: System, es: seq<Event>, t: string)
    requires Init(s) && Legal(back, s, es) && t in s.slots && RequestsWithin(s, es)
    ensures t in Final(back, s, es).slots && W.Covered(PoolView(Final(back, s, es), t))
  {
    StartView(s, t);
    RunRefines(back, s, es, t);
    ProjectedUpdates(back, s, es, t);
    var ws := ProjectedRun(back, s, es, t);
    forall i | 0 <= i < |ws| && ws[i].Begin?
      ensures 1 <= ws[i].workers <= s.slots[t].cap
    {
      assert ws[i] in ws;
      assert Update(t, ws[i]) in es;
    }
    W.NoStarvation(s.slots[t].cap, ws);
  }
}
