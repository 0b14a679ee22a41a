/** The tenant manager's registry as a step machine: starting, deleting and resizing consumers and
    stopping them all, each under the manager's mutex, while the consumers that were ever started go
    on running. */
module TenantRegistry {
  import W = WorkerPool

  /** A consumer with the history of its stop channel. */
  datatype Consumer = Consumer(tenant: string, pool: W.Pool, closes: nat, sends: nat)

  /** Who holds the manager's mutex in the middle of an operation. */
  datatype Lock = Free | Updating(id: string) | Stopping(left: set<string>)

  datatype Manager = Manager(
    table: seq<Consumer>,       // every consumer ever started
    registry: map<string, nat>, // the consumers map, by position in the table
    lock: Lock,
    panics: nat                 // history: closes of, and sends on, a closed channel
  )

  datatype Event =
    | Start(id: string, workers: nat)
    | Delete(id: string)
    | BeginUpdate(id: string, size: int) | UpdateStep(u: W.Event) | EndUpdate
    | BeginStop | StopOne(id: string, received: bool) | EndStop
    | Run(i: nat, e: W.Event)   // a step of consumer i's loop or of one of its goroutines

  predicate InRange(m: Manager) {
    && (forall id :: id in m.registry ==> m.registry[id] < |m.table|)
    && (m.lock.Updating? ==> m.lock.id in m.registry)
    && (m.lock.Stopping? ==> m.lock.left <= m.registry.Keys)
  }

  predicate Enabled(m: Manager, e: Event) {
    && InRange(m)
    && match e
       case Start(_, _) => m.lock.Free?
       case Delete(_) => m.lock.Free?
       case BeginUpdate(id, n) =>
         m.lock.Free? && id in m.registry && W.Enabled(m.table[m.registry[id]].pool, W.Begin(n))
       case UpdateStep(u) =>
         m.lock.Updating? && W.OfUpdater(u) && !u.Begin? && !u.End?
         && W.Enabled(m.table[m.registry[m.lock.id]].pool, u)
       case EndUpdate => m.lock.Updating? && W.Enabled(m.table[m.registry[m.lock.id]].pool, W.End)
       case BeginStop => m.lock.Free?
       case StopOne(id, received) =>
         && m.lock.Stopping? && id in m.lock.left
         && (received ==> m.table[m.registry[id]].pool.loop.Selecting?)
       case EndStop => m.lock.Stopping? && m.lock.left == {}
       case Run(i, x) =>
         && i < |m.table| && !W.OfUpdater(x) && W.Enabled(m.table[i].pool, x)
         && (x.ReceiveStop? ==> 0 < m.table[i].closes)
  }

  function WithPool(m: Manager, i: nat, p: W.Pool): Manager
    requires i < |m.table|
  {
    m.(table := m.table[i := m.table[i].(pool := p)])
  }

  /** close(stop): panics on a channel that is closed already. */
  function Close(m: Manager, i: nat): Manager
    requires i < |m.table|
  {
    if 0 < m.table[i].closes then m.(panics := m.panics + 1)
    else m.(table := m.table[i := m.table[i].(closes := 1)])
  }

  /** The select of StopAllConsumers: the loop receives the signal and returns, or the default closes the
      channel; a send on a closed channel panics. */
  function SignalOrClose(m: Manager, i: nat, received: bool): Manager
    requires i < |m.table|
  {
    var c := m.table[i];
    if 0 < c.closes then m.(panics := m.panics + 1)
    else if received then
      m.(table := m.table[i := c.(sends := c.sends + 1, pool := c.pool.(loop := W.Exited))])
    else Close(m, i)
  }

  function Apply(m: Manager, e: Event): Manager
    requires Enabled(m, e)
  {
    match e
    case Start(id, workers) =>
      m.(table := m.table + [Consumer(id, W.Start(workers), 0, 0)], registry := m.registry[id := |m.table|])
    case Delete(id) =>
      if id in m.registry then Close(m, m.registry[id]).(registry := m.registry - {id}) else m
    case BeginUpdate(id, n) =>
      WithPool(m, m.registry[id], W.Apply(m.table[m.registry[id]].pool, W.Begin(n))).(lock := Updating(id))
    case UpdateStep(u) =>
      var i := m.registry[m.lock.id];
      WithPool(m, i, W.Apply(m.table[i].pool, u))
    case EndUpdate =>
      var i := m.registry[m.lock.id];
      WithPool(m, i, W.Apply(m.table[i].pool, W.End)).(lock := Free)
    case BeginStop => m.(lock := Stopping(m.registry.Keys))
    case StopOne(id, received) =>
      SignalOrClose(m, m.registry[id], received).(lock := Stopping(m.lock.left - {id}))
    case EndStop => m.(registry := map[], lock := Free)
    case Run(i, x) => WithPool(m, i, W.Apply(m.table[i].pool, x))
  }

  predicate Legal(m: Manager, es: seq<Event>)
    decreases |es|
  {
    es == [] || (Enabled(m, es[0]) && Legal(Apply(m, es[0]), es[1..]))
  }

  function Final(m: Manager, es: seq<Event>): Manager
    requires Legal(m, es)
    decreases |es|
  {
    if es == [] then m else Final(Apply(m, es[0]), es[1..])
  }

  const INITIAL := Manager([], map[], Free, 0)

  /** Every start uses a tenant id that is not registered, as fresh UUIDs and a start-up over distinct
      rows do. */
  predicate Fresh(m: Manager, es: seq<Event>)
    requires Legal(m, es)
    decreases |es|
  {
    es == [] || ((es[0].Start? ==> es[0].id !in m.registry) && Fresh(Apply(m, es[0]), es[1..]))
  }

  // ---- What every operation keeps ----

  predicate Registered(m: Manager, i: nat) {
    i < |m.table| && m.table[i].tenant in m.registry && m.registry[m.table[i].tenant] == i
  }

  /** Consumer i is registered and no StopAllConsumers has reached it. */
  predicate Active(m: Manager, i: nat) {
    Registered(m, i) && (m.lock.Stopping? ==> m.table[i].tenant in m.lock.left)
  }

  predicate SoundConsumer(m: Manager, i: nat)
    requires i < |m.table|
  {
    var c := m.table[i];
    && c.closes + c.sends == (if Active(m, i) then 0 else 1)
    && (0 < c.sends ==> c.pool.loop.Exited?)
    && (c.pool.loop.Exited? ==> 1 <= c.closes + c.sends)
    && (c.pool.updater.Idle? <==> !(m.lock.Updating? && Registered(m, i) && m.lock.id == c.tenant))
  }

  ghost predicate Inv(m: Manager) {
    && InRange(m) && m.panics == 0
    && (forall id :: id in m.registry ==> m.table[m.registry[id]].tenant == id)
    && (forall i :: 0 <= i < |m.table| ==> m.table[i].pool.tokens <= m.table[i].pool.cap)
    && (forall i :: 0 <= i < |m.table| ==> SoundConsumer(m, i))
  }

  lemma StartKeepsInv(m: Manager, id: string, workers: nat)
    requires Inv(m) && m.lock.Free? && id !in m.registry
    ensures Inv(Apply(m, Start(id, workers)))
  {
    var m' := Apply(m, Start(id, workers));
    forall i | 0 <= i < |m'.table|
      ensures SoundConsumer(m', i)
    {
      assert i < |m.table| ==> SoundConsumer(m, i);
    }
  }

  lemma DeleteKeepsInv(m: Manager, id: string)
    requires Inv(m) && m.lock.Free?
    ensures Inv(Apply(m, Delete(id)))
  {
    var m' := Apply(m, Delete(id));
    if id in m.registry {
      assert SoundConsumer(m, m.registry[id]);
    }
    forall i | 0 <= i < |m'.table|
      ensures SoundConsumer(m', i)
    {
      assert SoundConsumer(m, i);
    }
  }

  lemma StopKeepsInv(m: Manager, e: Event)
    requires Inv(m) && Enabled(m, e) && (e.BeginStop? || e.StopOne? || e.EndStop?)
    ensures Inv(Apply(m, e))
  {
    var m' := Apply(m, e);
    if e.StopOne? {
      assert SoundConsumer(m, m.registry[e.id]);
    }
    forall i | 0 <= i < |m'.table|
      ensures SoundConsumer(m', i)
    {
      assert SoundConsumer(m, i);
    }
  }

  /** A step inside one consumer's pool that keeps the loop alive or ends it after a stop. */
  lemma PoolKeepsInv(m: Manager, m': Manager, i: nat, p: W.Pool)
    requires Inv(m) && i < |m.table|
    requires m' == WithPool(m, i, p).(lock := m'.lock) && p.tokens <= p.cap
    requires p.loop.Exited? ==> m.table[i].pool.loop.Exited? || 0 < m.table[i].closes
    requires m.table[i].pool.loop.Exited? ==> p.loop.Exited?
    requires (m'.lock == m.lock && (p.updater.Idle? <==> m.table[i].pool.updater.Idle?))
             || (m.lock.Free? && m'.lock.Updating? && m'.lock.id in m.registry && m.registry[m'.lock.id] == i && !p.updater.Idle?)
             || (m.lock.Updating? && m.registry[m.lock.id] == i && m'.lock.Free? && p.updater.Idle?)
    ensures Inv(m')
  {
    forall j | 0 <= j < |m'.table|
      ensures SoundConsumer(m', j)
    {
      assert SoundConsumer(m, j) && SoundConsumer(m, i);
    }
  }

  /** What a pool step does to the channel, to the loop and to the updater. */
  lemma PoolEffect(p: W.Pool, x: W.Event)
    requires W.Enabled(p, x)
    ensures p.tokens <= p.cap ==> W.Apply(p, x).tokens <= W.Apply(p, x).cap
    ensures W.Apply(p, x).loop.Exited? <==> p.loop.Exited? || x.ReceiveStop?
    ensures !x.Begin? && !x.End? ==> (W.Apply(p, x).updater.Idle? <==> p.updater.Idle?)
    ensures x.Begin? ==> !W.Apply(p, x).updater.Idle?
    ensures x.End? ==> W.Apply(p, x).updater.Idle?
  {
  }

  lemma StepKeepsInv(m: Manager, e: Event)
    requires Inv(m) && Enabled(m, e) && (e.Start? ==> e.id !in m.registry)
    ensures Inv(Apply(m, e))
  {
    match e
    case Start(id, workers) => StartKeepsInv(m, id, workers);
    case Delete(id) => DeleteKeepsInv(m, id);
    case BeginStop => StopKeepsInv(m, e);
    case StopOne(_, _) => StopKeepsInv(m, e);
    case EndStop => StopKeepsInv(m, e);
    case BeginUpdate(id, n) =>
      var i := m.registry[id];
      PoolEffect(m.table[i].pool, W.Begin(n));
      PoolKeepsInv(m, Apply(m, e), i, W.Apply(m.table[i].pool, W.Begin(n)));
    case UpdateStep(u) =>
      var i := m.registry[m.lock.id];
      PoolEffect(m.table[i].pool, u);
      PoolKeepsInv(m, Apply(m, e), i, W.Apply(m.table[i].pool, u));
    case EndUpdate =>
      var i := m.registry[m.lock.id];
      PoolEffect(m.table[i].pool, W.End);
      PoolKeepsInv(m, Apply(m, e), i, W.Apply(m.table[i].pool, W.End));
    case Run(i, x) =>
      PoolEffect(m.table[i].pool, x);
      PoolKeepsInv(m, Apply(m, e), i, W.Apply(m.table[i].pool, x));
  }

  lemma {:induction false} RunKeepsInv(m: Manager, es: seq<Event>)
    requires Inv(m) && Legal(m, es) && Fresh(m, es)
    ensures Inv(Final(m, es))
    decreases |es|
  {
    if es != [] {
      StepKeepsInv(m, es[0]);
      RunKeepsInv(Apply(m, es[0]), es[1..]);
    }
  }

  /** Stop safety: over any sequence of starts, deletions, resizes and stop-alls, interleaved in any way
      with the consumers, no stop channel is closed or signalled twice and nothing panics; a
      registered consumer's channel is untouched; a removed consumer has received the signal and
      returned, or its channel is closed. */
  lemma StopSafety(es: seq<Event>, i: nat)
    requires Legal(INITIAL, es) && Fresh(INITIAL, es) && i < |Final(INITIAL, es).table|
    ensures var m := Final(INITIAL, es);
            var c := m.table[i];
            && m.panics == 0 && c.closes + c.sends <= 1
            && (m.lock.Free? && Registered(m, i) ==> c.closes == 0 && c.sends == 0 && !c.pool.loop.Exited?)
            && (!Registered(m, i) ==> c.closes == 1 || (c.sends == 1 && c.pool.loop.Exited?))
  {
    RunKeepsInv(INITIAL, es);
    assert SoundConsumer(Final(INITIAL, es), i);
  }

  /** The mutex serialises the updates: two consumers never have one running at once. */
  lemma OneUpdater(es: seq<Event>, i: nat, j: nat)
    requires Legal(INITIAL, es) && Fresh(INITIAL, es)
    requires i < |Final(INITIAL, es).table| && j < |Final(INITIAL, es).table|
    requires !Final(INITIAL, es).table[i].pool.updater.Idle? && !Final(INITIAL, es).table[j].pool.updater.Idle?
    ensures i == j
  {
    RunKeepsInv(INITIAL, es);
    assert SoundConsumer(Final(INITIAL, es), i) && SoundConsumer(Final(INITIAL, es), j);
  }

  /** A closed stop channel stays closed, so the loop can receive from it whenever it selects. */
  lemma {:induction false} StopEnabledForGood(m: Manager, es: seq<Event>, i: nat)
    requires Legal(m, es) && i < |m.table| && 0 < m.table[i].closes
    ensures var q := Final(m, es);
            && i < |q.table| && 0 < q.table[i].closes
            && (q.table[i].pool.loop.Selecting? && InRange(q) ==> Enabled(q, Run(i, W.ReceiveStop)))
    decreases |es|
  {
    if es != [] {
      StopEnabledForGood(Apply(m, es[0]), es[1..], i);
    }
  }

  // ---- The condition on starts cannot be dropped ----

  /** Consumer i runs, and nothing refers to it any more. */
  predicate Orphan(m: Manager, i: nat) {
    && i < |m.table| && (forall id :: id in m.registry ==> m.registry[id] != i)
    && m.table[i].closes == 0 && m.table[i].sends == 0 && !m.table[i].pool.loop.Exited?
  }

  lemma OrphanStep(m: Manager, e: Event, i: nat)
    requires Enabled(m, e) && Orphan(m, i)
    ensures Orphan(Apply(m, e), i)
  {
  }

  /** No later operation ever stops an orphan. */
  lemma {:induction false} OrphanForever(m: Manager, es: seq<Event>, i: nat)
    requires Legal(m, es) && Orphan(m, i)
    ensures Orphan(Final(m, es), i)
    decreases |es|
  {
    if es != [] {
      OrphanStep(m, es[0], i);
      OrphanForever(Apply(m, es[0]), es[1..], i);
    }
  }

  /** The exact condition on StartConsumer: it keeps the registry sound if and only if the tenant has no
      consumer yet; otherwise it turns the old consumer into an orphan. */
  lemma StartKeepsInvExactly(m: Manager, id: string, workers: nat)
    requires Inv(m) && m.lock.Free?
    ensures Inv(Apply(m, Start(id, workers))) <==> id !in m.registry
    ensures id in m.registry ==> Orphan(Apply(m, Start(id, workers)), m.registry[id])
  {
    if id in m.registry {
      var i := m.registry[id];
      var m' := Apply(m, Start(id, workers));
      assert SoundConsumer(m, i);
      assert !SoundConsumer(m', i);
    } else {
      StepKeepsInv(m, Start(id, workers));
    }
  }

  // ---- The registry's consumers are worker pools ----

  /** The step of consumer i's pool that a step of the manager amounts to: none or one. */
  function Moves(m: Manager, e: Event, i: nat): seq<W.Event>
    requires Enabled(m, e)
  {
    match e
    case Run(j, x) => if i == j then [x] else []
    case BeginUpdate(id, n) => if i == m.registry[id] then [W.Begin(n)] else []
    case UpdateStep(u) => if i == m.registry[m.lock.id] then [u] else []
    case EndUpdate => if i == m.registry[m.lock.id] then [W.End] else []
    case StopOne(id, received) =>
      if i == m.registry[id] && received && m.table[i].closes == 0 then [W.ReceiveStop] else []
    case _ => []
  }

  lemma PoolMoves(m: Manager, e: Event, i: nat)
    requires Enabled(m, e) && i < |m.table|
    ensures i < |Apply(m, e).table| && Apply(m, e).table[i].tenant == m.table[i].tenant
    ensures W.Legal(m.table[i].pool, Moves(m, e, i))
    ensures W.Final(m.table[i].pool, Moves(m, e, i)) == Apply(m, e).table[i].pool
  {
    var ws := Moves(m, e, i);
    if ws != [] {
      assert ws[1..] == [] && W.Enabled(m.table[i].pool, ws[0]);
      assert W.Apply(m.table[i].pool, ws[0]) == Apply(m, e).table[i].pool;
    }
  }

  /** A tenant and the number of workers that its consumer is started with. */
  datatype Request = Request(id: string, workers: nat)

  /** The starts of a run, in order. */
  function Starts(es: seq<Event>): seq<Request> {
    if es == [] then []
    else if es[0].Start? then [Request(es[0].id, es[0].workers)] + Starts(es[1..])
    else Starts(es[1..])
  }

  /** The steps of consumer i's pool in a run, from the consumer's start on. */
  function MovesOf(m: Manager, es: seq<Event>, i: nat): seq<W.Event>
    requires Legal(m, es)
    decreases |es|
  {
    if es == [] then []
    else (if i < |m.table| then Moves(m, es[0], i) else []) + MovesOf(Apply(m, es[0]), es[1..], i)
  }

  /** A step adds a consumer to the table if it is a start, for the tenant and the size asked for. */
  lemma TableStep(m: Manager, e: Event)
    requires Enabled(m, e)
    ensures var t, t' := m.table, Apply(m, e).table;
            if e.Start? then t' == t + [Consumer(e.id, W.Start(e.workers), 0, 0)] else |t'| == |t|
  {
  }

  /** Where the pool of consumer i begins: as the run finds it, or as its own start asks for. */
  function Origin(table: seq<Consumer>, starts: seq<Request>, i: nat): W.Pool
    requires i < |table| + |starts|
  {
    if i < |table| then table[i].pool else W.Start(starts[i - |table|].workers)
  }

  /** Which tenant consumer i is for. */
  function TenantFor(table: seq<Consumer>, starts: seq<Request>, i: nat): string
    requires i < |table| + |starts|
  {
    if i < |table| then table[i].tenant else starts[i - |table|].id
  }

  lemma OriginStep(t: seq<Consumer>, t': seq<Consumer>, starts: seq<Request>, starts': seq<Request>, i: nat)
    requires |t| <= i < |t| + |starts|
    requires (|t'| == |t| && starts' == starts)
             || (t' == t + [Consumer(starts[0].id, W.Start(starts[0].workers), 0, 0)] && starts' == starts[1..])
    ensures i < |t'| + |starts'|
    ensures Origin(t', starts', i) == Origin(t, starts, i) && TenantFor(t', starts', i) == TenantFor(t, starts, i)
  {
  }

  /** Whatever the manager does, every consumer's pool is a run of the token machine from the size that its
      start asked for, so the accounting law, the bounds and the conditions proved there hold of every
      consumer ever started. */
  lemma {:induction false} PoolsAreRuns(m: Manager, es: seq<Event>, i: nat)
    requires Legal(m, es) && i < |m.table| + |Starts(es)|
    ensures i < |Final(m, es).table| && Final(m, es).table[i].tenant == TenantFor(m.table, Starts(es), i)
    ensures W.Legal(Origin(m.table, Starts(es), i), MovesOf(m, es, i))
    ensures W.Final(Origin(m.table, Starts(es), i), MovesOf(m, es, i)) == Final(m, es).table[i].pool
    decreases |es|
  {
    if es != [] {
      var m1 := Apply(m, es[0]);
      var rest := MovesOf(m1, es[1..], i);
      TableStep(m, es[0]);
      assert es[0].Start? ==> Starts(es)[1..] == Starts(es[1..]);
      if |m.table| <= i {
        OriginStep(m.table, m1.table, Starts(es), Starts(es[1..]), i);
      }
      PoolsAreRuns(m1, es[1..], i);
      if i < |m.table| {
        PoolMoves(m, es[0], i);
        W.RunAppend(m.table[i].pool, Moves(m, es[0], i), rest);
      } else {
        assert MovesOf(m, es, i) == rest;
      }
    }
  }

  /** There are as many consumers as starts. */
  lemma {:induction false} OneConsumerPerStart(m: Manager, es: seq<Event>)
    requires Legal(m, es)
    ensures |Final(m, es).table| == |m.table| + |Starts(es)|
    decreases |es|
  {
    if es != [] {
      TableStep(m, es[0]);
      OneConsumerPerStart(Apply(m, es[0]), es[1..]);
    }
  }

  /** A consumer whose resizes all ask for between one worker and as many as it was started with always has
      a token. */
  lemma ConsumerNeverStarved(es: seq<Event>, i: nat)
    requires Legal(INITIAL, es) && i < |Starts(es)| && 1 <= Starts(es)[i].workers
    requires W.Sizes(MovesOf(INITIAL, es, i), 1, Starts(es)[i].workers)
    ensures i < |Final(INITIAL, es).table| && Final(INITIAL, es).table[i].tenant == Starts(es)[i].id
    ensures W.Covered(Final(INITIAL, es).table[i].pool) && Final(INITIAL, es).table[i].pool.cap == Starts(es)[i].workers
  {
    var p := Origin(INITIAL.table, Starts(es), i);
    assert p == W.Start(Starts(es)[i].workers);
    PoolsAreRuns(INITIAL, es, i);
    W.NoStarvation(Starts(es)[i].workers, MovesOf(INITIAL, es, i));
    W.Accounting(p, MovesOf(INITIAL, es, i));
  }

  /** Quiescence after stop: a consumer that was removed and whose loop and workers are done has left
      behind exactly the goroutines whose tokens exceed the size it was started with. */
  lemma RemovedConsumerQuiet(es: seq<Event>, i: nat)
    requires Legal(INITIAL, es) && Fresh(INITIAL, es) && i < |Final(INITIAL, es).table|
    requires var m := Final(INITIAL, es); !Registered(m, i) && m.table[i].pool.loop.Exited? && W.Quiet(m.table[i].pool)
    ensures i < |Starts(es)|
    ensures var p, n := Final(INITIAL, es).table[i].pool, Starts(es)[i].workers;
            p.returning == (if n < p.Total() then p.Total() - n else 0)
  {
    RunKeepsInv(INITIAL, es);
    OneConsumerPerStart(INITIAL, es);
    PoolsAreRuns(INITIAL, es, i);
    var p := Final(INITIAL, es).table[i].pool;
    assert Origin(INITIAL.table, Starts(es), i) == W.Start(Starts(es)[i].workers);
    W.Accounting(W.Start(Starts(es)[i].workers), MovesOf(INITIAL, es, i));
    assert SoundConsumer(Final(INITIAL, es), i);
    W.QuiescenceAfterStop(p, []);
  }
}
