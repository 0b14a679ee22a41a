/** The tenant manager and its consumers as objects that are updated in place, each method proved
    against the step machines of the registry and of the token pool. */
module TenantManager {
  import W = WorkerPool
  import U = PoolUpdates
  import R = TenantRegistry

  /** What happens before one step of an update: the steps of other goroutines, and whether the loop or a
      sender that the step could deal with directly is parked in its channel operation then. */
  datatype Turn = Turn(others: seq<W.Event>, parked: bool)

  function TurnAt(schedule: seq<Turn>, k: nat): Turn {
    if k < |schedule| then schedule[k] else Turn([], false)
  }

  /** Nobody else moves. */
  predicate Quiet(schedule: seq<Turn>) {
    forall k :: 0 <= k < |schedule| ==> schedule[k].others == []
  }

  /** Every one of the first n steps finds its counterpart parked, or none does. */
  predicate Steady(schedule: seq<Turn>, n: nat, parked: bool) {
    forall k: nat :: k < n ==> TurnAt(schedule, k).parked == parked
  }

  // ---- What a schedule does ----

  /** Whether the loop or a worker can take this step; `stopped` says that the stop channel is closed. */
  predicate CanTake(p: W.Pool, stopped: bool, x: W.Event) {
    W.Enabled(p, x) && !W.OfUpdater(x) && (x.ReceiveStop? ==> stopped)
  }

  /** After the first n of the scheduled steps, those that could not be taken left out. */
  function AfterOthers(p: W.Pool, stopped: bool, xs: seq<W.Event>, n: nat): (q: W.Pool)
    requires n <= |xs|
    ensures q.cap == p.cap && q.updater == p.updater && q.workerCount == p.workerCount
    ensures p.tokens <= p.cap ==> q.tokens <= q.cap
  {
    if n == 0 then p
    else
      var q := AfterOthers(p, stopped, xs, n - 1);
      if CanTake(q, stopped, xs[n - 1]) then W.Apply(q, xs[n - 1]) else q
  }

  /** Scheduled steps that make a run are all taken. */
  lemma {:induction false} RunTaken(p: W.Pool, stopped: bool, xs: seq<W.Event>, n: nat)
    requires W.Legal(p, xs) && n <= |xs|
    requires forall x :: x in xs ==> !W.OfUpdater(x) && (x.ReceiveStop? ==> stopped)
    ensures W.Legal(p, xs[..n]) && AfterOthers(p, stopped, xs, n) == W.Final(p, xs[..n])
  {
    if n != 0 {
      RunTaken(p, stopped, xs, n - 1);
      W.RunPrefix(p, xs, n - 1);
      W.RunOne(p, xs[..n - 1], xs[n - 1]);
      assert xs[..n] == xs[..n - 1] + [xs[n - 1]] && xs[n - 1] in xs;
    }
  }

  /** After the steps of others and one select of the updater. */
  function AfterTurn(p: W.Pool, stopped: bool, turn: Turn): (q: W.Pool)
    requires p.tokens <= p.cap && !p.updater.Idle? && 0 < p.updater.left
    ensures q.cap == p.cap && q.tokens <= q.cap && q.workerCount == p.workerCount
    ensures q.updater == W.Decrement(p).updater
  {
    var q := AfterOthers(p, stopped, turn.others, |turn.others|);
    W.Apply(q, U.Select(q, turn.parked))
  }

  function AfterTurns(p: W.Pool, stopped: bool, schedule: seq<Turn>, n: nat): (q: W.Pool)
    requires p.tokens <= p.cap && !p.updater.Idle? && n <= p.updater.left
    ensures q.cap == p.cap && q.tokens <= q.cap && q.workerCount == p.workerCount
    ensures !q.updater.Idle? && q.updater.left == p.updater.left - n && q.updater.target == p.updater.target
    ensures q.updater.Adding? == p.updater.Adding?
  {
    if n == 0 then p else AfterTurn(AfterTurns(p, stopped, schedule, n - 1), stopped, TurnAt(schedule, n - 1))
  }

  /** What the loops of an update do, turn by turn, and the steps of others after them. */
  function Iterated(p: W.Pool, stopped: bool, schedule: seq<Turn>): (q: W.Pool)
    requires p.tokens <= p.cap && !p.updater.Idle?
    ensures q.cap == p.cap && q.tokens <= q.cap && q.workerCount == p.workerCount
    ensures !q.updater.Idle? && q.updater.left == 0 && q.updater.target == p.updater.target
  {
    var others := TurnAt(schedule, p.updater.left).others;
    AfterOthers(AfterTurns(p, stopped, schedule, p.updater.left), stopped, others, |others|)
  }

  /** What a whole update does. */
  function Resized(p: W.Pool, stopped: bool, workers: int, schedule: seq<Turn>): (q: W.Pool)
    requires p.tokens <= p.cap && p.updater.Idle?
    ensures q.updater.Idle? && q.workerCount == workers && q.cap == p.cap
  {
    W.Apply(Iterated(W.Apply(p, W.Begin(workers)), stopped, schedule), W.End)
  }

  lemma {:induction false} SteadyTurns(p: W.Pool, stopped: bool, schedule: seq<Turn>, n: nat, parked: bool)
    requires p.tokens <= p.cap && !p.updater.Idle? && n <= p.updater.left
    requires Quiet(schedule) && Steady(schedule, n, parked)
    ensures var q := AfterTurns(p, stopped, schedule, n);
            if p.updater.Adding? == parked then U.Most(q) == U.Most(p) else U.Fewest(q) == U.Fewest(p)
  {
    if n != 0 {
      SteadyTurns(p, stopped, schedule, n - 1, parked);
      var q := AfterTurns(p, stopped, schedule, n - 1);
      assert TurnAt(schedule, n - 1).others == [] && TurnAt(schedule, n - 1).parked == parked;
      U.SelectKeepsBound(q, parked);
    }
  }

  lemma {:induction false} QuietTurns(p: W.Pool, stopped: bool, schedule: seq<Turn>, n: nat)
    requires p.tokens <= p.cap && !p.updater.Idle? && n <= p.updater.left && Quiet(schedule)
    ensures var q := AfterTurns(p, stopped, schedule, n);
            U.Fewest(p) <= U.Fewest(q) && U.Most(q) <= U.Most(p)
  {
    if n != 0 {
      QuietTurns(p, stopped, schedule, n - 1);
      var q := AfterTurns(p, stopped, schedule, n - 1);
      assert TurnAt(schedule, n - 1).others == [];
      U.AloneStep(q, U.Select(q, TurnAt(schedule, n - 1).parked));
    }
  }

  /** The token count t that an undisturbed update leaves: between the bounds, and on them when all are
      parked or none is.  Growing leaves the most tokens when the loop is parked, and the fewest when it is not;
      shrinking the fewest when the senders are parked, and the most when they are not. */
  ghost predicate LeftUndisturbed(p: W.Pool, workers: int, schedule: seq<Turn>, t: int)
    requires p.tokens <= p.cap && p.updater.Idle?
  {
    var p1 := W.Apply(p, W.Begin(workers));
    && U.Fewest(p1) <= t <= U.Most(p1)
    && (Steady(schedule, p1.updater.left, true) ==> t == if p.workerCount <= workers then U.Most(p1) else U.Fewest(p1))
    && (Steady(schedule, p1.updater.left, false) ==> t == if p.workerCount <= workers then U.Fewest(p1) else U.Most(p1))
  }

  lemma UndisturbedResize(p: W.Pool, stopped: bool, workers: int, schedule: seq<Turn>)
    requires p.tokens <= p.cap && p.updater.Idle? && Quiet(schedule)
    ensures LeftUndisturbed(p, workers, schedule, Resized(p, stopped, workers, schedule).Total())
  {
    var p1 := W.Apply(p, W.Begin(workers));
    var n := p1.updater.left;
    assert TurnAt(schedule, n).others == [];
    QuietTurns(p1, stopped, schedule, n);
    if Steady(schedule, n, true) {
      SteadyTurns(p1, stopped, schedule, n, true);
    }
    if Steady(schedule, n, false) {
      SteadyTurns(p1, stopped, schedule, n, false);
    }
  }

  class TenantConsumer {
    const tenantID: string
    const cap: nat              // capacity of WorkerPool
    var tokens: nat             // tokens in WorkerPool
    var working: nat
    var returning: nat
    var loop: W.Loop
    var workerCount: int
    var closes: nat             // closes of StopChannel
    var sends: nat              // signals received from it
    ghost var updater: W.Updater // how far a running concurrency update is

    ghost function Pool(): W.Pool
      reads this
    {
      W.Pool(cap, tokens, working, returning, loop, workerCount, updater)
    }

    ghost function State(): R.Consumer
      reads this
    {
      R.Consumer(tenantID, Pool(), closes, sends)
    }

    constructor (id: string, workers: nat)
      ensures State() == R.Consumer(id, W.Start(workers), 0, 0)
    {
      tenantID, cap := id, workers;
      tokens, working, returning := 0, 0, 0;
      loop, workerCount, updater := W.Selecting, workers, W.Idle;
      closes, sends := 0, 0;
      new;
      for i := 0 to workers
        invariant State() == R.Consumer(id, W.Start(workers).(tokens := i), 0, 0)
      {
        tokens := tokens + 1;
      }
    }

    /** One step of the consumer loop or of a worker goroutine. */
    method Step(x: W.Event)
      requires W.Enabled(Pool(), x) && !W.OfUpdater(x)
      modifies this
      ensures State() == old(State()).(pool := W.Apply(old(Pool()), x))
    {
      match x
      case Receive => loop := W.Waiting;
      case ReceiveStop => loop := W.Exited;
      case Take => loop, tokens, working := W.Selecting, tokens - 1, working + 1;
      case HandOver => loop, returning, working := W.Selecting, returning - 1, working + 1;
      case Finish => working, returning := working - 1, returning + 1;
      case Return => returning, tokens := returning - 1, tokens + 1;
    }

    /** Whether the loop or a worker can take this step now. */
    method CanStep(x: W.Event) returns (b: bool)
      ensures b <==> CanTake(Pool(), 0 < closes, x)
    {
      match x
      case Receive => b := loop.Selecting?;
      case ReceiveStop => b := loop.Selecting? && 0 < closes;
      case Take => b := loop.Waiting? && 0 < tokens;
      case HandOver => b := loop.Waiting? && tokens == 0 && 0 < returning;
      case Finish => b := 0 < working;
      case Return => b := 0 < returning && tokens < cap;
      case _ => b := false;
    }

    /** What the other goroutines do in the meantime: those of the scheduled steps that can be taken. */
    method Others(schedule: seq<W.Event>) returns (ghost ran: seq<W.Event>)
      modifies this
      ensures W.Legal(old(Pool()), ran) && W.Final(old(Pool()), ran) == Pool()
      ensures State() == old(State()).(pool := Pool()) && updater == old(updater) && workerCount == old(workerCount)
      ensures old(tokens) <= cap ==> tokens <= cap
      ensures forall x :: x in ran ==> !W.OfUpdater(x) && (x.ReceiveStop? ==> 0 < closes)
      ensures schedule == [] ==> ran == []
      ensures Pool() == AfterOthers(old(Pool()), 0 < closes, schedule, |schedule|)
    {
      ran := [];
      for i := 0 to |schedule|
        invariant W.Legal(old(Pool()), ran) && W.Final(old(Pool()), ran) == Pool()
        invariant State() == old(State()).(pool := Pool()) && updater == old(updater) && workerCount == old(workerCount)
        invariant old(tokens) <= cap ==> tokens <= cap
        invariant forall x :: x in ran ==> !W.OfUpdater(x) && (x.ReceiveStop? ==> 0 < closes)
        invariant i == 0 ==> ran == []
        invariant Pool() == AfterOthers(old(Pool()), 0 < closes, schedule, i)
      {
        var b := CanStep(schedule[i]);
        if b {
          W.RunOne(old(Pool()), ran, schedule[i]);
          Step(schedule[i]);
          ran := ran + [schedule[i]];
        }
      }
    }

    /** select { case WorkerPool <- struct{}{}: default: }.  A loop that is parked before an empty channel
        gets the token itself. */
    method TrySend(parked: bool)
      requires updater.Adding? && 0 < updater.left && tokens <= cap
      modifies this
      ensures State() == old(State()).(pool := W.Apply(old(Pool()), U.Select(old(Pool()), parked)))
    {
      updater := W.Adding(updater.left - 1, updater.target);
      if parked && tokens == 0 && loop.Waiting? {
        loop, working := W.Selecting, working + 1;
      } else if tokens < cap {
        tokens := tokens + 1;
      }
    }

    /** select { case <-WorkerPool: default: }.  The token of a sender that is parked before a full channel
        takes the place of the one received. */
    method TryReceive(parked: bool)
      requires updater.Removing? && 0 < updater.left && tokens <= cap
      modifies this
      ensures State() == old(State()).(pool := W.Apply(old(Pool()), U.Select(old(Pool()), parked)))
    {
      updater := W.Removing(updater.left - 1, updater.target);
      if parked && tokens == cap && 0 < returning {
        returning := returning - 1;
      } else if 0 < tokens {
        tokens := tokens - 1;
      }
    }

    /** A concurrency update that began in state p1 has got here by the run mid. */
    ghost predicate Reached(p1: W.Pool, mid: seq<W.Event>, quiet: bool)
      reads this
    {
      && p1.tokens <= p1.cap && tokens <= cap
      && W.Legal(p1, mid) && W.Final(p1, mid) == Pool()
      && (forall x :: x in mid ==> !x.Begin? && !x.End? && (x.ReceiveStop? ==> 0 < closes))
      && (quiet ==> U.Alone(mid))
    }

    /** What other goroutines do before the next select, and the select of the adding loop. */
    method AddOne(turn: Turn, ghost p1: W.Pool, ghost mid: seq<W.Event>, ghost quiet: bool)
      returns (ghost mid': seq<W.Event>)
      requires updater.Adding? && 0 < updater.left && Reached(p1, mid, quiet) && (quiet ==> turn.others == [])
      modifies this
      ensures Reached(p1, mid', quiet) && State() == old(State()).(pool := Pool()) && workerCount == old(workerCount)
      ensures updater == W.Adding(old(updater).left - 1, old(updater).target)
      ensures Pool() == AfterTurn(old(Pool()), 0 < closes, turn)
    {
      ghost var ran := Others(turn.others);
      W.RunAppend(p1, mid, ran);
      W.RunOne(p1, mid + ran, U.Select(Pool(), turn.parked));
      mid' := mid + ran + [U.Select(Pool(), turn.parked)];
      TrySend(turn.parked);
    }

    /** What other goroutines do before the next select, and the select of the removing loop. */
    method RemoveOne(turn: Turn, ghost p1: W.Pool, ghost mid: seq<W.Event>, ghost quiet: bool)
      returns (ghost mid': seq<W.Event>)
      requires updater.Removing? && 0 < updater.left && Reached(p1, mid, quiet) && (quiet ==> turn.others == [])
      modifies this
      ensures Reached(p1, mid', quiet) && State() == old(State()).(pool := Pool()) && workerCount == old(workerCount)
      ensures updater == W.Removing(old(updater).left - 1, old(updater).target)
      ensures Pool() == AfterTurn(old(Pool()), 0 < closes, turn)
    {
      ghost var ran := Others(turn.others);
      W.RunAppend(p1, mid, ran);
      W.RunOne(p1, mid + ran, U.Select(Pool(), turn.parked));
      mid' := mid + ran + [U.Select(Pool(), turn.parked)];
      TryReceive(turn.parked);
    }

    /** The adding loop. */
    method AddWorkers(n: nat, schedule: seq<Turn>, ghost p1: W.Pool, ghost quiet: bool) returns (ghost mid: seq<W.Event>)
      requires p1 == Pool() && p1.tokens <= p1.cap && updater.Adding? && updater.left == n && quiet == Quiet(schedule)
      modifies this
      ensures Reached(p1, mid, quiet) && State() == old(State()).(pool := Pool())
      ensures Pool() == AfterTurns(p1, 0 < closes, schedule, n)
    {
      mid := [];
      for k := 0 to n
        invariant Reached(p1, mid, quiet) && State() == old(State()).(pool := Pool())
        invariant Pool() == AfterTurns(p1, 0 < closes, schedule, k)
      {
        mid := AddOne(TurnAt(schedule, k), p1, mid, quiet);
      }
    }

    /** The removing loop. */
    method RemoveWorkers(n: nat, schedule: seq<Turn>, ghost p1: W.Pool, ghost quiet: bool) returns (ghost mid: seq<W.Event>)
      requires p1 == Pool() && p1.tokens <= p1.cap && updater.Removing? && updater.left == n && quiet == Quiet(schedule)
      modifies this
      ensures Reached(p1, mid, quiet) && State() == old(State()).(pool := Pool())
      ensures Pool() == AfterTurns(p1, 0 < closes, schedule, n)
    {
      mid := [];
      for k := 0 to n
        invariant Reached(p1, mid, quiet) && State() == old(State()).(pool := Pool())
        invariant Pool() == AfterTurns(p1, 0 < closes, schedule, k)
      {
        mid := RemoveOne(TurnAt(schedule, k), p1, mid, quiet);
      }
    }

    /** The loops of UpdateConcurrency; a schedule says what other goroutines do before each iteration and
        after the last, and whether one of them is parked then. */
    method Iterate(workers: int, schedule: seq<Turn>) returns (ghost mid: seq<W.Event>)
      requires updater.Idle? && tokens <= cap
      modifies this
      ensures Reached(W.Apply(old(Pool()), W.Begin(workers)), mid, Quiet(schedule))
      ensures State() == old(State()).(pool := Pool())
      ensures Pool() == Iterated(W.Apply(old(Pool()), W.Begin(workers)), 0 < closes, schedule)
    {
      var current := workerCount;
      ghost var p1 := W.Apply(Pool(), W.Begin(workers));
      updater := p1.updater;
      mid := [];
      if workers > current {
        mid := AddWorkers(workers - current, schedule, p1, Quiet(schedule));
      } else if workers < current {
        mid := RemoveWorkers(current - workers, schedule, p1, Quiet(schedule));
      }
      assert Pool() == AfterTurns(p1, 0 < closes, schedule, p1.updater.left);
      var n := if workers > current then workers - current else current - workers;
      mid := AfterLoops(TurnAt(schedule, n).others, p1, mid, Quiet(schedule));
    }

    /** What other goroutines do after the loops. */
    method AfterLoops(others: seq<W.Event>, ghost p1: W.Pool, ghost mid: seq<W.Event>, ghost quiet: bool)
      returns (ghost mid': seq<W.Event>)
      requires Reached(p1, mid, quiet) && (quiet ==> others == [])
      modifies this
      ensures Reached(p1, mid', quiet) && State() == old(State()).(pool := Pool()) && updater == old(updater)
      ensures Pool() == AfterOthers(old(Pool()), 0 < closes, others, |others|)
    {
      ghost var ran := Others(others);
      W.RunAppend(p1, mid, ran);
      mid' := mid + ran;
    }

    /** The whole update: the loops, what others do after them, and the store of the worker count.  It is a
        run of the token machine; undisturbed, it leaves between the fewest and the most tokens. */
    method Resize(workers: int, schedule: seq<Turn>) returns (ghost mid: seq<W.Event>)
      requires updater.Idle? && tokens <= cap
      modifies this
      ensures var p1 := W.Apply(old(Pool()), W.Begin(workers));
              && W.Legal(p1, mid) && W.Enabled(W.Final(p1, mid), W.End)
              && State() == old(State()).(pool := W.Apply(W.Final(p1, mid), W.End))
      ensures updater.Idle? && workerCount == workers && tokens <= cap
      ensures forall x :: x in mid ==> !x.Begin? && !x.End? && (x.ReceiveStop? ==> 0 < closes)
      ensures Pool() == Resized(old(Pool()), 0 < closes, workers, schedule)
      ensures Quiet(schedule) ==> U.Alone(mid) && LeftUndisturbed(old(Pool()), workers, schedule, Pool().Total())
    {
      ghost var p1 := W.Apply(Pool(), W.Begin(workers));
      mid := Iterate(workers, schedule);
      if Quiet(schedule) {
        UndisturbedResize(old(Pool()), 0 < closes, workers, schedule);
      }
      workerCount, updater := workers, W.Idle;
    }
  }

  // ---- The runs of the registry that the manager's operations are ----

  /** A run of one consumer's pool, as steps of the manager's machine during an update of it. */
  function Lift(i: nat, ws: seq<W.Event>): seq<R.Event> {
    if ws == [] then []
    else [if W.OfUpdater(ws[0]) then R.UpdateStep(ws[0]) else R.Run(i, ws[0])] + Lift(i, ws[1..])
  }

  lemma {:induction false} LiftRun(m: R.Manager, i: nat, ws: seq<W.Event>)
    requires R.InRange(m) && m.lock.Updating? && m.registry[m.lock.id] == i
    requires W.Legal(m.table[i].pool, ws)
    requires forall x :: x in ws ==> !x.Begin? && !x.End? && (x.ReceiveStop? ==> 0 < m.table[i].closes)
    ensures R.Legal(m, Lift(i, ws)) && R.Final(m, Lift(i, ws)) == R.WithPool(m, i, W.Final(m.table[i].pool, ws))
    decreases |ws|
  {
    if ws == [] {
      assert m.table[i := m.table[i]] == m.table;
    } else {
      assert ws[0] in ws;
      var e := if W.OfUpdater(ws[0]) then R.UpdateStep(ws[0]) else R.Run(i, ws[0]);
      assert R.Enabled(m, e);
      var m1 := R.Apply(m, e);
      LiftRun(m1, i, ws[1..]);
      assert Lift(i, ws)[1..] == Lift(i, ws[1..]);
      assert m1.table[i := m1.table[i].(pool := W.Final(m1.table[i].pool, ws[1..]))]
             == m.table[i := m.table[i].(pool := W.Final(m.table[i].pool, ws))];
    }
  }

  lemma {:induction false} RegistryRunAppend(m: R.Manager, es: seq<R.Event>, fs: seq<R.Event>)
    requires R.Legal(m, es) && R.Legal(R.Final(m, es), fs)
    ensures R.Legal(m, es + fs) && R.Final(m, es + fs) == R.Final(R.Final(m, es), fs)
    decreases |es|
  {
    if es == [] {
      assert es + fs == fs;
    } else {
      assert (es + fs)[0] == es[0] && (es + fs)[1..] == es[1..] + fs;
      RegistryRunAppend(R.Apply(m, es[0]), es[1..], fs);
    }
  }

  lemma RegistryRunOne(m: R.Manager, es: seq<R.Event>, e: R.Event)
    requires R.Legal(m, es) && R.Enabled(R.Final(m, es), e)
    ensures R.Legal(m, es + [e]) && R.Final(m, es + [e]) == R.Apply(R.Final(m, es), e)
  {
    var q := R.Final(m, es);
    assert [e][1..] == [] && R.Legal(R.Apply(q, e), []);
    assert R.Legal(q, [e]) && R.Final(q, [e]) == R.Final(R.Apply(q, e), [e][1..]);
    RegistryRunAppend(m, es, [e]);
  }

  /** The trace of an update: take the lock, the pool's run, store and release. */
  function UpdateTrace(id: string, i: nat, workers: int, mid: seq<W.Event>): seq<R.Event> {
    [R.BeginUpdate(id, workers)] + Lift(i, mid) + [R.EndUpdate]
  }

  lemma UpdateTraceRun(m: R.Manager, id: string, workers: int, mid: seq<W.Event>)
    requires R.InRange(m) && m.lock.Free? && id in m.registry
    requires var i := m.registry[id];
             && m.table[i].pool.updater.Idle?
             && var p1 := W.Apply(m.table[i].pool, W.Begin(workers));
                W.Legal(p1, mid) && W.Enabled(W.Final(p1, mid), W.End)
    requires forall x :: x in mid ==> !x.Begin? && !x.End? && (x.ReceiveStop? ==> 0 < m.table[m.registry[id]].closes)
    ensures var i := m.registry[id];
            var es := UpdateTrace(id, i, workers, mid);
            && R.Legal(m, es)
            && R.Final(m, es)
               == R.WithPool(m, i, W.Apply(W.Final(W.Apply(m.table[i].pool, W.Begin(workers)), mid), W.End))
  {
    var i := m.registry[id];
    var begin := R.BeginUpdate(id, workers);
    RegistryRunOne(m, [], begin);
    assert [] + [begin] == [begin];
    var m1 := R.Apply(m, begin);
    LiftRun(m1, i, mid);
    RegistryRunAppend(m, [begin], Lift(i, mid));
    RegistryRunOne(m, [begin] + Lift(i, mid), R.EndUpdate);
    var q := W.Apply(W.Final(m1.table[i].pool, mid), W.End);
    assert R.WithPool(R.WithPool(m1, i, W.Final(m1.table[i].pool, mid)), i, q).table == R.WithPool(m, i, q).table;
  }

  /** What StopAllConsumers does to a consumer. */
  function Stopped(c: R.Consumer, listens: bool): R.Consumer {
    if listens && c.pool.loop.Selecting? then c.(sends := c.sends + 1, pool := c.pool.(loop := W.Exited))
    else c.(closes := c.closes + 1)
  }

  /** In q all consumers that m has in its registry are stopped but those still left, and no other is touched. */
  ghost predicate StoppedBut(m: R.Manager, q: R.Manager, left: set<string>, listening: set<string>) {
    && q.registry == m.registry && q.lock == R.Stopping(left) && |q.table| == |m.table|
    && forall i :: 0 <= i < |m.table| ==>
         q.table[i] == if R.Registered(m, i) && m.table[i].tenant !in left
                       then Stopped(m.table[i], m.table[i].tenant in listening) else m.table[i]
  }

  lemma StopsOne(m: R.Manager, q: R.Manager, left: set<string>, listening: set<string>, id: string)
    requires R.Inv(m) && R.Inv(q) && StoppedBut(m, q, left, listening) && id in left && left <= q.registry.Keys
    ensures var e := R.StopOne(id, id in listening && q.table[q.registry[id]].pool.loop.Selecting?);
            R.Enabled(q, e) && StoppedBut(m, R.Apply(q, e), left - {id}, listening)
  {
    var i := q.registry[id];
    assert R.SoundConsumer(q, i) && m.table[i].tenant == id && R.Registered(m, i);
  }

  /** A loop that was in state `before`, if it listened, has the one signal and has returned; of one that did not the channel is closed, once,
      and the loop is where it was. */
  ghost predicate StoppedOnce(c: TenantConsumer, before: W.Loop, listens: bool)
    reads c
  {
    if listens && before.Selecting? then c.sends == 1 && c.closes == 0 && c.loop.Exited?
    else c.sends == 0 && c.closes == 1 && c.loop == before
  }

  datatype Answer = Done | DatabaseError | NoRows | NoConsumer | NoChannel

  /** The number of rows an UPDATE reports, or its failure. */
  datatype Rows = Affected(n: nat) | Failed

  class TenantManager {
    var consumers: map<string, TenantConsumer>
    ghost var started: seq<TenantConsumer>   // every consumer ever started
    ghost var registry: map<string, nat>     // the consumers map, by position in that history

    /** The objects are in state m of the registry's machine, with the mutex free. */
    ghost predicate Mirrors(m: R.Manager)
      reads this, started
    {
      Tracks(m) && m.lock.Free?
    }

    /** The objects hold what state m of the registry's machine says. */
    ghost predicate Tracks(m: R.Manager)
      reads this, started
    {
      && R.InRange(m) && m.registry == registry && |m.table| == |started|
      && (forall i, j :: 0 <= i < j < |started| ==> started[i] != started[j])
      && (forall i :: 0 <= i < |started| ==> started[i].State() == m.table[i])
      && consumers.Keys == registry.Keys
      && (forall id :: id in registry ==> registry[id] < |started| && consumers[id] == started[registry[id]])
    }

    constructor ()
      ensures Mirrors(R.INITIAL)
    {
      consumers, started, registry := map[], [], map[];
    }

    /** `opens` says whether the broker's channel and consume calls succeed. */
    method StartConsumer(tenantID: string, workerCount: nat, opens: bool, ghost m: R.Manager) returns (a: Answer)
      requires Mirrors(m)
      modifies this
      ensures a == if opens then Done else NoChannel
      ensures Mirrors(if opens then R.Apply(m, R.Start(tenantID, workerCount)) else m)
      ensures opens ==>
                tenantID in consumers && fresh(consumers[tenantID]) && consumers[tenantID].tenantID == tenantID
                && var c := consumers[tenantID];
                   && c.cap == c.tokens == c.workerCount == workerCount && c.working == c.returning == 0
                   && c.closes == c.sends == 0 && c.loop.Selecting?
      ensures forall id :: id != tenantID || !opens ==> (id in consumers <==> id in old(consumers))
      ensures forall id :: id in old(consumers) && (id != tenantID || !opens) ==> consumers[id] == old(consumers)[id]
    {
      if !opens {
        return NoChannel;
      }
      var consumer := new TenantConsumer(tenantID, workerCount);
      consumers := consumers[tenantID := consumer];
      started, registry := started + [consumer], registry[tenantID := |started|];
      return Done;
    }

    /** The consumer is stopped and forgotten before the database is asked, so also when that fails. */
    method DeleteTenant(tenantID: string, rows: Rows, ghost m: R.Manager) returns (a: Answer)
      requires Mirrors(m) && R.Inv(m)
      modifies this, if tenantID in consumers then {consumers[tenantID]} else {}
      ensures Mirrors(R.Apply(m, R.Delete(tenantID))) && consumers == old(consumers) - {tenantID}
      ensures tenantID in old(consumers) ==>
                var c := old(consumers)[tenantID];
                c.closes == 1 && c.sends == 0 && c.Pool() == m.table[m.registry[tenantID]].pool
      ensures a == if rows.Failed? then DatabaseError else if rows.n == 0 then NoRows else Done
    {
      if tenantID in consumers {
        var consumer := consumers[tenantID];
        assert R.SoundConsumer(m, registry[tenantID]);
        consumer.closes := consumer.closes + 1;
        consumers := consumers - {tenantID};
        registry := registry - {tenantID};
      }
      if rows.Failed? {
        return DatabaseError;
      } else if rows.n == 0 {
        return NoRows;
      }
      return Done;
    }

    method UpdateConcurrency(tenantID: string, workers: int, rows: Rows, schedule: seq<Turn>, ghost m: R.Manager)
      returns (a: Answer, ghost mid: seq<W.Event>)
      requires Mirrors(m) && R.Inv(m)
      modifies if tenantID in consumers then {consumers[tenantID]} else {}
      ensures a == if rows.Failed? then DatabaseError else if rows.n == 0 then NoRows
                   else if tenantID !in m.registry then NoConsumer else Done
      ensures !a.Done? ==> Mirrors(m)
      ensures a.Done? ==>
                var es := UpdateTrace(tenantID, m.registry[tenantID], workers, mid);
                && R.Legal(m, es) && Mirrors(R.Final(m, es))
                && consumers[tenantID].workerCount == workers
                && consumers[tenantID].Pool()
                   == Resized(m.table[m.registry[tenantID]].pool, 0 < m.table[m.registry[tenantID]].closes, workers, schedule)
      ensures a.Done? && Quiet(schedule) ==>
                LeftUndisturbed(m.table[m.registry[tenantID]].pool, workers, schedule, consumers[tenantID].Pool().Total())
    {
      mid := [];
      if rows.Failed? {
        return DatabaseError, mid;
      } else if rows.n == 0 {
        return NoRows, mid;
      } else if tenantID !in consumers {
        return NoConsumer, mid;
      }
      ghost var i := registry[tenantID];
      assert started[i].State() == m.table[i] && R.SoundConsumer(m, i);
      mid := consumers[tenantID].Resize(workers, schedule);
      UpdateTraceRun(m, tenantID, workers, mid);
      a := Done;
    }

    /** Sends the stop signal to a loop that listens in its select, and closes the channel of one that
        does not. */
    method StopOne(id: string, listens: bool, ghost m: R.Manager) returns (ghost e: R.Event)
      requires Tracks(m) && R.Inv(m) && m.lock.Stopping? && id in m.lock.left
      modifies consumers[id]
      ensures e == R.StopOne(id, listens && m.table[m.registry[id]].pool.loop.Selecting?)
      ensures R.Enabled(m, e) && Tracks(R.Apply(m, e))
    {
      var consumer := consumers[id];
      ghost var i := registry[id];
      assert started[i].State() == m.table[i] && R.SoundConsumer(m, i);
      e := R.StopOne(id, listens && consumer.loop.Selecting?);
      if listens && consumer.loop.Selecting? {
        consumer.sends, consumer.loop := consumer.sends + 1, W.Exited;
      } else {
        consumer.closes := consumer.closes + 1;
      }
    }

    /** The loop of StopAllConsumers over the map, in any order. */
    method StopEach(listening: set<string>, ghost m: R.Manager) returns (ghost es: seq<R.Event>, ghost q: R.Manager)
      requires Tracks(m) && R.Inv(m) && m.lock == R.Stopping(consumers.Keys)
      modifies consumers.Values
      ensures RunTo(m, es, q) && R.Inv(q) && Tracks(q)
      ensures StoppedBut(m, q, {}, listening)
    {
      var left := consumers.Keys;
      es, q := [], m;
      while left != {}
        invariant RunTo(m, es, q) && R.Inv(q) && Tracks(q)
        invariant left <= consumers.Keys && StoppedBut(m, q, left, listening)
        decreases left
      {
        var id :| id in left;
        ghost var e := StopOne(id, id in listening, q);
        R.StepKeepsInv(q, e);
        RunToOne(m, es, q, e);
        StopsOne(m, q, left, listening, id);
        es, q := es + [e], R.Apply(q, e);
        left := left - {id};
      }
    }

    /** What the visits mean for the objects. */
    lemma ObjectsStopped(m: R.Manager, q: R.Manager, listening: set<string>)
      requires R.Inv(m) && Tracks(q) && StoppedBut(m, q, {}, listening) && (m.lock.Stopping? ==> m.lock.left == m.registry.Keys)
      ensures forall id :: id in consumers ==>
                id in m.registry && StoppedOnce(consumers[id], m.table[m.registry[id]].pool.loop, id in listening)
    {
      forall id | id in consumers
        ensures id in m.registry && StoppedOnce(consumers[id], m.table[m.registry[id]].pool.loop, id in listening)
      {
        var i := registry[id];
        assert R.SoundConsumer(m, i) && m.table[i].tenant == id && R.Registered(m, i);
        assert started[i].State() == q.table[i] == Stopped(m.table[i], id in listening);
      }
    }

    method Clear(ghost q: R.Manager)
      requires Tracks(q) && q.lock == R.Stopping({})
      modifies this
      ensures consumers == map[] && started == old(started) && Mirrors(R.Apply(q, R.EndStop))
    {
      consumers, registry := map[], map[];
    }

    /** The visits, from lock to unlock but for the map. */
    method VisitAll(listening: set<string>, ghost m: R.Manager) returns (ghost es: seq<R.Event>, ghost q: R.Manager)
      requires Mirrors(m) && R.Inv(m)
      modifies consumers.Values
      ensures Tracks(q) && q.lock == R.Stopping({}) && R.Inv(R.Apply(q, R.EndStop))
      ensures RunTo(m, [R.BeginStop] + es + [R.EndStop], R.Apply(q, R.EndStop))
      ensures StoppedBut(R.Apply(m, R.BeginStop), q, {}, listening)
      ensures forall id :: id in consumers ==>
                id in m.registry && StoppedOnce(consumers[id], m.table[m.registry[id]].pool.loop, id in listening)
    {
      ghost var m1 := R.Apply(m, R.BeginStop);
      R.StepKeepsInv(m, R.BeginStop);
      es, q := StopEach(listening, m1);
      R.StepKeepsInv(q, R.EndStop);
      StopTrace(m, es, q);
      ObjectsStopped(m1, q, listening);
    }

    /** Visits the consumers in any order; `listening` are those whose loop waits in its select. */
    method StopAllConsumers(listening: set<string>, ghost m: R.Manager)
      returns (ghost es: seq<R.Event>, ghost q: R.Manager)
      requires Mirrors(m) && R.Inv(m)
      modifies this, consumers.Values
      ensures consumers == map[]
      ensures RunTo(m, [R.BeginStop] + es + [R.EndStop], q) && R.Inv(q) && Mirrors(q)
      ensures forall id :: id in old(consumers) ==>
                id in m.registry && StoppedOnce(old(consumers)[id], m.table[m.registry[id]].pool.loop, id in listening)
      ensures StoppedBut(R.Apply(m, R.BeginStop), q.(lock := R.Stopping({}), registry := m.registry), {}, listening)
    {
      ghost var visited;
      es, visited := VisitAll(listening, m);
      Clear(visited);
      q := R.Apply(visited, R.EndStop);
    }
  }

  ghost predicate RunTo(m: R.Manager, es: seq<R.Event>, q: R.Manager) {
    R.Legal(m, es) && R.Final(m, es) == q
  }

  lemma RunToOne(m: R.Manager, es: seq<R.Event>, q: R.Manager, e: R.Event)
    requires RunTo(m, es, q) && R.Enabled(q, e)
    ensures RunTo(m, es + [e], R.Apply(q, e))
  {
    RegistryRunOne(m, es, e);
  }

  lemma StopTrace(m: R.Manager, es: seq<R.Event>, q: R.Manager)
    requires R.Enabled(m, R.BeginStop) && RunTo(R.Apply(m, R.BeginStop), es, q) && R.Enabled(q, R.EndStop)
    ensures RunTo(m, [R.BeginStop] + es + [R.EndStop], R.Apply(q, R.EndStop))
  {
    assert ([R.BeginStop] + es)[1..] == es;
    RunToOne(m, [R.BeginStop] + es, q, R.EndStop);
  }
}
