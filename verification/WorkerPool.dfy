/** The token channel of one tenant consumer as a step machine.

    The consumer loop takes a token per delivery, the goroutine it spawns gives the token back, and
    a concurrency update adds or removes tokens one non-blocking select at a time.  The three run
    concurrently; every interleaving is a list of events. */
module WorkerPool {

  datatype Loop = Selecting | Waiting | Exited

  /** Where the goroutine that holds the manager's mutex is inside a concurrency update. */
  datatype Updater = Idle | Adding(left: nat, target: int) | Removing(left: nat, target: int)

  datatype Pool = Pool(
    cap: nat,          // capacity of the channel
    tokens: nat,       // tokens lying in the channel
    working: nat,      // goroutines inside processMessage, each owning a token
    returning: nat,    // goroutines in the deferred send, each still owning its token
    loop: Loop,
    workerCount: int,
    updater: Updater
  ) {
    /** T: the tokens that exist, wherever they are. */
    function Total(): nat {
      tokens + working + returning
    }

    /** The worker count the updates carried out so far aim at. */
    function Settled(): int {
      match updater
      case Idle => workerCount
      case Adding(left, target) => target - left
      case Removing(left, target) => target + left
    }
  }

  datatype Event =
    | Receive | ReceiveStop          // the consumer loop's select
    | Take | HandOver                // its receive: from the buffer, or from a sender waiting to send
    | Finish | Return                // a worker goroutine: processMessage ends, the deferred send succeeds
    | Begin(workers: int) | End      // a concurrency update
    | Add | AddToLoop | AddDefault   // one iteration of the adding loop
    | Remove | RemoveFromSender | RemoveDefault

  /** make(chan struct{}, workerCount), then workerCount sends. */
  function Start(workers: nat): Pool {
    Pool(workers, workers, 0, 0, Selecting, workers, Idle)
  }

  /** A loop may wait, and a goroutine return its token, without having parked in its channel operation
      yet.  Where that matters, both branches of the other side's select are enabled.  A sender can only
      be parked while the channel is full. */
  predicate Enabled(p: Pool, e: Event) {
    match e
    case Receive => p.loop.Selecting?
    case ReceiveStop => p.loop.Selecting?
    case Take => p.loop.Waiting? && 0 < p.tokens
    case HandOver => p.loop.Waiting? && p.tokens == 0 && 0 < p.returning
    case Finish => 0 < p.working
    case Return => 0 < p.returning && p.tokens < p.cap
    case Begin(_) => p.updater.Idle?
    case End => !p.updater.Idle? && p.updater.left == 0
    case Add => p.updater.Adding? && 0 < p.updater.left && p.tokens < p.cap
    case AddToLoop => p.updater.Adding? && 0 < p.updater.left && p.tokens == 0 && p.loop.Waiting?
    case AddDefault => p.updater.Adding? && 0 < p.updater.left && p.tokens == p.cap
    case Remove => p.updater.Removing? && 0 < p.updater.left && 0 < p.tokens
    case RemoveFromSender => p.updater.Removing? && 0 < p.updater.left && p.tokens == p.cap && 0 < p.returning
    case RemoveDefault => p.updater.Removing? && 0 < p.updater.left && p.tokens == 0
  }

  function Apply(p: Pool, e: Event): Pool
    requires Enabled(p, e)
  {
    match e
    case Receive => p.(loop := Waiting)
    case ReceiveStop => p.(loop := Exited)
    case Take => p.(loop := Selecting, tokens := p.tokens - 1, working := p.working + 1)
    case HandOver => p.(loop := Selecting, returning := p.returning - 1, working := p.working + 1)
    case Finish => p.(working := p.working - 1, returning := p.returning + 1)
    case Return => p.(returning := p.returning - 1, tokens := p.tokens + 1)
    case Begin(n) =>
      p.(updater := if n < p.workerCount then Removing(p.workerCount - n, n)
                    else Adding(n - p.workerCount, n))
    case End => p.(workerCount := p.updater.target, updater := Idle)
    case Add => Decrement(p).(tokens := p.tokens + 1)
    case AddToLoop => Decrement(p).(loop := Selecting, working := p.working + 1)
    case AddDefault => Decrement(p)   // break leaves the select, not the loop
    case Remove => Decrement(p).(tokens := p.tokens - 1)
    case RemoveFromSender => Decrement(p).(returning := p.returning - 1)   // its token takes the freed place
    case RemoveDefault => Decrement(p)
  }

  function Decrement(p: Pool): Pool
    requires !p.updater.Idle? && 0 < p.updater.left
  {
    match p.updater
    case Adding(left, target) => p.(updater := Adding(left - 1, target))
    case Removing(left, target) => p.(updater := Removing(left - 1, target))
  }

  predicate Legal(p: Pool, es: seq<Event>)
    decreases |es|
  {
    es == [] || (Enabled(p, es[0]) && Legal(Apply(p, es[0]), es[1..]))
  }

  function Final(p: Pool, es: seq<Event>): Pool
    requires Legal(p, es)
    decreases |es|
  {
    if es == [] then p else Final(Apply(p, es[0]), es[1..])
  }

  /** How often an event occurs in a run. */
  function Count(es: seq<Event>, e: Event): nat {
    if es == [] then 0 else (if es[0] == e then 1 else 0) + Count(es[1..], e)
  }

  /** Every requested worker count lies between lo and hi. */
  predicate Sizes(es: seq<Event>, lo: int, hi: int) {
    forall i :: 0 <= i < |es| && es[i].Begin? ==> lo <= es[i].workers <= hi
  }

  lemma SizesTail(es: seq<Event>, lo: int, hi: int)
    requires es != [] && Sizes(es, lo, hi)
    ensures Sizes(es[1..], lo, hi) && (es[0].Begin? ==> lo <= es[0].workers <= hi)
  {
    assert forall i :: 0 <= i < |es[1..]| ==> es[1..][i] == es[i + 1];
  }

  predicate OfUpdater(e: Event) {
    e.Begin? || e.End? || e.Add? || e.AddToLoop? || e.AddDefault?
    || e.Remove? || e.RemoveFromSender? || e.RemoveDefault?
  }

  // ---- Composing runs ----

  lemma {:induction false} RunAppend(p: Pool, es: seq<Event>, fs: seq<Event>)
    requires Legal(p, es) && Legal(Final(p, es), fs)
    ensures Legal(p, es + fs) && Final(p, es + fs) == Final(Final(p, es), fs)
    decreases |es|
  {
    if es == [] {
      assert es + fs == fs;
    } else {
      RunAppend(Apply(p, es[0]), es[1..], fs);
      assert (es + fs)[1..] == es[1..] + fs;
    }
  }

  lemma {:induction false} CountAppend(es: seq<Event>, fs: seq<Event>, e: Event)
    ensures Count(es + fs, e) == Count(es, e) + Count(fs, e)
  {
    if es == [] {
      assert es + fs == fs;
    } else {
      CountAppend(es[1..], fs, e);
      assert (es + fs)[1..] == es[1..] + fs;
    }
  }

  /** On a buffered channel each direct hand-over amounts to a send and a receive. */
  lemma HandOverIsSendAndReceive(p: Pool)
    requires 1 <= p.cap
    ensures Enabled(p, HandOver) ==> Composes(p, Return, Take, HandOver)
    ensures Enabled(p, AddToLoop) ==> Composes(p, Add, Take, AddToLoop)
    ensures Enabled(p, RemoveFromSender) ==> Composes(p, Remove, Return, RemoveFromSender)
  {
  }

  /** First d, then e, is the step f. */
  predicate Composes(p: Pool, d: Event, e: Event, f: Event) {
    && Enabled(p, d) && Enabled(Apply(p, d), e) && Enabled(p, f)
    && Apply(Apply(p, d), e) == Apply(p, f)
  }

  // ---- Token accounting ----

  /** The gap between the tokens that exist and the worker count aimed at. */
  function Surplus(p: Pool): int {
    p.Total() - p.Settled()
  }

  /** One step moves the surplus only through a default branch, and never overfills the channel. */
  lemma AccountingStep(p: Pool, e: Event)
    requires Enabled(p, e)
    ensures Surplus(Apply(p, e)) == Surplus(p) - (if e.AddDefault? then 1 else 0) + (if e.RemoveDefault? then 1 else 0)
    ensures Apply(p, e).cap == p.cap
    ensures p.tokens <= p.cap ==> Apply(p, e).tokens <= p.cap
  {
  }

  /** Over any run, from any state, the surplus falls by one for each dropped add and rises by one for
      each dropped removal. */
  lemma {:induction false} Accounting(p: Pool, es: seq<Event>)
    requires Legal(p, es)
    ensures Surplus(Final(p, es)) == Surplus(p) - Count(es, AddDefault) + Count(es, RemoveDefault)
    ensures Final(p, es).cap == p.cap
    ensures p.tokens <= p.cap ==> Final(p, es).tokens <= p.cap
    decreases |es|
  {
    if es != [] {
      AccountingStep(p, es[0]);
      Accounting(Apply(p, es[0]), es[1..]);
    }
  }

  /** The law for a consumer: T is the worker count (with the pending part of an update added or
      taken off), minus the dropped adds, plus the dropped removals. */
  lemma TokensAccounted(workers: nat, es: seq<Event>)
    requires Legal(Start(workers), es)
    ensures var q := Final(Start(workers), es);
            && q.tokens <= q.cap == workers
            && q.Total() == q.Settled() - Count(es, AddDefault) + Count(es, RemoveDefault)
            && (q.updater.Idle? ==> q.Settled() == q.workerCount)
  {
    Accounting(Start(workers), es);
  }

  /** Between updates T is within the worker count if and only if no more removals than adds were dropped. */
  lemma TotalBoundedExactly(workers: nat, es: seq<Event>)
    requires Legal(Start(workers), es) && Final(Start(workers), es).updater.Idle?
    ensures var q := Final(Start(workers), es);
            && (q.Total() <= q.workerCount <==> Count(es, RemoveDefault) <= Count(es, AddDefault))
            && (q.Total() == q.workerCount <==> Count(es, RemoveDefault) == Count(es, AddDefault))
  {
    TokensAccounted(workers, es);
  }

  // ---- No starvation ----

  /** What a run whose requests stay between 1 and the capacity keeps. */
  predicate Covered(p: Pool) {
    && p.tokens <= p.cap
    && 1 <= p.workerCount <= p.cap
    && 1 <= p.Settled() <= p.Total()
    && (!p.updater.Idle? ==> 1 <= p.updater.target <= p.cap)
  }

  lemma CoveredStep(p: Pool, e: Event)
    requires Covered(p) && Enabled(p, e) && (e.Begin? ==> 1 <= e.workers <= p.cap)
    ensures Covered(Apply(p, e)) && Apply(p, e).cap == p.cap
  {
  }

  lemma {:induction false} CoveredRun(p: Pool, es: seq<Event>)
    requires Covered(p) && Legal(p, es) && Sizes(es, 1, p.cap)
    ensures Covered(Final(p, es))
    decreases |es|
  {
    if es != [] {
      CoveredStep(p, es[0]);
      SizesTail(es, 1, p.cap);
      CoveredRun(Apply(p, es[0]), es[1..]);
    }
  }

  /** With every request between 1 and the capacity, T is never below the worker count between
      updates, nor below one at any time, however the updates interleave with the workers. */
  lemma NoStarvation(workers: nat, es: seq<Event>)
    requires 1 <= workers && Legal(Start(workers), es) && Sizes(es, 1, workers)
    ensures var q := Final(Start(workers), es);
            && 1 <= q.Total()
            && (q.updater.Idle? ==> 1 <= q.workerCount <= q.Total())
    ensures Covered(Final(Start(workers), es))
  {
    CoveredRun(Start(workers), es);
  }

  /** A loop that waits for a token gets one after at most two steps of the workers and its own. */
  lemma WaitingLoopServed(p: Pool) returns (es: seq<Event>)
    requires Covered(p) && p.loop.Waiting?
    ensures Legal(p, es) && |es| <= 2 && Final(p, es).loop.Selecting?
    ensures forall i :: 0 <= i < |es| ==> es[i] in {Finish, HandOver, Take}
  {
    es := [];
    if p.tokens == p.returning == 0 {
      RunOne(p, es, Finish);
      es := es + [Finish];
    }
    var e := if 0 < p.tokens then Take else HandOver;
    RunOne(p, es, e);
    es := es + [e];
  }

  /** Between the steps of an update every schedule serves a waiting loop: as long as it waits some step
      is enabled, and at most 2 * working + returning steps pass before it has its token. */
  lemma {:induction false} EveryScheduleServes(p: Pool, es: seq<Event>)
    requires Covered(p) && p.loop.Waiting? && Legal(p, es)
    requires forall i :: 0 <= i < |es| ==> !OfUpdater(es[i])
    requires Take !in es && HandOver !in es
    ensures |es| <= 2 * p.working + p.returning
    ensures var q := Final(p, es);
            q.loop.Waiting? && (Enabled(q, Finish) || Enabled(q, Take) || Enabled(q, HandOver))
    decreases |es|
  {
    if es != [] {
      assert !OfUpdater(es[0]) && es[0] in es;
      CoveredStep(p, es[0]);
      assert forall i :: 0 <= i < |es[1..]| ==> es[1..][i] == es[i + 1];
      EveryScheduleServes(Apply(p, es[0]), es[1..]);
    }
  }

  // ---- Exactness and the concurrency bound ----

  /** What a run whose requests stay within the capacity keeps while no removal is dropped. */
  predicate Exact(p: Pool) {
    && p.tokens <= p.cap
    && p.workerCount <= p.cap
    && p.Total() == p.Settled() <= p.cap
    && (!p.updater.Idle? ==> p.updater.target <= p.cap)
  }

  lemma ExactStep(p: Pool, e: Event)
    requires Exact(p) && Enabled(p, e) && !e.RemoveDefault? && (e.Begin? ==> e.workers <= p.cap)
    ensures Exact(Apply(p, e)) && Apply(p, e).cap == p.cap && !e.AddDefault?
  {
  }

  lemma {:induction false} ExactRun(p: Pool, es: seq<Event>)
    requires Exact(p) && Legal(p, es) && Count(es, RemoveDefault) == 0
    requires forall i :: 0 <= i < |es| && es[i].Begin? ==> es[i].workers <= p.cap
    ensures Count(es, AddDefault) == 0
    ensures Exact(Final(p, es)) && Final(p, es).cap == p.cap
    decreases |es|
  {
    if es != [] {
      assert es[0].Begin? ==> es[0].workers <= p.cap;
      ExactStep(p, es[0]);
      assert forall i :: 0 <= i < |es[1..]| ==> es[1..][i] == es[i + 1];
      ExactRun(Apply(p, es[0]), es[1..]);
    }
  }

  /** If no removal takes its default branch, the workers that own a token never outnumber the worker
      count between updates. */
  lemma ConcurrencyBound(workers: nat, es: seq<Event>)
    requires Legal(Start(workers), es) && Count(es, RemoveDefault) == 0
    ensures var q := Final(Start(workers), es);
            && q.working + q.returning <= q.Total() <= q.Settled()
            && (q.updater.Idle? ==> q.working + q.returning <= q.workerCount)
  {
    Accounting(Start(workers), es);
  }

  /** If moreover no request exceeds the capacity, no add is dropped, T is the worker count between
      updates, and no worker ever blocks when it returns its token. */
  lemma Exactness(workers: nat, es: seq<Event>)
    requires Legal(Start(workers), es) && Count(es, RemoveDefault) == 0
    requires forall i :: 0 <= i < |es| && es[i].Begin? ==> es[i].workers <= workers
    ensures Count(es, AddDefault) == 0
    ensures var q := Final(Start(workers), es);
            && (q.updater.Idle? ==> q.Total() == q.workerCount)
            && (0 < q.returning ==> Enabled(q, Return))
  {
    ExactRun(Start(workers), es);
  }

  // ---- The conditions cannot be dropped ----

  function Repeat(e: Event, n: nat): (es: seq<Event>)
    ensures |es| == n && forall i :: 0 <= i < n ==> es[i] == e
  {
    if n == 0 then [] else [e] + Repeat(e, n - 1)
  }

  lemma {:induction false} DropAdds(p: Pool, n: nat)
    requires p.updater.Adding? && n <= p.updater.left && p.tokens == p.cap
    ensures Legal(p, Repeat(AddDefault, n))
    ensures Final(p, Repeat(AddDefault, n)) == p.(updater := Adding(p.updater.left - n, p.updater.target))
    decreases n
  {
    if n != 0 {
      DropAdds(Apply(p, AddDefault), n - 1);
      assert Repeat(AddDefault, n)[1..] == Repeat(AddDefault, n - 1);
    }
  }

  lemma {:induction false} RemoveMany(p: Pool, n: nat)
    requires p.updater.Removing? && n <= p.updater.left && n <= p.tokens
    ensures Legal(p, Repeat(Remove, n))
    ensures Final(p, Repeat(Remove, n))
            == p.(tokens := p.tokens - n, updater := Removing(p.updater.left - n, p.updater.target))
    decreases n
  {
    if n != 0 {
      RemoveMany(Apply(p, Remove), n - 1);
      assert Repeat(Remove, n)[1..] == Repeat(Remove, n - 1);
    }
  }

  lemma {:induction false} DropRemovals(p: Pool, n: nat)
    requires p.updater.Removing? && n <= p.updater.left && p.tokens == 0
    ensures Legal(p, Repeat(RemoveDefault, n))
    ensures Final(p, Repeat(RemoveDefault, n)) == p.(updater := Removing(p.updater.left - n, p.updater.target))
    decreases n
  {
    if n != 0 {
      DropRemovals(Apply(p, RemoveDefault), n - 1);
      assert Repeat(RemoveDefault, n)[1..] == Repeat(RemoveDefault, n - 1);
    }
  }

  lemma RunOne(p: Pool, es: seq<Event>, e: Event)
    requires Legal(p, es) && Enabled(Final(p, es), e)
    ensures Legal(p, es + [e]) && Final(p, es + [e]) == Apply(Final(p, es), e)
  {
    assert Legal(Final(p, es), [e]);
    RunAppend(p, es, [e]);
  }

  lemma {:induction false} RunPrefix(p: Pool, es: seq<Event>, n: nat)
    requires Legal(p, es) && n < |es|
    ensures Legal(p, es[..n]) && Enabled(Final(p, es[..n]), es[n])
    decreases n
  {
    if n != 0 {
      RunPrefix(Apply(p, es[0]), es[1..], n - 1);
      assert es[..n][0] == es[0] && es[..n][1..] == es[1..][..n - 1];
    }
  }

  /** A whole update around its loop iterations. */
  lemma UpdateRun(p: Pool, n: int, body: seq<Event>) returns (es: seq<Event>)
    requires p.updater.Idle? && Legal(Apply(p, Begin(n)), body)
    requires forall i :: 0 <= i < |body| ==> !body[i].Begin?
    requires var q := Final(Apply(p, Begin(n)), body); !q.updater.Idle? && q.updater.left == 0
    ensures Legal(p, es) && Sizes(es, n, n)
    ensures Final(p, es) == Apply(Final(Apply(p, Begin(n)), body), End)
  {
    RunOne(Apply(p, Begin(n)), body, End);
    es := [Begin(n)] + (body + [End]);
    assert es[1..] == body + [End];
  }

  lemma GrowFull(p: Pool, n: int) returns (es: seq<Event>)
    requires p.updater.Idle? && p.tokens == p.cap && p.workerCount <= n
    ensures Legal(p, es) && Sizes(es, n, n) && Final(p, es) == p.(workerCount := n)
  {
    DropAdds(Apply(p, Begin(n)), n - p.workerCount);
    es := UpdateRun(p, n, Repeat(AddDefault, n - p.workerCount));
  }

  lemma ShrinkFull(p: Pool, n: int) returns (es: seq<Event>)
    requires p.updater.Idle? && n < p.workerCount && p.tokens <= p.workerCount - n
    ensures Legal(p, es) && Sizes(es, n, n) && Final(p, es) == p.(workerCount := n, tokens := 0)
  {
    var q := Apply(p, Begin(n));
    var rest := p.workerCount - n - p.tokens;
    RemoveMany(q, p.tokens);
    DropRemovals(Final(q, Repeat(Remove, p.tokens)), rest);
    RunAppend(q, Repeat(Remove, p.tokens), Repeat(RemoveDefault, rest));
    es := UpdateRun(p, n, Repeat(Remove, p.tokens) + Repeat(RemoveDefault, rest));
  }

  /** Growing an idle pool beyond its capacity and shrinking it again leaves no token at all. */
  lemma OversizedRequestStarves(workers: nat, n: int) returns (es: seq<Event>)
    requires 1 <= workers < n
    ensures Legal(Start(workers), es) && Sizes(es, 1, n)
    ensures var q := Final(Start(workers), es); q.updater.Idle? && q.workerCount == 1 && q.Total() == 0
  {
    var p := Start(workers);
    var fs := GrowFull(p, n);
    var gs := ShrinkFull(Final(p, fs), 1);
    RunAppend(p, fs, gs);
    es := fs + gs;
  }

  /** No update between 1 and n ever empties the pool. */
  ghost predicate NeverEmpty(workers: nat, n: int) {
    forall es :: Legal(Start(workers), es) && Sizes(es, 1, n) ==> 1 <= Final(Start(workers), es).Total()
  }

  /** The exact condition: a consumer started with w workers can be starved by requests between 1
      and n if and only if n exceeds w. */
  lemma StarvationExactly(workers: nat, n: int)
    requires 1 <= workers && 1 <= n
    ensures NeverEmpty(workers, n) <==> n <= workers
  {
    if n <= workers {
      forall es | Legal(Start(workers), es) && Sizes(es, 1, n)
        ensures 1 <= Final(Start(workers), es).Total()
      {
        NoStarvation(workers, es);
      }
    } else {
      var es := OversizedRequestStarves(workers, n);
    }
  }

  lemma {:induction false} TakeAll(p: Pool, n: nat) returns (es: seq<Event>)
    requires p.loop.Selecting? && n <= p.tokens
    ensures Legal(p, es) && Final(p, es) == p.(tokens := p.tokens - n, working := p.working + n)
    ensures forall i :: 0 <= i < |es| ==> !es[i].Begin?
    decreases n
  {
    if n == 0 {
      es := [];
    } else {
      var q := Apply(Apply(p, Receive), Take);
      var rest := TakeAll(q, n - 1);
      es := [Receive, Take] + rest;
      assert es[1..] == [Take] + rest && es[1..][1..] == rest;
    }
  }

  /** Shrinking by one while every worker is busy and growing back by one raises T by one. */
  lemma Pump(p: Pool) returns (es: seq<Event>)
    requires p.loop.Selecting? && p.updater.Idle? && p.tokens == 0 && 2 <= p.workerCount <= p.cap
    ensures Legal(p, es) && Sizes(es, p.workerCount - 1, p.workerCount)
    ensures Final(p, es) == p.(working := p.working + 1)
  {
    var n := p.workerCount;
    var q := Apply(p, Begin(n - 1));
    RunOne(q, [], RemoveDefault);
    var fs := UpdateRun(p, n - 1, [] + [RemoveDefault]);
    var p1 := Final(p, fs);
    RunOne(Apply(p1, Begin(n)), [], Add);
    var gs := UpdateRun(p1, n, [] + [Add]);
    RunAppend(p, fs, gs);
    RunOne(p, fs + gs, Receive);
    RunOne(p, fs + gs + [Receive], Take);
    es := fs + gs + [Receive] + [Take];
  }

  /** Without the condition on removals nothing bounds the concurrency: two requests within the
      capacity, repeated while the workers are busy, raise the running workers past any number. */
  lemma {:induction false} BusyShrinkUnbounded(workers: nat, extra: nat) returns (es: seq<Event>)
    requires 2 <= workers
    ensures Legal(Start(workers), es) && Sizes(es, workers - 1, workers)
    ensures Final(Start(workers), es) == Start(workers).(tokens := 0, working := workers + extra)
  {
    var p := Start(workers);
    if extra == 0 {
      es := TakeAll(p, workers);
    } else {
      var fs := BusyShrinkUnbounded(workers, extra - 1);
      var gs := Pump(Final(p, fs));
      RunAppend(p, fs, gs);
      es := fs + gs;
    }
  }

  /** Adding to a busy pool when the loop takes each added token for a new worker. */
  lemma {:induction false} AddBusy(p: Pool, k: nat) returns (es: seq<Event>)
    requires p.updater.Adding? && k <= p.updater.left && p.loop.Selecting? && p.tokens == 0
    ensures Legal(p, es) && forall i :: 0 <= i < |es| ==> !es[i].Begin?
    ensures Final(p, es) == p.(working := p.working + k, updater := Adding(p.updater.left - k, p.updater.target))
    decreases k
  {
    if k == 0 {
      es := [];
    } else {
      RunOne(p, [], Receive);
      RunOne(p, [] + [Receive], AddToLoop);
      es := [] + [Receive] + [AddToLoop];
      var rest := AddBusy(Final(p, es), k - 1);
      RunAppend(p, es, rest);
      es := es + rest;
    }
  }

  lemma GrowBusy(p: Pool, n: int) returns (es: seq<Event>)
    requires p.updater.Idle? && p.loop.Selecting? && p.tokens == 0 && p.workerCount <= n
    ensures Legal(p, es) && Sizes(es, n, n)
    ensures Final(p, es) == p.(working := p.working + (n - p.workerCount), workerCount := n)
  {
    var body := AddBusy(Apply(p, Begin(n)), n - p.workerCount);
    es := UpdateRun(p, n, body);
  }

  /** A request that shrinks a pool whose workers are all busy leaves more of them than it asks for. */
  lemma ShrinkBusy(workers: nat, lo: int, hi: int) returns (es: seq<Event>)
    requires lo <= hi && (lo < workers || lo < hi)
    ensures Legal(Start(workers), es) && Sizes(es, lo, hi)
    ensures var q := Final(Start(workers), es); q.updater.Idle? && q.workerCount < q.working
  {
    var p := Start(workers);
    es := TakeAll(p, workers);
    if workers <= lo {
      var fs := GrowBusy(Final(p, es), hi);
      RunAppend(p, es, fs);
      es := es + fs;
    }
    var gs := ShrinkFull(Final(p, es), lo);
    RunAppend(p, es, gs);
    es := es + gs;
  }

  /** Between updates the workers that own a token stay within the worker count, whatever the run. */
  ghost predicate AlwaysBounded(workers: nat, lo: int, hi: int) {
    forall es :: Legal(Start(workers), es) && Sizes(es, lo, hi) && Final(Start(workers), es).updater.Idle? ==>
      Final(Start(workers), es).working + Final(Start(workers), es).returning <= Final(Start(workers), es).workerCount
  }

  /** What a run keeps whose requests all ask for n, at least the worker count it starts with. */
  lemma {:induction false} NeverShrinks(p: Pool, es: seq<Event>, n: int)
    requires Legal(p, es) && Sizes(es, n, n) && p.workerCount <= n
    requires !p.updater.Removing? && (p.updater.Adding? ==> p.updater.target == n)
    ensures Count(es, RemoveDefault) == 0
    decreases |es|
  {
    if es != [] {
      SizesTail(es, n, n);
      NeverShrinks(Apply(p, es[0]), es[1..], n);
    }
  }

  /** The concurrency bound, exactly: requests between lo and hi keep the workers that own a token within
      the worker count if and only if no request can ever shrink the pool. */
  lemma ConcurrencyBoundExactly(workers: nat, lo: int, hi: int)
    requires lo <= hi
    ensures AlwaysBounded(workers, lo, hi) <==> workers <= lo == hi
  {
    if workers <= lo == hi {
      forall es | Legal(Start(workers), es) && Sizes(es, lo, hi) && Final(Start(workers), es).updater.Idle?
        ensures Final(Start(workers), es).working + Final(Start(workers), es).returning <= Final(Start(workers), es).workerCount
      {
        NeverShrinks(Start(workers), es, lo);
        ConcurrencyBound(workers, es);
      }
    } else {
      var es := ShrinkBusy(workers, lo, hi);
    }
  }

  // ---- Quiescence after stop ----

  /** No step is left to the workers: all are done and none can put its token back. */
  predicate Quiet(p: Pool) {
    p.working == 0 && !Enabled(p, Return)
  }

  /** Once the loop has exited, every run without updates ends, and when nothing moves any more
      exactly the tokens that do not fit the channel belong to goroutines stuck in their send. */
  lemma {:induction false} QuiescenceAfterStop(p: Pool, es: seq<Event>)
    requires p.loop.Exited? && p.updater.Idle? && p.tokens <= p.cap && Legal(p, es)
    requires forall i :: 0 <= i < |es| ==> !OfUpdater(es[i])
    ensures |es| <= 2 * p.working + p.returning
    ensures Final(p, es).loop.Exited?
    ensures Quiet(Final(p, es)) ==>
              Final(p, es).returning == (if p.cap < p.Total() then p.Total() - p.cap else 0)
    decreases |es|
  {
    if es != [] {
      assert !OfUpdater(es[0]);
      assert forall i :: 0 <= i < |es[1..]| ==> es[1..][i] == es[i + 1];
      QuiescenceAfterStop(Apply(p, es[0]), es[1..]);
    }
  }
}
