/** One concurrency update that nothing interrupts: exactly how many tokens it can leave, given that the other
    side of a select may or may not be parked in its channel operation yet. */
module PoolUpdates {
  import opened WorkerPool

  /** The branch that a select of the updater takes; `parked` says whether the loop or a sender that it
      could deal with directly has parked in its channel operation. */
  function Select(p: Pool, parked: bool): (e: Event)
    requires !p.updater.Idle? && p.tokens <= p.cap
    ensures Enabled(p, e) && OfUpdater(e) && !e.Begin? && (e.End? <==> p.updater.left == 0)
  {
    if p.updater.left == 0 then End
    else if p.updater.Adding? then
      if parked && p.tokens == 0 && p.loop.Waiting? then AddToLoop
      else if p.tokens < p.cap then Add
      else AddDefault
    else
      if parked && p.tokens == p.cap && 0 < p.returning then RemoveFromSender
      else if 0 < p.tokens then Remove
      else RemoveDefault
  }

  /** Only iterations of the updater's loops. */
  predicate Alone(es: seq<Event>) {
    forall x :: x in es ==> OfUpdater(x) && !x.Begin? && !x.End?
  }

  function Min(a: int, b: int): int {
    if a < b then a else b
  }

  /** The tokens that a removing updater can get hold of: those in the channel, and those of the senders
      that a full channel may have parked. */
  function Removable(p: Pool): nat {
    p.tokens + if p.tokens == p.cap then p.returning else 0
  }

  /** The tokens that an adding updater can get rid of: as many as the channel has room for, and one to a
      loop that may be parked before an empty channel. */
  function Addable(p: Pool): int {
    p.cap - p.tokens + if p.tokens == 0 && p.loop.Waiting? then 1 else 0
  }

  /** The fewest tokens that the updater can leave when nothing else moves. */
  function Fewest(p: Pool): int {
    match p.updater
    case Idle => p.Total()
    case Adding(left, _) => p.Total() + Min(left, p.cap - p.tokens)
    case Removing(left, _) => p.Total() - Min(left, Removable(p))
  }

  /** The most. */
  function Most(p: Pool): int {
    match p.updater
    case Idle => p.Total()
    case Adding(left, _) => p.Total() + Min(left, Addable(p))
    case Removing(left, _) => p.Total() - Min(left, p.tokens)
  }

  /** One select keeps what is in reach when all are parked, or none is: parked goroutines make the most of an
      adding update and the fewest of a removing one. */
  lemma SelectKeepsBound(p: Pool, parked: bool)
    requires p.tokens <= p.cap && !p.updater.Idle? && 0 < p.updater.left
    ensures var q := Apply(p, Select(p, parked));
            if p.updater.Adding? == parked then Most(q) == Most(p) else Fewest(q) == Fewest(p)
  {
  }

  lemma AloneStep(p: Pool, e: Event)
    requires p.tokens <= p.cap && Enabled(p, e) && Alone([e])
    ensures var q := Apply(p, e);
            && Fewest(p) <= Fewest(q) && Most(q) <= Most(p)
            && q.tokens <= q.cap && q.workerCount == p.workerCount
            && !q.updater.Idle? && q.updater.target == p.updater.target
  {
    assert e in [e];
  }

  lemma {:induction false} AloneWithin(p: Pool, es: seq<Event>)
    requires p.tokens <= p.cap && !p.updater.Idle? && Legal(p, es) && Alone(es)
    ensures var q := Final(p, es);
            && Fewest(p) <= Fewest(q) && Most(q) <= Most(p)
            && q.tokens <= q.cap && q.workerCount == p.workerCount
            && !q.updater.Idle? && q.updater.target == p.updater.target
    decreases |es|
  {
    if es != [] {
      assert es[0] in es;
      AloneStep(p, es[0]);
      AloneWithin(Apply(p, es[0]), es[1..]);
    }
  }

  /** Of the branches that a select may have, one keeps t within reach. */
  lemma SelectTowards(p: Pool, t: int) returns (e: Event)
    requires p.tokens <= p.cap && !p.updater.Idle? && 0 < p.updater.left && Fewest(p) <= t <= Most(p)
    ensures Enabled(p, e) && Alone([e]) && Apply(p, e).tokens <= p.cap == Apply(p, e).cap
    ensures Fewest(Apply(p, e)) <= t <= Most(Apply(p, e))
    ensures !Apply(p, e).updater.Idle? && Apply(p, e).updater.left == p.updater.left - 1
  {
    var direct := if p.updater.Adding? then p.Total() + Min(p.updater.left, p.cap - p.tokens) < t
                  else t <= p.Total() - 1 - Min(p.updater.left - 1, p.tokens);
    e := Select(p, direct);
  }

  lemma {:induction false} AloneReaches(p: Pool, t: int) returns (es: seq<Event>)
    requires p.tokens <= p.cap && !p.updater.Idle? && Fewest(p) <= t <= Most(p)
    ensures Legal(p, es) && Alone(es)
    ensures var q := Final(p, es); !q.updater.Idle? && q.updater.left == 0 && q.Total() == t
    decreases p.updater.left
  {
    if p.updater.left == 0 {
      es := [];
    } else {
      var e := SelectTowards(p, t);
      var rest := AloneReaches(Apply(p, e), t);
      es := [e] + rest;
      assert es[1..] == rest && e in [e];
    }
  }

  /** An update to n that nothing interrupts can end with t tokens. */
  ghost predicate CanLeave(p: Pool, n: int, t: int)
    requires p.updater.Idle?
  {
    exists es :: Legal(Apply(p, Begin(n)), es) && Alone(es) && Leaves(Apply(p, Begin(n)), es, n, t)
  }

  predicate Leaves(p: Pool, es: seq<Event>, n: int, t: int)
    requires Legal(p, es)
  {
    var q := Final(p, es);
    Enabled(q, End) && Apply(q, End).workerCount == n && Apply(q, End).Total() == t
  }

  /** What an uninterrupted update leaves, exactly: any number of tokens from the fewest to the most, from
      any state between updates, whether or not earlier updates dropped steps. */
  lemma UpdateLeavesExactly(p: Pool, n: int, t: int)
    requires p.updater.Idle? && p.tokens <= p.cap
    ensures CanLeave(p, n, t) <==> Fewest(Apply(p, Begin(n))) <= t <= Most(Apply(p, Begin(n)))
  {
    var p1 := Apply(p, Begin(n));
    if CanLeave(p, n, t) {
      var es :| Legal(p1, es) && Alone(es) && Leaves(p1, es, n, t);
      AloneWithin(p1, es);
    }
    if Fewest(p1) <= t <= Most(p1) {
      var es := AloneReaches(p1, t);
      AloneWithin(p1, es);
      assert Leaves(p1, es, n, t);
    }
  }

  /** Some uninterrupted update to n leaves n tokens. */
  ghost predicate CanReach(p: Pool, n: int)
    requires p.updater.Idle?
  {
    CanLeave(p, n, n)
  }

  /** Every uninterrupted update to n leaves n tokens. */
  ghost predicate AlwaysReaches(p: Pool, n: int)
    requires p.updater.Idle?
  {
    forall t :: CanLeave(p, n, t) ==> t == n
  }

  /** The exact conditions for one uninterrupted update to reach the requested size.  Where T is the worker
      count, growing always does if the channel has room for the difference, and can with one more when
      the loop may be parked before an empty channel; shrinking always does if the difference lies in the
      channel, and can with the senders that a full channel may have parked. */
  lemma UpdateReachesSizeExactly(p: Pool, n: int)
    requires p.updater.Idle? && p.tokens <= p.cap
    ensures CanReach(p, n) <==> Fewest(Apply(p, Begin(n))) <= n <= Most(Apply(p, Begin(n)))
    ensures AlwaysReaches(p, n) <==> Fewest(Apply(p, Begin(n))) == n == Most(Apply(p, Begin(n)))
    ensures p.Total() == p.workerCount ==>
              (CanReach(p, n) <==> n - p.workerCount <= Addable(p) && p.workerCount - n <= Removable(p))
    ensures p.Total() == p.workerCount ==>
              (AlwaysReaches(p, n) <==> n - p.workerCount <= p.cap - p.tokens && p.workerCount - n <= p.tokens)
  {
    var p1 := Apply(p, Begin(n));
    UpdateLeavesExactly(p, n, n);
    UpdateLeavesExactly(p, n, Fewest(p1));
    UpdateLeavesExactly(p, n, Most(p1));
    assert Fewest(p1) <= Most(p1);
    forall t
      ensures CanLeave(p, n, t) <==> Fewest(p1) <= t <= Most(p1)
    {
      UpdateLeavesExactly(p, n, t);
    }
  }
}
