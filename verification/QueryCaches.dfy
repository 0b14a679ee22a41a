/** A cache of built queries that is read under one lock section and written under another, with any
    number of calls in between. */
module QueryCaches {

  /** What building a query for a call's arguments gives. */
  datatype Built<+E> = Query(entry: E) | NoQuery

  /** How a call's arguments become a key and a query. */
  datatype Scheme<!A, +E> = Scheme(key: A -> string, build: A -> Built<E>)

  /** Where a call is: it reads the cache, builds, executes, stores. */
  datatype Phase<+E> =
    | Looking
    | Building
    | Executing(entry: E, cached: bool)
    | Storing(entry: E)
    | Finished(entry: E)
    | Failed

  datatype Call<+A, +E> = Call(args: A, phase: Phase<E>)

  datatype Cache<+A, +E> = Cache(entries: map<string, E>, calls: seq<Call<A, E>>)

  /** A call begins, or call i goes on; `ok` is what the database says. */
  datatype Event<+A> = Begin(args: A) | Step(i: nat, ok: bool)

  function Empty<A, E>(): Cache<A, E> {
    Cache(map[], [])
  }

  predicate Enabled<A, E>(s: Cache<A, E>, e: Event<A>) {
    e.Step? ==> e.i < |s.calls| && !s.calls[e.i].phase.Finished? && !s.calls[e.i].phase.Failed?
  }

  function Advance<A, E>(sc: Scheme<A, E>, s: Cache<A, E>, c: Call<A, E>, ok: bool): Phase<E>
    requires !c.phase.Finished? && !c.phase.Failed?
  {
    match c.phase
    case Looking => if sc.key(c.args) in s.entries then Executing(s.entries[sc.key(c.args)], true) else Building
    case Building => (match sc.build(c.args) case Query(entry) => Executing(entry, false) case NoQuery => Failed)
    case Executing(entry, cached) => if !ok then Failed else if cached then Finished(entry) else Storing(entry)
    case Storing(entry) => Finished(entry)
  }

  function Apply<A, E>(sc: Scheme<A, E>, s: Cache<A, E>, e: Event<A>): Cache<A, E>
    requires Enabled(s, e)
  {
    match e
    case Begin(args) => s.(calls := s.calls + [Call(args, Looking)])
    case Step(i, ok) =>
      var c := s.calls[i];
      Cache(if c.phase.Storing? then s.entries[sc.key(c.args) := c.phase.entry] else s.entries,
            s.calls[i := c.(phase := Advance(sc, s, c, ok))])
  }

  predicate Legal<A, E>(sc: Scheme<A, E>, s: Cache<A, E>, es: seq<Event<A>>)
    decreases |es|
  {
    es == [] || (Enabled(s, es[0]) && Legal(sc, Apply(sc, s, es[0]), es[1..]))
  }

  function Final<A, E>(sc: Scheme<A, E>, s: Cache<A, E>, es: seq<Event<A>>): Cache<A, E>
    requires Legal(sc, s, es)
    decreases |es|
  {
    if es == [] then s else Final(sc, Apply(sc, s, es[0]), es[1..])
  }

  lemma {:induction false} RunOne<A, E>(sc: Scheme<A, E>, s: Cache<A, E>, es: seq<Event<A>>, e: Event<A>)
    requires Legal(sc, s, es) && Enabled(Final(sc, s, es), e)
    ensures Legal(sc, s, es + [e]) && Final(sc, s, es + [e]) == Apply(sc, Final(sc, s, es), e)
    decreases |es|
  {
    if es == [] {
      assert [] + [e] == [e] && [e][1..] == [];
      assert Legal(sc, Apply(sc, s, e), []);
    } else {
      assert (es + [e])[0] == es[0] && (es + [e])[1..] == es[1..] + [e];
      RunOne(sc, Apply(sc, s, es[0]), es[1..], e);
    }
  }

  // ---- Agreement with recomputation ----

  predicate Has<E>(p: Phase<E>) {
    p.Executing? || p.Storing? || p.Finished?
  }

  /** The arguments that a program passes. */
  ghost predicate Within<A(!new), E>(s: Cache<A, E>, allowed: A -> bool) {
    forall i :: 0 <= i < |s.calls| ==> allowed(s.calls[i].args)
  }

  ghost predicate Passes<A(!new)>(es: seq<Event<A>>, allowed: A -> bool) {
    forall x :: x in es && x.Begin? ==> allowed(x.args)
  }

  /** Each stored entry is what building gives for every call that would look it up, and each entry
      that a call uses is what building gives for that call. */
  ghost predicate Agrees<A(!new), E>(sc: Scheme<A, E>, allowed: A -> bool, s: Cache<A, E>) {
    && (forall a :: allowed(a) && sc.key(a) in s.entries ==> sc.build(a) == Query(s.entries[sc.key(a)]))
    && (forall i :: 0 <= i < |s.calls| && Has(s.calls[i].phase) ==>
          sc.build(s.calls[i].args) == Query(s.calls[i].phase.entry))
  }

  ghost predicate AlwaysAgrees<A(!new), E>(sc: Scheme<A, E>, allowed: A -> bool) {
    forall es :: Legal(sc, Empty<A, E>(), es) && Passes(es, allowed) ==> Agrees(sc, allowed, Final(sc, Empty<A, E>(), es))
  }

  /** The key settles what is built. */
  ghost predicate KeyDecides<A(!new), E>(sc: Scheme<A, E>, allowed: A -> bool) {
    forall a, b :: allowed(a) && allowed(b) && sc.key(a) == sc.key(b) ==> sc.build(a) == sc.build(b)
  }

  lemma StepAgrees<A(!new), E>(sc: Scheme<A, E>, allowed: A -> bool, s: Cache<A, E>, e: Event<A>)
    requires KeyDecides(sc, allowed) && Agrees(sc, allowed, s) && Within(s, allowed)
    requires Enabled(s, e) && (e.Begin? ==> allowed(e.args))
    ensures Agrees(sc, allowed, Apply(sc, s, e)) && Within(Apply(sc, s, e), allowed)
  {
    var s' := Apply(sc, s, e);
    if e.Step? {
      var c := s.calls[e.i];
      assert allowed(c.args);
      forall a | allowed(a) && sc.key(a) in s'.entries
        ensures sc.build(a) == Query(s'.entries[sc.key(a)])
      {
        assert sc.key(a) == sc.key(c.args) ==> sc.build(a) == sc.build(c.args);
      }
    }
  }

  lemma {:induction false} RunAgrees<A(!new), E>(sc: Scheme<A, E>, allowed: A -> bool, s: Cache<A, E>, es: seq<Event<A>>)
    requires KeyDecides(sc, allowed) && Agrees(sc, allowed, s) && Within(s, allowed)
    requires Legal(sc, s, es) && Passes(es, allowed)
    ensures Agrees(sc, allowed, Final(sc, s, es)) && Within(Final(sc, s, es), allowed)
    decreases |es|
  {
    if es != [] {
      StepAgrees(sc, allowed, s, es[0]);
      RunAgrees(sc, allowed, Apply(sc, s, es[0]), es[1..]);
    }
  }

  /** One call from begin to end on an empty cache. */
  lemma FirstCall<A(!new), E>(sc: Scheme<A, E>, a: A) returns (es: seq<Event<A>>)
    requires sc.build(a).Query?
    ensures Legal(sc, Empty<A, E>(), es)
    ensures forall x :: x in es && x.Begin? ==> x.args == a
    ensures Final(sc, Empty<A, E>(), es).entries == map[sc.key(a) := sc.build(a).entry]
  {
    var s0 := Empty<A, E>();
    var go := Event<A>.Step(0, true);
    RunOne(sc, s0, [], Begin(a));
    RunOne(sc, s0, [] + [Begin(a)], go);
    RunOne(sc, s0, [] + [Begin(a)] + [go], go);
    RunOne(sc, s0, [] + [Begin(a)] + [go] + [go], go);
    RunOne(sc, s0, [] + [Begin(a)] + [go] + [go] + [go], go);
    es := [] + [Begin(a)] + [go] + [go] + [go] + [go];
  }

  /** Cache agreement, exactly: over every interleaving of calls with allowed arguments the cache
      agrees with recomputation if and only if the key settles what is built for them. */
  lemma AgreesExactly<A(!new), E>(sc: Scheme<A, E>, allowed: A -> bool)
    ensures AlwaysAgrees(sc, allowed) <==> KeyDecides(sc, allowed)
  {
    if KeyDecides(sc, allowed) {
      forall es | Legal(sc, Empty<A, E>(), es) && Passes(es, allowed)
        ensures Agrees(sc, allowed, Final(sc, Empty<A, E>(), es))
      {
        RunAgrees(sc, allowed, Empty<A, E>(), es);
      }
    }
    if AlwaysAgrees(sc, allowed) {
      forall a, b | allowed(a) && allowed(b) && sc.key(a) == sc.key(b)
        ensures sc.build(a) == sc.build(b)
      {
        if sc.build(a).Query? {
          var es := FirstCall(sc, a);
          assert Passes(es, allowed);
          assert sc.key(b) in Final(sc, Empty<A, E>(), es).entries;
        } else if sc.build(b).Query? {
          var es := FirstCall(sc, b);
          assert Passes(es, allowed);
          assert sc.key(a) in Final(sc, Empty<A, E>(), es).entries;
        }
      }
    }
  }

  // ---- The cache as an object ----

  /** After the first n scheduled events, those of the call `mine` and those that cannot happen left out. */
  function AfterOthers<A, E>(sc: Scheme<A, E>, s: Cache<A, E>, mine: nat, xs: seq<Event<A>>, n: nat): (s': Cache<A, E>)
    requires n <= |xs|
    ensures s.entries.Keys <= s'.entries.Keys && |s.calls| <= |s'.calls|
    ensures mine < |s.calls| ==> s'.calls[mine] == s.calls[mine]
  {
    if n == 0 then s
    else
      var q := AfterOthers(sc, s, mine, xs, n - 1);
      if Enabled(q, xs[n - 1]) && (xs[n - 1].Step? ==> xs[n - 1].i != mine) then Apply(sc, q, xs[n - 1]) else q
  }

  lemma {:induction false} RunPrefix<A, E>(sc: Scheme<A, E>, s: Cache<A, E>, es: seq<Event<A>>, n: nat)
    requires Legal(sc, s, es) && n < |es|
    ensures Legal(sc, s, es[..n]) && Enabled(Final(sc, s, es[..n]), es[n])
    decreases n
  {
    if n != 0 {
      RunPrefix(sc, Apply(sc, s, es[0]), es[1..], n - 1);
      assert es[..n][0] == es[0] && es[..n][1..] == es[1..][..n - 1];
    }
  }

  /** Scheduled events of other calls that make a run all happen. */
  lemma {:induction false} RunTaken<A, E>(sc: Scheme<A, E>, s: Cache<A, E>, mine: nat, xs: seq<Event<A>>, n: nat)
    requires Legal(sc, s, xs) && n <= |xs| && forall x :: x in xs && x.Step? ==> x.i != mine
    ensures Legal(sc, s, xs[..n]) && AfterOthers(sc, s, mine, xs, n) == Final(sc, s, xs[..n])
  {
    if n != 0 {
      RunTaken(sc, s, mine, xs, n - 1);
      RunPrefix(sc, s, xs, n - 1);
      RunOne(sc, s, xs[..n - 1], xs[n - 1]);
      assert xs[..n] == xs[..n - 1] + [xs[n - 1]] && xs[n - 1] in xs;
    }
  }

  /** Call i's look into the cache, the others' events, and on a miss its query's construction. */
  function Prepared<A, E>(sc: Scheme<A, E>, s: Cache<A, E>, i: nat, others: seq<Event<A>>): Cache<A, E>
    requires i < |s.calls| && s.calls[i].phase.Looking?
  {
    var q := AfterOthers(sc, Apply(sc, s, Step(i, true)), i, others, |others|);
    if q.calls[i].phase.Building? then Apply(sc, q, Step(i, true)) else q
  }

  /** Its query runs, and if it is to be stored, is stored after the others' events. */
  function Completed<A, E>(sc: Scheme<A, E>, s: Cache<A, E>, i: nat, ok: bool, others: seq<Event<A>>): Cache<A, E>
    requires i < |s.calls| && s.calls[i].phase.Executing?
  {
    var q := Apply(sc, s, Step(i, ok));
    if q.calls[i].phase.Storing? then Apply(sc, AfterOthers(sc, q, i, others, |others|), Step(i, true)) else q
  }

  /** A whole call among others. */
  function Called<A, E>(sc: Scheme<A, E>, s: Cache<A, E>, args: A, ok: bool,
                        schedule: (seq<Event<A>>, seq<Event<A>>, seq<Event<A>>)): Cache<A, E> {
    var i := |s.calls|;
    var q := Prepared(sc, Apply(sc, s, Begin(args)), i, schedule.0);
    if i < |q.calls| && q.calls[i].phase.Executing?
    then Completed(sc, AfterOthers(sc, q, i, schedule.1, |schedule.1|), i, ok, schedule.2) else q
  }

  class QueryCache<A(!new), E> {
    var entries: map<string, E>
    var calls: seq<Call<A, E>>   // the calls begun so far, with how far each has come

    ghost function State(): Cache<A, E>
      reads this
    {
      Cache(entries, calls)
    }

    constructor ()
      ensures State() == Empty()
    {
      entries, calls := map[], [];
    }

    /** The section under the read lock. */
    method Lookup(sc: Scheme<A, E>, i: nat, key: string) returns (found: Built<E>)
      requires i < |calls| && calls[i].phase.Looking? && key == sc.key(calls[i].args)
      modifies this`calls
      ensures State() == Apply(sc, old(State()), Step(i, true))
      ensures found == if key in entries then Query(entries[key]) else NoQuery
    {
      if key in entries {
        found := Query(entries[key]);
        calls := calls[i := Call(calls[i].args, Executing(entries[key], true))];
      } else {
        found := NoQuery;
        calls := calls[i := Call(calls[i].args, Building)];
      }
    }

    /** The query is built from the call's own arguments. */
    method Build(sc: Scheme<A, E>, i: nat) returns (built: Built<E>)
      requires i < |calls| && calls[i].phase.Building?
      modifies this`calls
      ensures State() == Apply(sc, old(State()), Step(i, true))
      ensures built == sc.build(old(calls)[i].args)
    {
      built := sc.build(calls[i].args);
      calls := calls[i := Call(calls[i].args, if built.Query? then Executing(built.entry, false) else Failed)];
    }

    /** The database runs the query, or not. */
    method Execute(sc: Scheme<A, E>, i: nat, ok: bool)
      requires i < |calls| && calls[i].phase.Executing?
      modifies this`calls
      ensures State() == Apply(sc, old(State()), Step(i, ok))
    {
      var p := calls[i].phase;
      calls := calls[i := Call(calls[i].args, if !ok then Failed else if p.cached then Finished(p.entry) else Storing(p.entry))];
    }

    /** The section under the write lock. */
    method Store(sc: Scheme<A, E>, i: nat, key: string)
      requires i < |calls| && calls[i].phase.Storing? && key == sc.key(calls[i].args)
      modifies this
      ensures State() == Apply(sc, old(State()), Step(i, true))
    {
      entries := entries[key := calls[i].phase.entry];
      calls := calls[i := Call(calls[i].args, Finished(calls[i].phase.entry))];
    }

    method Move(sc: Scheme<A, E>, i: nat, ok: bool)
      requires Enabled(State(), Step(i, ok))
      modifies this
      ensures State() == Apply(sc, old(State()), Step(i, ok))
    {
      match calls[i].phase
      case Looking => var _ := Lookup(sc, i, sc.key(calls[i].args));
      case Building => var _ := Build(sc, i);
      case Executing(_, _) => Execute(sc, i, ok);
      case Storing(_) => Store(sc, i, sc.key(calls[i].args));
    }

    /** The object got here from state s0 by the run `ran`. */
    ghost predicate Reached(sc: Scheme<A, E>, s0: Cache<A, E>, ran: seq<Event<A>>)
      reads this
    {
      Legal(sc, s0, ran) && Final(sc, s0, ran) == State()
    }

    /** What other calls do in the meantime: those of the scheduled events that are theirs and can happen. */
    method Others(sc: Scheme<A, E>, mine: nat, schedule: seq<Event<A>>, ghost s0: Cache<A, E>, ghost before: seq<Event<A>>)
      returns (ghost ran: seq<Event<A>>)
      requires mine < |calls| && Reached(sc, s0, before)
      modifies this
      ensures Reached(sc, s0, ran) && mine < |calls| && calls[mine] == old(calls[mine])
      ensures forall x :: x in ran ==> x in before || x in schedule
      ensures State() == AfterOthers(sc, old(State()), mine, schedule, |schedule|)
    {
      ran := before;
      for k := 0 to |schedule|
        invariant State() == AfterOthers(sc, old(State()), mine, schedule, k)
        invariant Reached(sc, s0, ran) && mine < |calls| && calls[mine] == old(calls[mine])
        invariant forall x :: x in ran ==> x in before || x in schedule
      {
        var e := schedule[k];
        match e
        case Begin(args) =>
          RunOne(sc, s0, ran, e);
          calls := calls + [Call(args, Looking)];
          ran := ran + [e];
        case Step(i, ok) =>
          if i != mine && i < |calls| && !calls[i].phase.Finished? && !calls[i].phase.Failed? {
            RunOne(sc, s0, ran, e);
            Move(sc, i, ok);
            ran := ran + [e];
          }
      }
    }

    /** The first half of a call: a look into the cache and, on a miss, the query's construction. */
    method Prepare(sc: Scheme<A, E>, i: nat, key: string, others: seq<Event<A>>, ghost s0: Cache<A, E>, ghost before: seq<Event<A>>)
      returns (used: Built<E>, cached: bool, ghost ran: seq<Event<A>>)
      requires i < |calls| && calls[i].phase.Looking? && key == sc.key(calls[i].args) && Reached(sc, s0, before)
      modifies this
      ensures Reached(sc, s0, ran)
      ensures forall x :: x in ran ==> x in before || x in others || x.Step?
      ensures State() == Prepared(sc, old(State()), i, others)
      ensures cached <==> key in old(entries)
      ensures used == if cached then Query(old(entries)[key]) else sc.build(old(calls)[i].args)
      ensures |old(calls)| <= |calls| && old(entries).Keys <= entries.Keys
      ensures calls[i] == Call(old(calls)[i].args, if used.Query? then Executing(used.entry, cached) else Failed)
    {
      RunOne(sc, s0, before, Step(i, true));
      used := Lookup(sc, i, key);
      ran := Others(sc, i, others, s0, before + [Step(i, true)]);
      cached := used.Query?;
      if !cached {
        RunOne(sc, s0, ran, Step(i, true));
        used := Build(sc, i);
        ran := ran + [Step(i, true)];
      }
    }

    /** The second half: the query runs and, if it was built here, is stored under the write lock. */
    method Complete(sc: Scheme<A, E>, i: nat, key: string, ok: bool, others: seq<Event<A>>, ghost s0: Cache<A, E>,
                    ghost before: seq<Event<A>>) returns (ghost ran: seq<Event<A>>)
      requires i < |calls| && calls[i].phase.Executing? && key == sc.key(calls[i].args) && Reached(sc, s0, before)
      modifies this
      ensures Reached(sc, s0, ran)
      ensures forall x :: x in ran ==> x in before || x in others || x.Step?
      ensures State() == Completed(sc, old(State()), i, ok, others)
      ensures |old(calls)| <= |calls| && old(entries).Keys <= entries.Keys
      ensures calls[i] == Call(old(calls)[i].args, if ok then Finished(old(calls)[i].phase.entry) else Failed)
      ensures ok && !old(calls)[i].phase.cached ==> key in entries && entries[key] == old(calls)[i].phase.entry
    {
      var cached := calls[i].phase.cached;
      RunOne(sc, s0, before, Step(i, ok));
      Execute(sc, i, ok);
      ran := before + [Step(i, ok)];
      if ok && !cached {
        ran := Others(sc, i, others, s0, ran);
        RunOne(sc, s0, ran, Step(i, true));
        Store(sc, i, key);
        ran := ran + [Step(i, true)];
      }
    }

    /** A whole call, among others.  `schedule` says what the other calls do after its look into the
        cache, before it executes and before it stores.  Among allowed calls whose keys settle what is
        built, it uses its own query, and the cache goes on agreeing. */
    method Run(sc: Scheme<A, E>, args: A, key: string, ok: bool, schedule: (seq<Event<A>>, seq<Event<A>>, seq<Event<A>>),
               ghost allowed: A -> bool) returns (used: Built<E>, ghost ran: seq<Event<A>>)
      requires key == sc.key(args)
      modifies this
      ensures Reached(sc, old(State()), ran) && State() == Called(sc, old(State()), args, ok, schedule)
      ensures forall x :: x in ran ==> x == Begin(args) || x.Step? || x in schedule.0 || x in schedule.1 || x in schedule.2
      ensures used == if !ok then NoQuery else if key in old(entries) then Query(old(entries)[key]) else sc.build(args)
      ensures |old(calls)| < |calls|
      ensures calls[|old(calls)|] == Call(args, if used.Query? then Finished(used.entry) else Failed)
      ensures used.Query? ==> key in entries && (key !in old(entries) ==> entries[key] == used.entry)
      ensures allowed(args) && KeyDecides(sc, allowed) && Agrees(sc, allowed, old(State())) && Within(old(State()), allowed)
              && Passes(schedule.0, allowed) && Passes(schedule.1, allowed) && Passes(schedule.2, allowed)
              ==> Agrees(sc, allowed, State()) && Within(State(), allowed)
                  && used == (if ok then sc.build(args) else NoQuery)
                  && (used.Query? ==> key in entries && entries[key] == used.entry)
    {
      ghost var s0 := State();
      var i := |calls|;
      var cached;
      calls := calls + [Call(args, Looking)];
      RunOne(sc, s0, [], Begin(args));
      used, cached, ran := Prepare(sc, i, key, schedule.0, s0, [] + [Begin(args)]);
      if used.Query? {
        ran := Others(sc, i, schedule.1, s0, ran);
        ran := Complete(sc, i, key, ok, schedule.2, s0, ran);
        if !ok {
          used := NoQuery;
        }
      }
      if allowed(args) && KeyDecides(sc, allowed) && Agrees(sc, allowed, s0) && Within(s0, allowed) && Passes(ran, allowed) {
        RunAgrees(sc, allowed, s0, ran);
      }
    }
  }
}
