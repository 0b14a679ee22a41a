/** Insert, Update and Upsert of the generated models: what they put under which cache key, and when the
    caches agree with building every query anew. */
module TableQueries {
  import opened CacheKeys
  import opened QueryCaches

  // ---- Insert and Update ----

  datatype InsertArgs = InsertArgs(columns: Columns, nzDefaults: seq<string>)

  /** The query is some function of the columns and the non-zero defaults. */
  function InsertScheme<E>(build: InsertArgs -> Built<E>): Scheme<InsertArgs, E> {
    Scheme((a: InsertArgs) => CacheKey(a.columns, a.nzDefaults), build)
  }

  function UpdateScheme<E>(build: Columns -> Built<E>): Scheme<Columns, E> {
    Scheme((c: Columns) => CacheKey(c, []), build)
  }

  function InsertOver(names: seq<string>): InsertArgs -> bool {
    (a: InsertArgs) => Over(a.columns.cols, names) && Over(a.nzDefaults, names)
  }

  function UpdateOver(names: seq<string>): Columns -> bool {
    (c: Columns) => Over(c.cols, names)
  }

  lemma InsertKeyDecides<E>(names: seq<string>, build: InsertArgs -> Built<E>)
    requires Code(names)
    ensures KeyDecides(InsertScheme(build), InsertOver(names))
  {
    forall a, b | InsertOver(names)(a) && InsertOver(names)(b) && InsertScheme(build).key(a) == InsertScheme(build).key(b)
      ensures build(a) == build(b)
    {
      CacheKeyInjective(names, a.columns, b.columns, a.nzDefaults, b.nzDefaults);
    }
  }

  lemma UpdateKeyDecides<E>(names: seq<string>, build: Columns -> Built<E>)
    requires Code(names)
    ensures KeyDecides(UpdateScheme(build), UpdateOver(names))
  {
    forall a, b | UpdateOver(names)(a) && UpdateOver(names)(b) && UpdateScheme(build).key(a) == UpdateScheme(build).key(b)
      ensures build(a) == build(b)
    {
      CacheKeyInjective(names, a, b, [], []);
    }
  }

  /** Cache agreement: over a table whose columns make a prefix-free code, every interleaving of
      inserts agrees with building each query anew. */
  lemma InsertAgrees<E>(names: seq<string>, build: InsertArgs -> Built<E>)
    requires Code(names)
    ensures AlwaysAgrees(InsertScheme(build), InsertOver(names))
  {
    InsertKeyDecides(names, build);
    AgreesExactly(InsertScheme(build), InsertOver(names));
  }

  lemma UpdateAgrees<E>(names: seq<string>, build: Columns -> Built<E>)
    requires Code(names)
    ensures AlwaysAgrees(UpdateScheme(build), UpdateOver(names))
  {
    UpdateKeyDecides(names, build);
    AgreesExactly(UpdateScheme(build), UpdateOver(names));
  }

  /** The five tables' caches agree. */
  lemma TablesAgree<E>(build: InsertArgs -> Built<E>, rebuild: Columns -> Built<E>, names: seq<string>)
    requires names in [TENANT_COLUMNS, MESSAGE_COLUMNS, DEAD_LETTER_COLUMNS, LOG_COLUMNS, CONFIG_COLUMNS]
    ensures AlwaysAgrees(InsertScheme(build), InsertOver(names))
    ensures AlwaysAgrees(UpdateScheme(rebuild), UpdateOver(names))
  {
    TenantCode();
    MessageCode();
    DeadLetterCode();
    LogCode();
    ConfigCode();
    InsertAgrees(names, build);
    UpdateAgrees(names, rebuild);
  }

  /** Beyond a table's columns agreement is lost: an unknown column, which building rejects, is served the
      query of two known ones once that is stored. */
  lemma UnknownColumnServed<E>(build: InsertArgs -> Built<E>, kind: int)
    requires build(InsertArgs(Columns(kind, ["id", "name"]), [])).Query?
    requires build(InsertArgs(Columns(kind, ["idname"]), [])).NoQuery?
    ensures !AlwaysAgrees(InsertScheme(build), (a: InsertArgs) => true)
  {
    var a, b := InsertArgs(Columns(kind, ["id", "name"]), []), InsertArgs(Columns(kind, ["idname"]), []);
    KeysCanClash(kind);
    assert InsertScheme(build).key(a) == InsertScheme(build).key(b);
    AgreesExactly(InsertScheme(build), (a: InsertArgs) => true);
  }

  /** Insert, up to the values: the key, then the call through the cache. */
  method Insert<E>(cache: QueryCache<InsertArgs, E>, build: InsertArgs -> Built<E>, columns: Columns, nzDefaults: seq<string>, ok: bool,
                   schedule: (seq<Event<InsertArgs>>, seq<Event<InsertArgs>>, seq<Event<InsertArgs>>), ghost names: seq<string>)
    returns (used: Built<E>, ghost ran: seq<Event<InsertArgs>>)
    modifies cache
    ensures cache.Reached(InsertScheme(build), old(cache.State()), ran)
    ensures var sc, allowed := InsertScheme(build), InsertOver(names);
            Code(names) && Over(columns.cols, names) && Over(nzDefaults, names)
            && Passes(schedule.0, allowed) && Passes(schedule.1, allowed) && Passes(schedule.2, allowed)
            && Agrees(sc, allowed, old(cache.State())) && Within(old(cache.State()), allowed)
            ==> Agrees(sc, allowed, cache.State()) && Within(cache.State(), allowed)
                && used == (if ok then build(InsertArgs(columns, nzDefaults)) else NoQuery)
                && (used.Query? ==> CacheKey(columns, nzDefaults) in cache.entries
                                    && cache.entries[CacheKey(columns, nzDefaults)] == used.entry)
    ensures !ok ==> used.NoQuery?
  {
    var key := MakeCacheKey(columns, nzDefaults);
    if Code(names) {
      InsertKeyDecides(names, build);
    }
    used, ran := cache.Run(InsertScheme(build), InsertArgs(columns, nzDefaults), key, ok, schedule, InsertOver(names));
  }

  method Update<E>(cache: QueryCache<Columns, E>, build: Columns -> Built<E>, columns: Columns, ok: bool,
                   schedule: (seq<Event<Columns>>, seq<Event<Columns>>, seq<Event<Columns>>), ghost names: seq<string>)
    returns (used: Built<E>, ghost ran: seq<Event<Columns>>)
    modifies cache
    ensures cache.Reached(UpdateScheme(build), old(cache.State()), ran)
    ensures var sc, allowed := UpdateScheme(build), UpdateOver(names);
            Code(names) && Over(columns.cols, names)
            && Passes(schedule.0, allowed) && Passes(schedule.1, allowed) && Passes(schedule.2, allowed)
            && Agrees(sc, allowed, old(cache.State())) && Within(old(cache.State()), allowed)
            ==> Agrees(sc, allowed, cache.State()) && Within(cache.State(), allowed)
                && used == (if ok then build(columns) else NoQuery)
                && (used.Query? ==> CacheKey(columns, []) in cache.entries && cache.entries[CacheKey(columns, [])] == used.entry)
    ensures !ok ==> used.NoQuery?
  {
    var key := MakeCacheKey(columns, []);
    if Code(names) {
      UpdateKeyDecides(names, build);
    }
    used, ran := cache.Run(UpdateScheme(build), columns, key, ok, schedule, UpdateOver(names));
  }

  // ---- Upsert ----

  /** What the option functions leave behind. */
  datatype Options = Options(conflictTarget: string, updateSet: string)

  const NO_OPTIONS := Options("", "")

  datatype UpsertCall = UpsertCall(args: UpsertArgs, options: Options)

  datatype UpsertEntry = UpsertEntry(query: string, valueMapping: seq<nat>, retMapping: seq<nat>)

  /** The column-set, quoting and mapping helpers of the libraries, and the table they are used for. */
  datatype Table = Table(
    name: string,
    primaryKey: seq<string>,
    insertSet: (Columns, seq<string>) -> seq<string>,
    updateSet: Columns -> seq<string>,
    returning: (seq<string>, seq<string>) -> seq<string>,
    bind: seq<string> -> Built<seq<nat>>,
    quote: string -> string,
    placeholders: nat -> string)

  function Quoted(t: Table, cols: seq<string>): seq<string> {
    if cols == [] then [] else [t.quote(cols[0])] + Quoted(t, cols[1..])
  }

  function Join(xs: seq<string>, sep: string): string {
    if xs == [] then "" else if |xs| == 1 then xs[0] else xs[0] + sep + Join(xs[1..], sep)
  }

  /** The assignments of the first n columns; empty names are skipped. */
  function Assignments(t: Table, update: seq<string>, n: nat): string
    requires n <= |update|
  {
    if n == 0 then ""
    else
      var v := update[n - 1];
      var before := Assignments(t, update, n - 1);
      if v == "" then before
      else before + (if n == 1 then "" else ",") + (t.quote(v) + " = EXCLUDED." + t.quote(v))
  }

  function Head(t: Table, insert: seq<string>): string {
    "INSERT INTO " + t.name + " "
    + (if insert == [] then "DEFAULT VALUES"
       else "(" + Join(Quoted(t, insert), ", ") + ") VALUES (" + t.placeholders(|insert|) + ")")
    + " ON CONFLICT "
  }

  function Target(t: Table, conflict: seq<string>, o: Options): string {
    if o.conflictTarget != "" then o.conflictTarget
    else if conflict != [] then "(" + Join(Quoted(t, conflict), ", ") + ")" else ""
  }

  function Action(t: Table, updateOnConflict: bool, update: seq<string>, o: Options): string {
    if !updateOnConflict || update == [] then " DO NOTHING"
    else " DO UPDATE SET " + (if o.updateSet != "" then o.updateSet else Assignments(t, update, |update|))
  }

  function Tail(t: Table, ret: seq<string>): string {
    if ret == [] then "" else " RETURNING " + Join(Quoted(t, ret), ", ")
  }

  function UpsertQuery(t: Table, updateOnConflict: bool, ret: seq<string>, update: seq<string>, conflict: seq<string>,
                       insert: seq<string>, o: Options): string {
    Head(t, insert) + (Target(t, conflict, o) + Action(t, updateOnConflict, update, o)) + Tail(t, ret)
  }

  /** The statement, written piece by piece into a buffer. */
  method BuildUpsertQuery(t: Table, updateOnConflict: bool, ret: seq<string>, update: seq<string>, conflict: seq<string>,
                          insert: seq<string>, o: Options) returns (query: string)
    ensures query == UpsertQuery(t, updateOnConflict, ret, update, conflict, insert, o)
  {
    var clause := "";
    if o.conflictTarget != "" {
      clause := clause + o.conflictTarget;
    } else if |conflict| != 0 {
      clause := "(" + Join(Quoted(t, conflict), ", ") + ")";
    }
    assert clause == Target(t, conflict, o);
    if !updateOnConflict || |update| == 0 {
      clause := clause + " DO NOTHING";
    } else if o.updateSet != "" {
      clause := clause + (" DO UPDATE SET " + o.updateSet);
    } else {
      var text := "";
      for i := 0 to |update|
        invariant text == Assignments(t, update, i)
      {
        var v := update[i];
        if v != "" {
          text := text + (if i != 0 then "," else "") + (t.quote(v) + " = EXCLUDED." + t.quote(v));
        }
      }
      clause := clause + (" DO UPDATE SET " + text);
    }
    query := Head(t, insert) + clause;
    if |ret| != 0 {
      query := query + (" RETURNING " + Join(Quoted(t, ret), ", "));
    }
  }

  /** The conflict columns that Upsert falls back to. */
  function Conflict(t: Table, a: UpsertArgs): seq<string> {
    if a.conflict == [] && a.updateOnConflict && t.updateSet(a.update) != [] then t.primaryKey else a.conflict
  }

  function Returning(t: Table, a: UpsertArgs): seq<string> {
    t.returning(t.insertSet(a.insert, a.nzDefaults), t.updateSet(a.update))
  }

  /** The text between ON CONFLICT and RETURNING. */
  function Clause(t: Table, c: UpsertCall): string {
    Target(t, Conflict(t, c.args), c.options) + Action(t, c.args.updateOnConflict, t.updateSet(c.args.update), c.options)
  }

  /** Whether Upsert gets past its own checks. */
  predicate Buildable(t: Table, a: UpsertArgs) {
    && (a.updateOnConflict ==> t.updateSet(a.update) != [])
    && (a.updateOnConflict && a.conflict == [] ==> t.primaryKey != [])
    && t.bind(t.insertSet(a.insert, a.nzDefaults)).Query?
    && (Returning(t, a) != [] ==> t.bind(Returning(t, a)).Query?)
  }

  /** The query of an Upsert call, with the early returns. */
  function BuildUpsert(t: Table, c: UpsertCall): Built<UpsertEntry> {
    var insert := t.insertSet(c.args.insert, c.args.nzDefaults);
    var update := t.updateSet(c.args.update);
    if c.args.updateOnConflict && update == [] then NoQuery
    else
      var ret := t.returning(insert, update);
      if c.args.conflict == [] && c.args.updateOnConflict && update != [] && t.primaryKey == [] then NoQuery
      else
        var query := UpsertQuery(t, c.args.updateOnConflict, ret, update, Conflict(t, c.args), insert, c.options);
        match t.bind(insert)
        case NoQuery => NoQuery
        case Query(values) =>
          if ret == [] then Query(UpsertEntry(query, values, []))
          else
            match t.bind(ret)
            case NoQuery => NoQuery
            case Query(pointers) => Query(UpsertEntry(query, values, pointers))
  }

  /** The construction in Upsert on a cache miss, statement by statement. */
  method BuildUpsertEntry(t: Table, c: UpsertCall) returns (built: Built<UpsertEntry>)
    ensures built == BuildUpsert(t, c)
    ensures built.Query? <==> Buildable(t, c.args)
  {
    var insert := t.insertSet(c.args.insert, c.args.nzDefaults);
    var update := t.updateSet(c.args.update);
    if c.args.updateOnConflict && |update| == 0 {
      return NoQuery;
    }
    var ret := t.returning(insert, update);
    var conflict := c.args.conflict;
    if |conflict| == 0 && c.args.updateOnConflict && |update| != 0 {
      if |t.primaryKey| == 0 {
        return NoQuery;
      }
      conflict := t.primaryKey;
    }
    var query := BuildUpsertQuery(t, c.args.updateOnConflict, ret, update, conflict, insert, c.options);
    var values := t.bind(insert);
    if values.NoQuery? {
      return NoQuery;
    }
    var pointers: Built<seq<nat>> := Query([]);
    if |ret| != 0 {
      pointers := t.bind(ret);
      if pointers.NoQuery? {
        return NoQuery;
      }
    }
    built := Query(UpsertEntry(query, values.entry, pointers.entry));
  }

  function UpsertScheme(t: Table): Scheme<UpsertCall, UpsertEntry> {
    Scheme((c: UpsertCall) => UpsertKey(c.args), (c: UpsertCall) => BuildUpsert(t, c))
  }

  /** Two calls that differ in their options only build the same query exactly when their clauses are
      the same text. */
  lemma SameQueryExactly(t: Table, c: UpsertCall, d: UpsertCall)
    requires c.args == d.args
    ensures BuildUpsert(t, c).Query? <==> Buildable(t, c.args)
    ensures BuildUpsert(t, c) == BuildUpsert(t, d) <==> (Buildable(t, c.args) ==> Clause(t, c) == Clause(t, d))
  {
    if Buildable(t, c.args) {
      var h, z := Head(t, t.insertSet(c.args.insert, c.args.nzDefaults)), Tail(t, Returning(t, c.args));
      var q, r := BuildUpsert(t, c).entry.query, BuildUpsert(t, d).entry.query;
      assert q == h + Clause(t, c) + z && r == h + Clause(t, d) + z;
      assert Clause(t, c) == q[|h|..|q| - |z|] && Clause(t, d) == r[|h|..|r| - |z|];
    }
  }

  /** The calls' arguments without the options settle the clause. */
  ghost predicate ClauseSettled(t: Table, allowed: UpsertCall -> bool) {
    forall c, d :: allowed(c) && allowed(d) && c.args == d.args && Buildable(t, c.args) ==> Clause(t, c) == Clause(t, d)
  }

  lemma PairDecides(t: Table, names: seq<string>, c: UpsertCall, d: UpsertCall)
    requires Code(names) && UpsertOver(c.args, names) && UpsertOver(d.args, names)
    ensures (UpsertScheme(t).key(c) == UpsertScheme(t).key(d) ==> UpsertScheme(t).build(c) == UpsertScheme(t).build(d))
            <==> (c.args == d.args && Buildable(t, c.args) ==> Clause(t, c) == Clause(t, d))
  {
    if UpsertKey(c.args) == UpsertKey(d.args) {
      UpsertKeyInjective(names, c.args, d.args);
      SameQueryExactly(t, c, d);
    }
  }

  /** Upsert cache agreement, exactly.  The key leaves the options out, so over calls on a table's columns
      the cache agrees with building anew if and only if no two of the calls differ in their options alone
      and in the text that these produce. */
  lemma UpsertAgreesExactly(t: Table, names: seq<string>, allowed: UpsertCall -> bool)
    requires Code(names) && (forall c :: allowed(c) ==> UpsertOver(c.args, names))
    ensures AlwaysAgrees(UpsertScheme(t), allowed) <==> ClauseSettled(t, allowed)
  {
    AgreesExactly(UpsertScheme(t), allowed);
    if ClauseSettled(t, allowed) {
      forall c, d | allowed(c) && allowed(d) && UpsertScheme(t).key(c) == UpsertScheme(t).key(d)
        ensures UpsertScheme(t).build(c) == UpsertScheme(t).build(d)
      {
        PairDecides(t, names, c, d);
      }
    }
    if KeyDecides(UpsertScheme(t), allowed) {
      forall c, d | allowed(c) && allowed(d) && c.args == d.args && Buildable(t, c.args)
        ensures Clause(t, c) == Clause(t, d)
      {
        PairDecides(t, names, c, d);
      }
    }
  }

  /** Calls without options agree. */
  lemma UpsertAgreesWithoutOptions(t: Table, names: seq<string>)
    requires Code(names)
    ensures AlwaysAgrees(UpsertScheme(t), (c: UpsertCall) => UpsertOver(c.args, names) && c.options == NO_OPTIONS)
  {
    UpsertAgreesExactly(t, names, (c: UpsertCall) => UpsertOver(c.args, names) && c.options == NO_OPTIONS);
  }

  /** A call with a conflict target of its own is answered from the cache entry of the same call without
      one, whatever the table. */
  lemma OptionsClash(t: Table, names: seq<string>, a: UpsertArgs)
    requires Code(names) && UpsertOver(a, names) && Buildable(t, a)
    ensures var c := UpsertCall(a, NO_OPTIONS);
            var d := UpsertCall(a, Options(Target(t, Conflict(t, a), NO_OPTIONS) + "x", ""));
            !AlwaysAgrees(UpsertScheme(t), (x: UpsertCall) => x == c || x == d)
  {
    var c := UpsertCall(a, NO_OPTIONS);
    var d := UpsertCall(a, Options(Target(t, Conflict(t, a), NO_OPTIONS) + "x", ""));
    assert |Clause(t, d)| == |Clause(t, c)| + 1;
    UpsertAgreesExactly(t, names, (x: UpsertCall) => x == c || x == d);
  }

  /** So does one with assignments of its own. */
  lemma AssignmentsClash(t: Table, names: seq<string>, a: UpsertArgs)
    requires Code(names) && UpsertOver(a, names) && Buildable(t, a) && a.updateOnConflict
    ensures var update := t.updateSet(a.update);
            var c := UpsertCall(a, NO_OPTIONS);
            var d := UpsertCall(a, Options("", Assignments(t, update, |update|) + "x"));
            !AlwaysAgrees(UpsertScheme(t), (x: UpsertCall) => x == c || x == d)
  {
    var update := t.updateSet(a.update);
    var c := UpsertCall(a, NO_OPTIONS);
    var d := UpsertCall(a, Options("", Assignments(t, update, |update|) + "x"));
    assert |Clause(t, d)| == |Clause(t, c)| + 1;
    UpsertAgreesExactly(t, names, (x: UpsertCall) => x == c || x == d);
  }

  /** Options stand in the clause as they are. */
  lemma OptionsVerbatim(t: Table, c: UpsertCall)
    requires c.options.conflictTarget != "" && c.options.updateSet != ""
    requires c.args.updateOnConflict && t.updateSet(c.args.update) != []
    ensures Clause(t, c) == c.options.conflictTarget + (" DO UPDATE SET " + c.options.updateSet)
  {
  }

  method Upsert(cache: QueryCache<UpsertCall, UpsertEntry>, t: Table, c: UpsertCall, ok: bool,
                schedule: (seq<Event<UpsertCall>>, seq<Event<UpsertCall>>, seq<Event<UpsertCall>>), ghost allowed: UpsertCall -> bool)
    returns (used: Built<UpsertEntry>, ghost ran: seq<Event<UpsertCall>>)
    modifies cache
    ensures cache.Reached(UpsertScheme(t), old(cache.State()), ran)
    ensures var sc := UpsertScheme(t);
            allowed(c) && KeyDecides(sc, allowed)
            && Passes(schedule.0, allowed) && Passes(schedule.1, allowed) && Passes(schedule.2, allowed)
            && Agrees(sc, allowed, old(cache.State())) && Within(old(cache.State()), allowed)
            ==> Agrees(sc, allowed, cache.State()) && Within(cache.State(), allowed)
                && used == (if ok then BuildUpsert(t, c) else NoQuery)
                && (used.Query? ==> UpsertKey(c.args) in cache.entries && cache.entries[UpsertKey(c.args)] == used.entry)
    ensures !ok ==> used.NoQuery?
  {
    var key := MakeUpsertKey(c.args);
    used, ran := cache.Run(UpsertScheme(t), c, key, ok, schedule, allowed);
  }
}
