/** Reading an upsert statement back: a parser for the text that Upsert builds, and the proof that it finds the
    columns, the conflict clause and the returned columns that the call asked for. */
module UpsertText {
  import opened CacheKeys
  import opened QueryCaches
  import opened TableQueries

  /** A name that quoting leaves readable. */
  predicate Clean(name: string) {
    name != "" && '"' !in name
  }

  predicate AllClean(names: seq<string>) {
    forall x :: x in names ==> Clean(x)
  }

  function InQuotes(name: string): string {
    "\"" + name + "\""
  }

  /** The table's quoting puts clean names between double quotes. */
  ghost predicate QuotesPlainly(t: Table) {
    forall x :: Clean(x) ==> t.quote(x) == InQuotes(x)
  }

  // ---- The parser ----

  /** What follows a prefix, if the text has it. */
  function After(s: string, prefix: string): string {
    if prefix <= s then s[|prefix|..] else s
  }

  predicate Starts(s: string, prefix: string) {
    prefix <= s
  }

  /** The text up to the closing quote, and what follows that. */
  function UntilQuote(s: string): (r: (string, string))
    ensures |r.1| <= |s|
  {
    if s == "" then ("", "")
    else if s[0] == '"' then ("", s[1..])
    else var r := UntilQuote(s[1..]); ([s[0]] + r.0, r.1)
  }

  /** A list of quoted names. */
  function ReadNames(s: string): (seq<string>, string)
    decreases |s|
  {
    if !Starts(s, "\"") then ([], s)
    else
      var (name, rest) := UntilQuote(s[1..]);
      if !Starts(rest, ", ") then ([name], rest)
      else var (names, rest') := ReadNames(rest[2..]); ([name] + names, rest')
  }

  const EXCLUDED := " = EXCLUDED.\""

  /** A list of assignments, each of a column to its excluded value. */
  function ReadAssignments(s: string): (seq<string>, string)
    decreases |s|
  {
    if !Starts(s, "\"") then ([], s)
    else
      var (name, rest) := UntilQuote(s[1..]);
      var (value, rest') := UntilQuote(After(rest, EXCLUDED));
      if !Starts(rest', ",") || name != value then ([name], rest')
      else var (names, end) := ReadAssignments(rest'[1..]); ([name] + names, end)
  }

  datatype OnConflict = DoNothing | DoUpdate(columns: seq<string>)

  datatype Statement = Statement(insert: seq<string>, conflict: seq<string>, action: OnConflict, returning: seq<string>)

  function ReadInsert(t: Table, s: string): (seq<string>, string) {
    if Starts(s, "DEFAULT VALUES") then ([], After(s, "DEFAULT VALUES"))
    else
      var (names, rest) := ReadNames(After(s, "("));
      (names, After(rest, ") VALUES (" + t.placeholders(|names|) + ")"))
  }

  function ReadTarget(s: string): (seq<string>, string) {
    if !Starts(s, "(") then ([], s)
    else var (names, rest) := ReadNames(s[1..]); (names, After(rest, ")"))
  }

  function ReadAction(s: string): (OnConflict, string) {
    if Starts(s, " DO NOTHING") then (DoNothing, After(s, " DO NOTHING"))
    else var (names, rest) := ReadAssignments(After(s, " DO UPDATE SET ")); (DoUpdate(names), rest)
  }

  function ReadStatement(t: Table, s: string): Statement {
    var (insert, s1) := ReadInsert(t, After(s, "INSERT INTO " + t.name + " "));
    var (conflict, s2) := ReadTarget(After(s1, " ON CONFLICT "));
    var (action, s3) := ReadAction(s2);
    var (returning, _) := ReadNames(After(s3, " RETURNING "));
    Statement(insert, conflict, action, returning)
  }

  // ---- Each part is read back ----

  lemma AfterPrefix(prefix: string, s: string)
    ensures Starts(prefix + s, prefix) && After(prefix + s, prefix) == s
  {
  }

  lemma OtherFirst(s: string, prefix: string)
    requires prefix != "" && (s == "" || s[0] != prefix[0])
    ensures !Starts(s, prefix)
  {
  }

  lemma {:induction false} ReadsUntilQuote(name: string, s: string)
    requires '"' !in name
    ensures UntilQuote(name + "\"" + s) == (name, s)
  {
    var text := name + "\"" + s;
    if name == "" {
      assert text == "\"" + s && text[1..] == s;
    } else {
      assert name[0] in name && name == [name[0]] + name[1..];
      assert text[0] == name[0] && text[1..] == name[1..] + "\"" + s;
      ReadsUntilQuote(name[1..], s);
    }
  }

  lemma ReadsQuoted(name: string, s: string)
    requires Clean(name)
    ensures Starts(InQuotes(name) + s, "\"") && UntilQuote((InQuotes(name) + s)[1..]) == (name, s)
  {
    assert (InQuotes(name) + s)[1..] == name + "\"" + s;
    ReadsUntilQuote(name, s);
  }

  lemma {:induction false} QuotedLength(t: Table, xs: seq<string>)
    ensures |Quoted(t, xs)| == |xs|
  {
    if xs != [] {
      QuotedLength(t, xs[1..]);
    }
  }

  lemma JoinedNames(t: Table, xs: seq<string>)
    requires xs != []
    ensures Join(Quoted(t, xs), ", ")
            == if |xs| == 1 then t.quote(xs[0]) else t.quote(xs[0]) + ", " + Join(Quoted(t, xs[1..]), ", ")
  {
    QuotedLength(t, xs);
    assert Quoted(t, xs)[1..] == Quoted(t, xs[1..]);
  }

  lemma {:induction false} ReadsNames(t: Table, xs: seq<string>, s: string)
    requires QuotesPlainly(t) && AllClean(xs) && xs != [] && !Starts(s, ", ")
    ensures ReadNames(Join(Quoted(t, xs), ", ") + s) == (xs, s)
    decreases |xs|
  {
    var x := xs[0];
    assert x in xs;
    JoinedNames(t, xs);
    if |xs| == 1 {
      assert xs == [x];
      ReadsQuoted(x, s);
    } else {
      var rest := Join(Quoted(t, xs[1..]), ", ") + s;
      assert Join(Quoted(t, xs), ", ") + s == InQuotes(x) + (", " + rest);
      ReadsQuoted(x, ", " + rest);
      AfterPrefix(", ", rest);
      ReadsNames(t, xs[1..], s);
      assert xs == [x] + xs[1..];
    }
  }

  /** One assignment. */
  function Assigned(x: string): string {
    InQuotes(x) + " = EXCLUDED." + InQuotes(x)
  }

  function AllAssigned(xs: seq<string>): string {
    if xs == [] then "" else if |xs| == 1 then Assigned(xs[0]) else Assigned(xs[0]) + "," + AllAssigned(xs[1..])
  }

  lemma {:induction false} AllAssignedSnoc(xs: seq<string>, x: string)
    ensures AllAssigned(xs + [x]) == AllAssigned(xs) + (if xs == [] then "" else ",") + Assigned(x)
  {
    if xs == [] {
      assert xs + [x] == [x];
    } else {
      assert (xs + [x])[0] == xs[0] && (xs + [x])[1..] == xs[1..] + [x];
      AllAssignedSnoc(xs[1..], x);
      if |xs| == 1 {
        assert xs[1..] == [];
      }
    }
  }

  lemma {:induction false} AssignmentsAre(t: Table, update: seq<string>, n: nat)
    requires QuotesPlainly(t) && AllClean(update) && n <= |update|
    ensures Assignments(t, update, n) == AllAssigned(update[..n])
  {
    if n != 0 {
      var v := update[n - 1];
      assert v in update;
      AssignmentsAre(t, update, n - 1);
      AllAssignedSnoc(update[..n - 1], v);
      assert update[..n] == update[..n - 1] + [v];
    }
  }

  lemma ReadsAssigned(x: string, s: string)
    requires Clean(x)
    ensures Starts(Assigned(x) + s, "\"")
    ensures UntilQuote((Assigned(x) + s)[1..]).0 == x
    ensures UntilQuote(After(UntilQuote((Assigned(x) + s)[1..]).1, EXCLUDED)) == (x, s)
  {
    var tail := EXCLUDED + (x + "\"" + s);
    assert Assigned(x) + s == InQuotes(x) + tail;
    ReadsQuoted(x, tail);
    AfterPrefix(EXCLUDED, x + "\"" + s);
    ReadsUntilQuote(x, s);
  }

  lemma Concat4(a: string, b: string, c: string, d: string)
    ensures (a + b + c) + d == a + (b + (c + d))
  {
  }

  /** The parser's first round. */
  lemma ReadsFirst(x: string, s: string)
    requires Clean(x)
    ensures ReadAssignments(Assigned(x) + s)
            == if Starts(s, ",") then ([x] + ReadAssignments(s[1..]).0, ReadAssignments(s[1..]).1) else ([x], s)
  {
    ReadsAssigned(x, s);
  }

  lemma {:induction false} ReadsAssignments(xs: seq<string>, s: string)
    requires AllClean(xs) && xs != [] && !Starts(s, ",")
    ensures ReadAssignments(AllAssigned(xs) + s) == (xs, s)
    decreases |xs|
  {
    var x := xs[0];
    assert x in xs;
    if |xs| == 1 {
      assert xs == [x];
      ReadsFirst(x, s);
    } else {
      var rest := AllAssigned(xs[1..]) + s;
      Concat4(Assigned(x), ",", AllAssigned(xs[1..]), s);
      ReadsFirst(x, "," + rest);
      AfterPrefix(",", rest);
      ReadsAssignments(xs[1..], s);
      assert xs == [x] + xs[1..];
    }
  }

  // ---- The statement is read back ----

  function InsertText(t: Table, insert: seq<string>): string {
    if insert == [] then "DEFAULT VALUES"
    else "(" + Join(Quoted(t, insert), ", ") + ") VALUES (" + t.placeholders(|insert|) + ")"
  }

  lemma ReadsInsert(t: Table, insert: seq<string>, s: string)
    requires QuotesPlainly(t) && AllClean(insert)
    ensures ReadInsert(t, InsertText(t, insert) + s) == (insert, s)
  {
    if insert == [] {
      AfterPrefix("DEFAULT VALUES", s);
    } else {
      var values := ") VALUES (" + t.placeholders(|insert|) + ")";
      var names := Join(Quoted(t, insert), ", ");
      assert InsertText(t, insert) + s == "(" + (names + (values + s));
      OtherFirst("(" + (names + (values + s)), "DEFAULT VALUES");
      AfterPrefix("(", names + (values + s));
      OtherFirst(values + s, ", ");
      ReadsNames(t, insert, values + s);
      AfterPrefix(values, s);
    }
  }

  lemma ReadsTarget(t: Table, conflict: seq<string>, s: string)
    requires QuotesPlainly(t) && AllClean(conflict) && !Starts(s, "(")
    ensures ReadTarget(Target(t, conflict, NO_OPTIONS) + s) == (conflict, s)
  {
    if conflict == [] {
      assert Target(t, conflict, NO_OPTIONS) + s == s;
    } else {
      var names := Join(Quoted(t, conflict), ", ");
      assert Target(t, conflict, NO_OPTIONS) + s == "(" + (names + (")" + s));
      OtherFirst(")" + s, ", ");
      ReadsNames(t, conflict, ")" + s);
      AfterPrefix("(", names + (")" + s));
      AfterPrefix(")", s);
    }
  }

  function Asked(updateOnConflict: bool, update: seq<string>): OnConflict {
    if !updateOnConflict || update == [] then DoNothing else DoUpdate(update)
  }

  const NOTHING := " DO NOTHING"
  const SET := " DO UPDATE SET "

  /** The text of an action. */
  function ActionAsked(asked: OnConflict): string {
    match asked
    case DoNothing => NOTHING
    case DoUpdate(columns) => SET + AllAssigned(columns)
  }

  lemma ActionText(t: Table, updateOnConflict: bool, update: seq<string>)
    requires QuotesPlainly(t) && AllClean(update)
    ensures Action(t, updateOnConflict, update, NO_OPTIONS)
            == ActionAsked(Asked(updateOnConflict, update))
  {
    AssignmentsAre(t, update, |update|);
    assert update[..|update|] == update;
  }

  lemma ReadsUpdate(update: seq<string>, s: string)
    requires AllClean(update) && update != [] && !Starts(s, ",")
    ensures ReadAction(SET + (AllAssigned(update) + s)) == (DoUpdate(update), s)
  {
    var rest := AllAssigned(update) + s;
    AfterPrefix(SET, rest);
    assert (SET + rest)[4] == 'U' && NOTHING[4] == 'N';
    ReadsAssignments(update, s);
  }

  lemma ReadsNothing(s: string)
    ensures ReadAction(NOTHING + s) == (DoNothing, s)
  {
    AfterPrefix(NOTHING, s);
  }

  lemma ReadsAction(asked: OnConflict, s: string)
    requires asked.DoUpdate? ==> AllClean(asked.columns) && asked.columns != []
    requires !Starts(s, ",")
    ensures ReadAction(ActionAsked(asked) + s) == (asked, s) && !Starts(ActionAsked(asked) + s, "(")
  {
    match asked
    case DoNothing =>
      ReadsNothing(s);
      OtherFirst(NOTHING + s, "(");
    case DoUpdate(columns) =>
      assert ActionAsked(asked) + s == SET + (AllAssigned(columns) + s);
      ReadsUpdate(columns, s);
      OtherFirst(SET + (AllAssigned(columns) + s), "(");
  }

  lemma ReadsTail(t: Table, ret: seq<string>)
    requires QuotesPlainly(t) && AllClean(ret)
    ensures ReadNames(After(Tail(t, ret), " RETURNING ")).0 == ret && !Starts(Tail(t, ret), ",")
  {
    OtherFirst(Tail(t, ret), ",");
    if ret != [] {
      OtherFirst("", ", ");
      var names := Join(Quoted(t, ret), ", ");
      AfterPrefix(" RETURNING ", names);
      ReadsNames(t, ret, "");
      assert names + "" == names;
    }
  }

  /** Round trip: from the statement that an upsert without options builds, the inserted columns, the conflict
      columns, the action and the returned columns are read back as they were asked for. */
  lemma StatementRead(t: Table, updateOnConflict: bool, ret: seq<string>, update: seq<string>, conflict: seq<string>, insert: seq<string>)
    requires QuotesPlainly(t) && AllClean(ret) && AllClean(update) && AllClean(conflict) && AllClean(insert)
    ensures ReadStatement(t, UpsertQuery(t, updateOnConflict, ret, update, conflict, insert, NO_OPTIONS))
            == Statement(insert, conflict, Asked(updateOnConflict, update), ret)
  {
    var tail := Tail(t, ret);
    var action := Action(t, updateOnConflict, update, NO_OPTIONS) + tail;
    var target := Target(t, conflict, NO_OPTIONS) + action;
    var begin := "INSERT INTO " + t.name + " ";
    StatementText(t, updateOnConflict, ret, update, conflict, insert);
    AfterPrefix(begin, InsertText(t, insert) + (" ON CONFLICT " + target));
    ReadsInsert(t, insert, " ON CONFLICT " + target);
    AfterPrefix(" ON CONFLICT ", target);
    ReadsTail(t, ret);
    ActionText(t, updateOnConflict, update);
    ReadsAction(Asked(updateOnConflict, update), tail);
    ReadsTarget(t, conflict, action);
  }

  lemma HeadText(t: Table, insert: seq<string>)
    ensures Head(t, insert) == ("INSERT INTO " + t.name + " ") + InsertText(t, insert) + " ON CONFLICT "
  {
  }

  lemma Regroup5(a: string, b: string, c: string, d: string, e: string, f: string)
    ensures (a + b + c) + (d + e) + f == a + (b + (c + (d + (e + f))))
  {
  }

  lemma StatementText(t: Table, updateOnConflict: bool, ret: seq<string>, update: seq<string>, conflict: seq<string>, insert: seq<string>)
    ensures UpsertQuery(t, updateOnConflict, ret, update, conflict, insert, NO_OPTIONS)
            == ("INSERT INTO " + t.name + " ") + (InsertText(t, insert) + (" ON CONFLICT "
               + (Target(t, conflict, NO_OPTIONS) + (Action(t, updateOnConflict, update, NO_OPTIONS) + Tail(t, ret)))))
  {
    var begin, body := "INSERT INTO " + t.name + " ", InsertText(t, insert);
    HeadText(t, insert);
    Regroup5(begin, body, " ON CONFLICT ", Target(t, conflict, NO_OPTIONS), Action(t, updateOnConflict, update, NO_OPTIONS), Tail(t, ret));
  }

  /** The entry that Upsert builds: its statement says what the call asked for, and its mappings are those of
      the columns in the statement, in the same order. */
  lemma EntryRead(t: Table, c: UpsertCall)
    requires QuotesPlainly(t) && c.options == NO_OPTIONS && Buildable(t, c.args)
    requires AllClean(t.insertSet(c.args.insert, c.args.nzDefaults)) && AllClean(t.updateSet(c.args.update))
    requires AllClean(Conflict(t, c.args)) && AllClean(Returning(t, c.args))
    ensures BuildUpsert(t, c).Query?
    ensures var entry := BuildUpsert(t, c).entry;
            var stmt := ReadStatement(t, entry.query);
            && stmt.insert == t.insertSet(c.args.insert, c.args.nzDefaults)
            && stmt.conflict == (if c.args.conflict == [] && c.args.updateOnConflict then t.primaryKey else c.args.conflict)
            && stmt.action == (if c.args.updateOnConflict then DoUpdate(t.updateSet(c.args.update)) else DoNothing)
            && stmt.returning == t.returning(stmt.insert, t.updateSet(c.args.update))
            && Query(entry.valueMapping) == t.bind(stmt.insert)
            && (if stmt.returning == [] then entry.retMapping == [] else Query(entry.retMapping) == t.bind(stmt.returning))
  {
    StatementRead(t, c.args.updateOnConflict, Returning(t, c.args), t.updateSet(c.args.update), Conflict(t, c.args),
                  t.insertSet(c.args.insert, c.args.nzDefaults));
  }
}
