/** The keys of the query caches, built by writing column names one after another, and the proof that
    over each table's columns a key determines everything that went into it. */
module CacheKeys {

  datatype Columns = Columns(kind: int, cols: seq<string>)

  const DOT := "."

  // ---- Decimal numerals ----

  function Digit(d: nat): char
    requires d < 10
  {
    '0' + d as char
  }

  function Decimal(n: nat): (s: string)
    ensures s != [] && (forall i :: 0 <= i < |s| ==> '0' <= s[i] <= '9')
  {
    if n < 10 then [Digit(n)] else Decimal(n / 10) + [Digit(n % 10)]
  }

  function Itoa(n: int): (s: string)
    ensures s != [] && (s[0] == '-' <==> n < 0) && (s[0] != '-' ==> '0' <= s[0] <= '9')
    ensures forall i :: 1 <= i < |s| ==> '0' <= s[i] <= '9'
  {
    if n < 0 then "-" + Decimal(-n) else Decimal(n)
  }

  lemma {:induction false} DecimalInjective(m: nat, n: nat)
    requires Decimal(m) == Decimal(n)
    ensures m == n
  {
    var s, t := Decimal(m), Decimal(n);
    assert s[|s| - 1] == Digit(m % 10) && t[|t| - 1] == Digit(n % 10);
    if 10 <= m && 10 <= n {
      assert s[..|s| - 1] == Decimal(m / 10) && t[..|t| - 1] == Decimal(n / 10);
      DecimalInjective(m / 10, n / 10);
    }
  }

  lemma ItoaInjective(m: int, n: int)
    requires Itoa(m) == Itoa(n)
    ensures m == n
  {
    if m < 0 {
      assert Itoa(m)[1..] == Decimal(-m) && Itoa(n)[1..] == Decimal(-n);
      DecimalInjective(-m, -n);
    } else {
      DecimalInjective(m, n);
    }
  }

  predicate NoDigit(s: string) {
    s == [] || !('0' <= s[0] <= '9')
  }

  /** Digits cannot run on into what follows a numeral. */
  lemma NumeralEnds(a: string, b: string, s: string, t: string)
    requires a != [] && a + s == b + t && NoDigit(s) && (forall i :: 1 <= i < |b| ==> '0' <= b[i] <= '9')
    ensures |b| <= |a|
  {
    var i := if s == [] then 0 else |a|;
    assert (a + s)[i] == (b + t)[i];
  }

  lemma NumeralSplit(m: int, n: int, s: string, t: string)
    requires Itoa(m) + s == Itoa(n) + t && NoDigit(s) && NoDigit(t)
    ensures m == n && s == t
  {
    var a, b := Itoa(m), Itoa(n);
    NumeralEnds(a, b, s, t);
    NumeralEnds(b, a, t, s);
    assert a == (a + s)[..|a|] == (b + t)[..|a|] == b && s == (a + s)[|a|..] == (b + t)[|a|..] == t;
    ItoaInjective(m, n);
  }

  // ---- Column names ----

  function Flatten(cols: seq<string>): string {
    if cols == [] then "" else cols[0] + Flatten(cols[1..])
  }

  /** A name that starts with a letter and holds no dot. */
  predicate Plain(name: string) {
    name != [] && 'a' <= name[0] <= 'z' && '.' !in name
  }

  predicate Prefix(a: string, b: string) {
    a <= b
  }

  /** Names that make a prefix-free code. */
  predicate Code(names: seq<string>) {
    && (forall a :: a in names ==> Plain(a))
    && (forall a, b {:trigger Prefix(a, b)} :: a in names && b in names && Prefix(a, b) ==> a == b)
  }

  /** A column list over a table's names. */
  predicate Over(cols: seq<string>, names: seq<string>) {
    forall c :: c in cols ==> c in names
  }

  /** What may follow a column list in a key. */
  predicate Closed(s: string) {
    s == [] || s[0] == '.'
  }

  lemma FlattenClosed(cols: seq<string>, names: seq<string>, s: string)
    requires Code(names) && Over(cols, names) && Closed(s)
    ensures NoDigit(Flatten(cols) + s)
    ensures cols == [] || (Flatten(cols) + s != [] && (Flatten(cols) + s)[0] != '.')
  {
    if cols != [] {
      assert cols[0] in names;
    }
  }

  /** Of two prefixes of one string, the shorter is a prefix of the longer. */
  lemma Prefixes(a: string, b: string, s: string, t: string)
    requires a + s == b + t && |a| <= |b|
    ensures Prefix(a, b)
  {
    assert a == (a + s)[..|a|] && b == (b + t)[..|b|];
  }

  /** Unique decodability: over a prefix-free code, the concatenation determines the list, for lists of
      any length. */
  lemma {:induction false} UniquelyDecodable(names: seq<string>, xs: seq<string>, ys: seq<string>, s: string, t: string)
    requires Code(names) && Over(xs, names) && Over(ys, names) && Closed(s) && Closed(t)
    requires Flatten(xs) + s == Flatten(ys) + t
    ensures xs == ys && s == t
  {
    FlattenClosed(xs, names, s);
    FlattenClosed(ys, names, t);
    if xs != [] && ys != [] {
      var a, b := xs[0], ys[0];
      var s', t' := Flatten(xs[1..]) + s, Flatten(ys[1..]) + t;
      assert a + s' == Flatten(xs) + s && b + t' == Flatten(ys) + t;
      if |a| <= |b| {
        Prefixes(a, b, s', t');
      } else {
        Prefixes(b, a, t', s');
      }
      assert a in names && b in names && a == b;
      assert s' == (a + s')[|a|..] == t';
      UniquelyDecodable(names, xs[1..], ys[1..], s, t);
      assert xs == [a] + xs[1..] && ys == [b] + ys[1..];
    } else {
      assert xs == [] ==> Flatten(xs) + s == s;
      assert ys == [] ==> Flatten(ys) + t == t;
    }
  }

  // ---- The keys of Insert and Update ----

  function CacheKey(cols: Columns, nzDefaults: seq<string>): string {
    Itoa(cols.kind) + Flatten(cols.cols) + (if nzDefaults == [] then "" else DOT + Flatten(nzDefaults))
  }

  lemma {:induction false} FlattenSnoc(cols: seq<string>, w: string)
    ensures Flatten(cols + [w]) == Flatten(cols) + w
  {
    if cols == [] {
      assert cols + [w] == [w];
    } else {
      assert (cols + [w])[0] == cols[0] && (cols + [w])[1..] == cols[1..] + [w];
      FlattenSnoc(cols[1..], w);
    }
  }

  /** Appends every name to the buffer. */
  method WriteAll(buf: string, cols: seq<string>) returns (buf': string)
    ensures buf' == buf + Flatten(cols)
  {
    buf' := buf;
    for i := 0 to |cols|
      invariant buf' == buf + Flatten(cols[..i])
    {
      FlattenSnoc(cols[..i], cols[i]);
      assert cols[..i + 1] == cols[..i] + [cols[i]];
      buf' := buf' + cols[i];
    }
    assert cols[..|cols|] == cols;
  }

  method MakeCacheKey(cols: Columns, nzDefaults: seq<string>) returns (key: string)
    ensures key == CacheKey(cols, nzDefaults)
  {
    var buf := Itoa(cols.kind);
    buf := WriteAll(buf, cols.cols);
    if |nzDefaults| != 0 {
      buf := buf + DOT;
    }
    key := WriteAll(buf, nzDefaults);
  }

  /** A key determines the kind, the columns in order and the non-zero defaults in order. */
  lemma CacheKeyInjective(names: seq<string>, a: Columns, b: Columns, nz: seq<string>, nz': seq<string>)
    requires Code(names) && Over(a.cols, names) && Over(b.cols, names) && Over(nz, names) && Over(nz', names)
    requires CacheKey(a, nz) == CacheKey(b, nz')
    ensures a == b && nz == nz'
  {
    var s := if nz == [] then "" else DOT + Flatten(nz);
    var t := if nz' == [] then "" else DOT + Flatten(nz');
    FlattenClosed(a.cols, names, s);
    FlattenClosed(b.cols, names, t);
    assert Itoa(a.kind) + (Flatten(a.cols) + s) == CacheKey(a, nz);
    assert Itoa(b.kind) + (Flatten(b.cols) + t) == CacheKey(b, nz');
    NumeralSplit(a.kind, b.kind, Flatten(a.cols) + s, Flatten(b.cols) + t);
    UniquelyDecodable(names, a.cols, b.cols, s, t);
    if nz != [] {
      assert Flatten(nz) == s[1..] == t[1..] == Flatten(nz');
      UniquelyDecodable(names, nz, nz', "", "");
    }
  }

  // ---- The key of Upsert ----

  datatype UpsertArgs = UpsertArgs(
    updateOnConflict: bool, conflict: seq<string>, update: Columns, insert: Columns, nzDefaults: seq<string>)

  function Section(cols: Columns): string {
    DOT + Itoa(cols.kind) + Flatten(cols.cols)
  }

  function UpsertKey(a: UpsertArgs): string {
    (if a.updateOnConflict then "t" else "f") + DOT + Flatten(a.conflict)
    + Section(a.update) + Section(a.insert) + (DOT + Flatten(a.nzDefaults))
  }

  method WriteSection(buf: string, cols: Columns) returns (buf': string)
    ensures buf' == buf + Section(cols)
  {
    buf' := buf + DOT;
    buf' := buf' + Itoa(cols.kind);
    buf' := WriteAll(buf', cols.cols);
  }

  method MakeUpsertKey(a: UpsertArgs) returns (key: string)
    ensures key == UpsertKey(a)
  {
    var buf := if a.updateOnConflict then "t" else "f";
    buf := buf + DOT;
    buf := WriteAll(buf, a.conflict);
    buf := WriteSection(buf, a.update);
    buf := WriteSection(buf, a.insert);
    key := WriteAll(buf + DOT, a.nzDefaults);
    assert key == buf + (DOT + Flatten(a.nzDefaults));
  }

  predicate UpsertOver(a: UpsertArgs, names: seq<string>) {
    Over(a.conflict, names) && Over(a.update.cols, names) && Over(a.insert.cols, names) && Over(a.nzDefaults, names)
  }

  lemma SectionParts(a: Columns, s: string)
    ensures Section(a) + s == DOT + (Itoa(a.kind) + (Flatten(a.cols) + s))
  {
  }

  /** One section of the key: a numeral and a column list, up to the next dot. */
  lemma SectionSplit(names: seq<string>, a: Columns, b: Columns, s: string, t: string)
    requires Code(names) && Over(a.cols, names) && Over(b.cols, names) && Closed(s) && Closed(t)
    requires Section(a) + s == Section(b) + t
    ensures a == b && s == t
  {
    SectionParts(a, s);
    SectionParts(b, t);
    var s', t' := Flatten(a.cols) + s, Flatten(b.cols) + t;
    assert Itoa(a.kind) + s' == (Section(a) + s)[1..] == (Section(b) + t)[1..] == Itoa(b.kind) + t';
    FlattenClosed(a.cols, names, s);
    FlattenClosed(b.cols, names, t);
    NumeralSplit(a.kind, b.kind, s', t');
    UniquelyDecodable(names, a.cols, b.cols, s, t);
  }

  lemma Regroup(h: string, c: string, u: string, i: string, z: string)
    ensures h + c + u + i + z == h + (c + (u + (i + z)))
  {
  }

  lemma UpsertKeySections(a: UpsertArgs)
    ensures UpsertKey(a) == (if a.updateOnConflict then "t." else "f.")
              + (Flatten(a.conflict) + (Section(a.update) + (Section(a.insert) + (DOT + Flatten(a.nzDefaults)))))
  {
    var h := if a.updateOnConflict then "t" else "f";
    assert h + DOT == if a.updateOnConflict then "t." else "f.";
    Regroup(h + DOT, Flatten(a.conflict), Section(a.update), Section(a.insert), DOT + Flatten(a.nzDefaults));
  }

  /** The key determines everything that Upsert builds its query from, except for its options. */
  lemma UpsertKeyInjective(names: seq<string>, a: UpsertArgs, b: UpsertArgs)
    requires Code(names) && UpsertOver(a, names) && UpsertOver(b, names) && UpsertKey(a) == UpsertKey(b)
    ensures a == b
  {
    UpsertKeySections(a);
    UpsertKeySections(b);
    var a3, b3 := DOT + Flatten(a.nzDefaults), DOT + Flatten(b.nzDefaults);
    var a2, b2 := Section(a.insert) + a3, Section(b.insert) + b3;
    var a1, b1 := Section(a.update) + a2, Section(b.update) + b2;
    var k, l := UpsertKey(a), UpsertKey(b);
    assert k[0] == l[0] && Flatten(a.conflict) + a1 == k[2..] == l[2..] == Flatten(b.conflict) + b1;
    UniquelyDecodable(names, a.conflict, b.conflict, a1, b1);
    SectionSplit(names, a.update, b.update, a2, b2);
    SectionSplit(names, a.insert, b.insert, a3, b3);
    assert Flatten(a.nzDefaults) + "" == a3[1..] == b3[1..] == Flatten(b.nzDefaults) + "";
    UniquelyDecodable(names, a.nzDefaults, b.nzDefaults, "", "");
  }

  // ---- The tables ----

  const TENANT_COLUMNS: seq<string> :=
    ["id", "name", "status", "max_workers", "current_workers", "queue_name", "consumer_tag", "created_at", "updated_at", "deleted_at"]

  const MESSAGE_COLUMNS: seq<string> :=
    ["id", "tenant_id", "payload", "status", "retry_count", "max_retries", "scheduled_at", "processed_at", "created_at"]

  const DEAD_LETTER_COLUMNS: seq<string> :=
    ["id", "original_message_id", "tenant_id", "payload", "failure_reason", "retry_count", "last_error", "created_at"]

  const LOG_COLUMNS: seq<string> :=
    ["id", "message_id", "tenant_id", "worker_id", "status", "error_message", "processing_duration_ms", "created_at"]

  const CONFIG_COLUMNS: seq<string> :=
    ["id", "tenant_id", "config_key", "config_value", "version", "is_active", "created_at", "updated_at"]

  /** Some position from k on tells the names apart. */
  predicate Differ(a: string, b: string, k: nat)
    decreases |a| - k
  {
    k < |a| && k < |b| && (a[k] != b[k] || Differ(a, b, k + 1))
  }

  /** Name i differs from every name from j on. */
  predicate DiffersFrom(names: seq<string>, i: nat, j: nat)
    requires i < |names|
    decreases |names| - j
  {
    |names| <= j || (Differ(names[i], names[j], 0) && DiffersFrom(names, i, j + 1))
  }

  /** All pairs of names from name i on differ. */
  predicate AllDiffer(names: seq<string>, i: nat)
    decreases |names| - i
  {
    |names| <= i || (DiffersFrom(names, i, i + 1) && AllDiffer(names, i + 1))
  }

  lemma {:induction false} DifferApart(a: string, b: string, k: nat)
    requires Differ(a, b, k)
    ensures !Prefix(a, b) && !Prefix(b, a)
    decreases |a| - k
  {
    if a[k] == b[k] {
      DifferApart(a, b, k + 1);
    }
  }

  lemma {:induction false} DiffersFromMember(names: seq<string>, i: nat, j: nat, k: nat)
    requires i < |names| && j <= k < |names| && DiffersFrom(names, i, j)
    ensures !Prefix(names[i], names[k]) && !Prefix(names[k], names[i])
    decreases k - j
  {
    if j == k {
      DifferApart(names[i], names[k], 0);
    } else {
      DiffersFromMember(names, i, j + 1, k);
    }
  }

  lemma {:induction false} DifferingPair(names: seq<string>, i: nat, j: nat, k: nat)
    requires AllDiffer(names, i) && i <= j < |names| && i <= k < |names|
    ensures j != k ==> !Prefix(names[j], names[k])
    decreases |names| - i
  {
    if i < j && i < k {
      DifferingPair(names, i + 1, j, k);
    } else {
      if i < j {
        DifferingPair(names, i + 1, j, j);
        DiffersFromMember(names, i, i + 1, j);
      }
      if i < k {
        DiffersFromMember(names, i, i + 1, k);
      }
    }
  }

  lemma CodeFromPairs(names: seq<string>)
    requires (forall i :: 0 <= i < |names| ==> Plain(names[i])) && AllDiffer(names, 0)
    ensures Code(names)
  {
    forall a, b | a in names && b in names
      ensures Plain(a) && (Prefix(a, b) ==> a == b)
    {
      var j :| 0 <= j < |names| && names[j] == a;
      var k :| 0 <= k < |names| && names[k] == b;
      DifferingPair(names, 0, j, k);
    }
  }

  // Every table's columns make a prefix-free code.

  lemma TenantNames()
    ensures forall i :: 0 <= i < |TENANT_COLUMNS| ==> Plain(TENANT_COLUMNS[i])
  {
  }

  lemma TenantCode()
    ensures Code(TENANT_COLUMNS)
  {
    TenantNames();
    assert DiffersFrom(TENANT_COLUMNS, 0, 1);
    assert DiffersFrom(TENANT_COLUMNS, 1, 2);
    assert DiffersFrom(TENANT_COLUMNS, 2, 3);
    assert DiffersFrom(TENANT_COLUMNS, 3, 4);
    assert DiffersFrom(TENANT_COLUMNS, 4, 5);
    assert DiffersFrom(TENANT_COLUMNS, 5, 6);
    assert DiffersFrom(TENANT_COLUMNS, 6, 7);
    assert DiffersFrom(TENANT_COLUMNS, 7, 8);
    assert DiffersFrom(TENANT_COLUMNS, 8, 9);
    assert DiffersFrom(TENANT_COLUMNS, 9, 10);
    CodeFromPairs(TENANT_COLUMNS);
  }

  lemma MessageNames()
    ensures forall i :: 0 <= i < |MESSAGE_COLUMNS| ==> Plain(MESSAGE_COLUMNS[i])
  {
  }

  lemma MessageCode()
    ensures Code(MESSAGE_COLUMNS)
  {
    MessageNames();
    assert DiffersFrom(MESSAGE_COLUMNS, 0, 1);
    assert DiffersFrom(MESSAGE_COLUMNS, 1, 2);
    assert DiffersFrom(MESSAGE_COLUMNS, 2, 3);
    assert DiffersFrom(MESSAGE_COLUMNS, 3, 4);
    assert DiffersFrom(MESSAGE_COLUMNS, 4, 5);
    assert DiffersFrom(MESSAGE_COLUMNS, 5, 6);
    assert DiffersFrom(MESSAGE_COLUMNS, 6, 7);
    assert DiffersFrom(MESSAGE_COLUMNS, 7, 8);
    assert DiffersFrom(MESSAGE_COLUMNS, 8, 9);
    CodeFromPairs(MESSAGE_COLUMNS);
  }

  lemma DeadLetterNames()
    ensures forall i :: 0 <= i < |DEAD_LETTER_COLUMNS| ==> Plain(DEAD_LETTER_COLUMNS[i])
  {
  }

  lemma DeadLetterCode()
    ensures Code(DEAD_LETTER_COLUMNS)
  {
    DeadLetterNames();
    assert DiffersFrom(DEAD_LETTER_COLUMNS, 0, 1);
    assert DiffersFrom(DEAD_LETTER_COLUMNS, 1, 2);
    assert DiffersFrom(DEAD_LETTER_COLUMNS, 2, 3);
    assert DiffersFrom(DEAD_LETTER_COLUMNS, 3, 4);
    assert DiffersFrom(DEAD_LETTER_COLUMNS, 4, 5);
    assert DiffersFrom(DEAD_LETTER_COLUMNS, 5, 6);
    assert DiffersFrom(DEAD_LETTER_COLUMNS, 6, 7);
    assert DiffersFrom(DEAD_LETTER_COLUMNS, 7, 8);
    CodeFromPairs(DEAD_LETTER_COLUMNS);
  }

  lemma LogNames()
    ensures forall i :: 0 <= i < |LOG_COLUMNS| ==> Plain(LOG_COLUMNS[i])
  {
  }

  lemma LogCode()
    ensures Code(LOG_COLUMNS)
  {
    LogNames();
    assert DiffersFrom(LOG_COLUMNS, 0, 1);
    assert DiffersFrom(LOG_COLUMNS, 1, 2);
    assert DiffersFrom(LOG_COLUMNS, 2, 3);
    assert DiffersFrom(LOG_COLUMNS, 3, 4);
    assert DiffersFrom(LOG_COLUMNS, 4, 5);
    assert DiffersFrom(LOG_COLUMNS, 5, 6);
    assert DiffersFrom(LOG_COLUMNS, 6, 7);
    assert DiffersFrom(LOG_COLUMNS, 7, 8);
    CodeFromPairs(LOG_COLUMNS);
  }

  lemma ConfigNames()
    ensures forall i :: 0 <= i < |CONFIG_COLUMNS| ==> Plain(CONFIG_COLUMNS[i])
  {
  }

  lemma ConfigCode()
    ensures Code(CONFIG_COLUMNS)
  {
    ConfigNames();
    assert DiffersFrom(CONFIG_COLUMNS, 0, 1);
    assert DiffersFrom(CONFIG_COLUMNS, 1, 2);
    assert DiffersFrom(CONFIG_COLUMNS, 2, 3);
    assert DiffersFrom(CONFIG_COLUMNS, 3, 4);
    assert DiffersFrom(CONFIG_COLUMNS, 4, 5);
    assert DiffersFrom(CONFIG_COLUMNS, 5, 6);
    assert DiffersFrom(CONFIG_COLUMNS, 6, 7);
    assert DiffersFrom(CONFIG_COLUMNS, 7, 8);
    CodeFromPairs(CONFIG_COLUMNS);
  }

  /** Without a prefix-free code keys can clash: different lists, one key. */
  lemma KeysCanClash(kind: int)
    ensures CacheKey(Columns(kind, ["id", "name"]), []) == CacheKey(Columns(kind, ["idname"]), [])
    ensures CacheKey(Columns(kind, ["id"]), ["name"]) == CacheKey(Columns(kind, ["id.name"]), [])
  {
    assert Flatten(["id", "name"]) == "id" + "name";
  }
}
