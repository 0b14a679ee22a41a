/** Tenants, dead-letter rows and the links between them, as objects: eager loading from either side,
    and the methods that set a link. */
module Relationships {
  import opened Joins

  /** The relation struct of a tenant, absent until something is loaded. */
  datatype TenantR = NoTenantR | TenantR(deadLetterMessages: seq<DeadLetterMessage>)

  datatype DeadLetterMessageR = NoMessageR | DeadLetterMessageR(tenant: Tenant?)

  class Tenant {
    const ID: string
    var R: TenantR

    constructor (id: string)
      ensures ID == id && R == NoTenantR
    {
      ID, R := id, NoTenantR;
    }
  }

  class DeadLetterMessage {
    const ID: string
    var tenantID: string
    var R: DeadLetterMessageR

    constructor (id: string, tenantID: string)
      ensures ID == id && this.tenantID == tenantID && R == NoMessageR
    {
      ID, this.tenantID, R := id, tenantID, NoMessageR;
    }
  }

  /** A tenant's loaded rows. */
  ghost function List(t: Tenant): seq<DeadLetterMessage>
    reads t`R
  {
    if t.R.NoTenantR? then [] else t.R.deadLetterMessages
  }

  /** A row's loaded tenant. */
  ghost function Back(m: DeadLetterMessage): Tenant?
    reads m`R
  {
    if m.R.NoMessageR? then null else m.R.tenant
  }

  ghost function IDs(ts: seq<Tenant>): (ids: seq<string>)
    ensures |ids| == |ts| && forall k :: 0 <= k < |ts| ==> ids[k] == ts[k].ID
  {
    seq(|ts|, k requires 0 <= k < |ts| => ts[k].ID)
  }

  /** The first tenant with this id, if any. */
  ghost function OwnerOf(ts: seq<Tenant>, id: string): (t: Tenant?)
    ensures t != null ==> t in ts && t.ID == id
    ensures t == null ==> forall u :: u in ts ==> u.ID != id
  {
    var j := First(IDs(ts), id);
    if j < |ts| then ts[j] else assert forall u :: u in ts ==> u.ID in IDs(ts); null
  }

  /** Each row's owner. */
  ghost predicate OwnersAre(ts: seq<Tenant>, ms: seq<DeadLetterMessage>, owners: seq<Tenant?>)
    reads ms`tenantID
  {
    |owners| == |ms| && forall k :: 0 <= k < |ms| ==> owners[k] == OwnerOf(ts, ms[k].tenantID)
  }

  ghost function Owners(ts: seq<Tenant>, ms: seq<DeadLetterMessage>): (owners: seq<Tenant?>)
    reads ms
    ensures OwnersAre(ts, ms, owners)
  {
    seq(|ms|, k requires 0 <= k < |ms| reads ms => OwnerOf(ts, ms[k].tenantID))
  }

  // ---- The links as values ----

  /** The links of some objects, from both sides. */
  datatype Links = Links(lists: map<Tenant, seq<DeadLetterMessage>>, backs: map<DeadLetterMessage, Tenant?>)

  ghost predicate LinksAre(ts: set<Tenant>, ms: set<DeadLetterMessage>, l: Links)
    reads ts`R, ms`R
  {
    && (forall t :: t in ts ==> t in l.lists && List(t) == l.lists[t])
    && (forall m :: m in ms ==> m in l.backs && Back(m) == l.backs[m])
  }

  ghost function Linked(l: Links, o: Tenant?, m: DeadLetterMessage): Links {
    if o == null then l
    else Links(l.lists[o := (if o in l.lists then l.lists[o] else []) + [m]], l.backs[m := o])
  }

  /** The links after n rounds of the outer loop. */
  ghost function AllLinked(l: Links, owners: seq<Tenant?>, ms: seq<DeadLetterMessage>, n: nat): Links
    requires |owners| == |ms| && n <= |ms|
  {
    if n == 0 then l else Linked(AllLinked(l, owners, ms, n - 1), owners[n - 1], ms[n - 1])
  }

  /** A tenant's list grows by the rows assigned to it, in order. */
  lemma {:induction false} ListsGrow(l: Links, owners: seq<Tenant?>, ms: seq<DeadLetterMessage>, n: nat, t: Tenant)
    requires |owners| == |ms| && n <= |ms| && t in l.lists
    ensures t in AllLinked(l, owners, ms, n).lists
    ensures AllLinked(l, owners, ms, n).lists[t] == l.lists[t] + Assigned(owners[..n], ms[..n], t)
  {
    if n != 0 {
      ListsGrow(l, owners, ms, n - 1, t);
      AssignedGrows(owners, ms, n - 1, t);
    }
  }

  /** A row's tenant is its owner, or what it was when it has none. */
  lemma {:induction false} BacksSet(l: Links, owners: seq<Tenant?>, ms: seq<DeadLetterMessage>, n: nat, m: DeadLetterMessage, o: Tenant?)
    requires |owners| == |ms| && n <= |ms| && m in l.backs
    requires forall k :: 0 <= k < n && ms[k] == m ==> owners[k] == o
    ensures m in AllLinked(l, owners, ms, n).backs
    ensures AllLinked(l, owners, ms, n).backs[m] == if o != null && m in ms[..n] then o else l.backs[m]
  {
    if n != 0 {
      BacksSet(l, owners, ms, n - 1, m, o);
      assert ms[..n] == ms[..n - 1] + [ms[n - 1]];
    }
  }

  /** Each link has its other side. */
  ghost predicate InStep(l: Links) {
    && (forall t, m :: t in l.lists && m in l.lists[t] ==> m in l.backs && l.backs[m] == t)
    && (forall m :: m in l.backs && l.backs[m] != null ==> l.backs[m] in l.lists && m in l.lists[l.backs[m]])
  }

  /** Linking keeps both sides in step if and only if the row was free or linked to this tenant already:
      nothing takes the row out of another tenant's list. */
  lemma LinkKeepsStepExactly(l: Links, o: Tenant, m: DeadLetterMessage)
    requires InStep(l) && o in l.lists && m in l.backs
    ensures InStep(Linked(l, o, m)) <==> l.backs[m] == null || l.backs[m] == o
  {
    var l' := Linked(l, o, m);
    var was := l.backs[m];
    if was != null && was != o {
      assert was in l'.lists && m in l'.lists[was] && l'.backs[m] == o;
    } else if was == null {
      assert forall t :: t in l.lists ==> m !in l.lists[t];
    }
  }

  /** The same row always has the same owner, and every owner is among the tenants. */
  ghost predicate Consistent(l: Links, owners: seq<Tenant?>, ms: seq<DeadLetterMessage>) {
    && |owners| == |ms|
    && (forall i, k :: 0 <= i < |ms| && 0 <= k < |ms| && ms[i] == ms[k] ==> owners[i] == owners[k])
    && (forall k :: 0 <= k < |ms| ==> ms[k] in l.backs && (owners[k] != null ==> owners[k] in l.lists))
  }

  ghost predicate FreeFor(l: Links, o: Tenant?, m: DeadLetterMessage)
    requires m in l.backs
  {
    o == null || l.backs[m] == null || l.backs[m] == o
  }

  /** A join keeps both sides in step if and only if each row that it links was free or linked to
      its owner already. */
  lemma JoinKeepsStepExactly(l: Links, owners: seq<Tenant?>, ms: seq<DeadLetterMessage>)
    requires InStep(l) && Consistent(l, owners, ms)
    ensures InStep(AllLinked(l, owners, ms, |ms|)) <==> forall k :: 0 <= k < |ms| ==> FreeFor(l, owners[k], ms[k])
  {
    if forall k :: 0 <= k < |ms| ==> FreeFor(l, owners[k], ms[k]) {
      JoinKeepsStep(l, owners, ms, |ms|);
    } else {
      var k :| 0 <= k < |ms| && !FreeFor(l, owners[k], ms[k]);
      var was, m := l.backs[ms[k]], ms[k];
      ListsGrow(l, owners, ms, |ms|, was);
      BacksSet(l, owners, ms, |ms|, m, owners[k]);
      assert ms[..|ms|] == ms && m in AllLinked(l, owners, ms, |ms|).lists[was];
    }
  }

  lemma {:induction false} JoinKeepsStep(l: Links, owners: seq<Tenant?>, ms: seq<DeadLetterMessage>, n: nat)
    requires InStep(l) && Consistent(l, owners, ms) && n <= |ms|
    requires forall k :: 0 <= k < n ==> FreeFor(l, owners[k], ms[k])
    ensures InStep(AllLinked(l, owners, ms, n))
  {
    if n != 0 {
      JoinKeepsStep(l, owners, ms, n - 1);
      var o, m := owners[n - 1], ms[n - 1];
      BacksSet(l, owners, ms, n - 1, m, o);
      if o != null {
        ListsGrow(l, owners, ms, n - 1, o);
        LinkKeepsStepExactly(AllLinked(l, owners, ms, n - 1), o, m);
      }
    }
  }

  // ---- The pairs that a join makes ----

  /** The tenant and row ids of all links. */
  ghost function PairsOf(l: Links): iset<(string, string)> {
    iset t, m | t in l.lists && m in l.lists[t] :: (t.ID, m.ID)
  }

  /** What a plain filter makes of the same data. */
  ghost function Filtered(ids: set<string>, keys: seq<string>, ms: seq<DeadLetterMessage>): iset<(string, string)>
    requires |keys| == |ms|
  {
    iset k | 0 <= k < |ms| && keys[k] in ids :: (keys[k], ms[k].ID)
  }

  ghost function Args(ts: seq<Tenant>): set<string> {
    set k | 0 <= k < |ts| :: ts[k].ID
  }

  lemma JoinedRow(l: Links, owners: seq<Tenant?>, ms: seq<DeadLetterMessage>, t: Tenant, m: DeadLetterMessage)
    requires |owners| == |ms| && t in l.lists && l.lists[t] == []
    ensures t in AllLinked(l, owners, ms, |ms|).lists
    ensures m in AllLinked(l, owners, ms, |ms|).lists[t] <==> exists k :: 0 <= k < |ms| && ms[k] == m && owners[k] == t
  {
    assert ms[..|ms|] == ms && owners[..|ms|] == owners;
    ListsGrow(l, owners, ms, |ms|, t);
    AssignedMembers(owners, ms, t, m);
  }

  /** From empty lists, a join links exactly the pairs that a filter on the ids selects. */
  lemma JoinIsFilter(l: Links, ts: seq<Tenant>, owners: seq<Tenant?>, keys: seq<string>, ms: seq<DeadLetterMessage>)
    requires |owners| == |keys| == |ms| && forall k :: 0 <= k < |ms| ==> owners[k] == OwnerOf(ts, keys[k])
    requires l.lists.Keys == (set t | t in ts) && forall t :: t in ts ==> l.lists[t] == []
    ensures PairsOf(AllLinked(l, owners, ms, |ms|)) == Filtered(Args(ts), keys, ms)
  {
    var links := AllLinked(l, owners, ms, |ms|);
    OnlyThese(l, owners, ms, |ms|);
    forall p | p in PairsOf(links)
      ensures p in Filtered(Args(ts), keys, ms)
    {
      var t, m :| t in links.lists && m in links.lists[t] && p == (t.ID, m.ID);
      JoinedRow(l, owners, ms, t, m);
      var k :| 0 <= k < |ms| && ms[k] == m && owners[k] == t;
      ArgsHold(ts, t);
      assert keys[k] == t.ID;
    }
    forall p | p in Filtered(Args(ts), keys, ms)
      ensures p in PairsOf(links)
    {
      var k :| 0 <= k < |ms| && keys[k] in Args(ts) && p == (keys[k], ms[k].ID);
      assert owners[k] == OwnerOf(ts, keys[k]) != null;
      JoinedRow(l, owners, ms, owners[k], ms[k]);
    }
  }

  lemma ArgsHold(ts: seq<Tenant>, t: Tenant)
    requires t in ts
    ensures t.ID in Args(ts)
  {
  }

  lemma {:induction false} OnlyThese(l: Links, owners: seq<Tenant?>, ms: seq<DeadLetterMessage>, n: nat)
    requires |owners| == |ms| && n <= |ms| && forall k :: 0 <= k < |ms| && owners[k] != null ==> owners[k] in l.lists
    ensures AllLinked(l, owners, ms, n).lists.Keys == l.lists.Keys
  {
    if n != 0 {
      OnlyThese(l, owners, ms, n - 1);
    }
  }

  /** What goes to a tenant is a plain filter of the rows by its id, in order; a second tenant with the
      same id gets nothing. */
  lemma {:induction false} AssignedIsFilter(ts: seq<Tenant>, owners: seq<Tenant?>, keys: seq<string>, ms: seq<DeadLetterMessage>, t: Tenant)
    requires |owners| == |keys| == |ms| && (forall k :: 0 <= k < |ms| ==> owners[k] == OwnerOf(ts, keys[k])) && t in ts
    ensures Assigned(owners, ms, t) == if OwnerOf(ts, t.ID) == t then WithKey(keys, ms, t.ID) else []
    decreases |ms|
  {
    if ms != [] {
      var n := |ms| - 1;
      assert owners[n] == OwnerOf(ts, keys[n]);
      AssignedIsFilter(ts, owners[..n], keys[..n], ms[..n], t);
    }
  }

  /** Join correctness, tenants: the first tenant with an id ends with its old list followed by the rows
      with its id, in order; any other keeps its list. */
  lemma JoinedLists(l: Links, ts: seq<Tenant>, owners: seq<Tenant?>, keys: seq<string>, ms: seq<DeadLetterMessage>, t: Tenant)
    requires |owners| == |keys| == |ms| && (forall k :: 0 <= k < |ms| ==> owners[k] == OwnerOf(ts, keys[k]))
    requires t in ts && t in l.lists
    ensures t in AllLinked(l, owners, ms, |ms|).lists
    ensures AllLinked(l, owners, ms, |ms|).lists[t]
            == l.lists[t] + if OwnerOf(ts, t.ID) == t then WithKey(keys, ms, t.ID) else []
  {
    assert ms[..|ms|] == ms && owners[..|ms|] == owners;
    ListsGrow(l, owners, ms, |ms|, t);
    AssignedIsFilter(ts, owners, keys, ms, t);
  }

  /** Join correctness, rows: a row ends with the first tenant that has its id; unmatched, it is unchanged. */
  lemma JoinedBacks(l: Links, ts: seq<Tenant>, owners: seq<Tenant?>, keys: seq<string>, ms: seq<DeadLetterMessage>, m: DeadLetterMessage, id: string)
    requires |owners| == |keys| == |ms| && (forall k :: 0 <= k < |ms| ==> owners[k] == OwnerOf(ts, keys[k]))
    requires m in l.backs && forall k :: 0 <= k < |ms| && ms[k] == m ==> keys[k] == id
    ensures m in AllLinked(l, owners, ms, |ms|).backs
    ensures AllLinked(l, owners, ms, |ms|).backs[m]
            == if m in ms && OwnerOf(ts, id) != null then OwnerOf(ts, id) else l.backs[m]
  {
    assert ms[..|ms|] == ms;
    BacksSet(l, owners, ms, |ms|, m, OwnerOf(ts, id));
  }

  /** Over the same data, filtering the selected rows and filtering by the selected tenants give the same pairs. */
  lemma JoinSymmetry(ids: set<string>, data: seq<Record>, ms: seq<DeadLetterMessage>, keys: seq<string>,
                     ids': set<string>, ms': seq<DeadLetterMessage>, keys': seq<string>)
    requires |ms| == |keys| == |Selected(data, ids)| && |ms'| == |keys'| == |data|
    requires forall k :: 0 <= k < |ms| ==> Record(ms[k].ID, keys[k]) == Selected(data, ids)[k]
    requires forall k :: 0 <= k < |ms'| ==> Record(ms'[k].ID, keys'[k]) == data[k]
    requires forall id :: id in ids' <==> id in ids && id in keys'
    ensures Filtered(ids, keys, ms) == Filtered(ids', keys', ms')
  {
    forall p | p in Filtered(ids, keys, ms)
      ensures p in Filtered(ids', keys', ms')
    {
      var k :| 0 <= k < |ms| && keys[k] in ids && p == (keys[k], ms[k].ID);
      SelectedMembers(data, ids, Record(ms[k].ID, keys[k]));
      var i :| 0 <= i < |data| && data[i] == Record(ms[k].ID, keys[k]);
      assert keys'[i] == keys[k] && ms'[i].ID == ms[k].ID;
    }
    forall p | p in Filtered(ids', keys', ms')
      ensures p in Filtered(ids, keys, ms)
    {
      var k :| 0 <= k < |ms'| && keys'[k] in ids' && p == (keys'[k], ms'[k].ID);
      SelectedMembers(data, ids, data[k]);
      var i :| 0 <= i < |ms| && Selected(data, ids)[i] == data[k];
      assert keys[i] == keys'[k] && ms[i].ID == ms'[k].ID;
    }
  }

  /** Rows that are not linked to anything. */
  ghost function Unlinked(ms: set<DeadLetterMessage>): map<DeadLetterMessage, Tenant?> {
    map m | m in ms :: null
  }

  ghost function NoRows(ts: set<Tenant>): map<Tenant, seq<DeadLetterMessage>> {
    map t | t in ts :: []
  }

  /** Tenants and rows that nothing links yet. */
  ghost function Fresh(ts: seq<Tenant>, ms: seq<DeadLetterMessage>): Links {
    Links(NoRows(set t | t in ts), Unlinked(set m | m in ms))
  }

  /** From fresh objects a join makes the filter's pairs, and each link has its other side. */
  lemma FreshJoin(ts: seq<Tenant>, owners: seq<Tenant?>, keys: seq<string>, ms: seq<DeadLetterMessage>)
    requires |owners| == |keys| == |ms| && (forall k :: 0 <= k < |ms| ==> owners[k] == OwnerOf(ts, keys[k]))
    requires forall i, k :: 0 <= i < k < |ms| ==> ms[i] != ms[k]
    ensures var links := AllLinked(Fresh(ts, ms), owners, ms, |ms|);
            InStep(links) && PairsOf(links) == Filtered(Args(ts), keys, ms)
  {
    JoinIsFilter(Fresh(ts, ms), ts, owners, keys, ms);
    JoinKeepsStepExactly(Fresh(ts, ms), owners, ms);
  }

  /** Join symmetry: loading the rows of all tenants, and loading the tenants of all rows, over the same
      data and from empty relations, link the same pairs of ids, and in both each link has its other
      side.  Primes mark the objects of the second load. */
  lemma LoadersAgree(ts: seq<Tenant>, data: seq<Record>, ms: seq<DeadLetterMessage>, keys: seq<string>, owners: seq<Tenant?>,
                     ts': seq<Tenant>, ms': seq<DeadLetterMessage>, keys': seq<string>, owners': seq<Tenant?>)
    requires |owners| == |keys| == |ms| == |Selected(data, Args(ts))| && |owners'| == |keys'| == |ms'| == |data|
    requires forall k :: 0 <= k < |ms| ==> Record(ms[k].ID, keys[k]) == Selected(data, Args(ts))[k] && owners[k] == OwnerOf(ts, keys[k])
    requires forall k :: 0 <= k < |ms'| ==> Record(ms'[k].ID, keys'[k]) == data[k] && owners'[k] == OwnerOf(ts', keys'[k])
    requires forall i, k :: 0 <= i < k < |ms| ==> ms[i] != ms[k]
    requires forall i, k :: 0 <= i < k < |ms'| ==> ms'[i] != ms'[k]
    requires forall id :: id in Args(ts') <==> id in Args(ts) && id in keys'
    ensures var links := AllLinked(Fresh(ts, ms), owners, ms, |ms|);
            var links' := AllLinked(Fresh(ts', ms'), owners', ms', |ms'|);
            PairsOf(links) == PairsOf(links') && InStep(links) && InStep(links')
  {
    FreshJoin(ts, owners, keys, ms);
    FreshJoin(ts', owners', keys', ms');
    JoinSymmetry(Args(ts), data, ms, keys, Args(ts'), ms', keys');
  }

  lemma {:induction false} SelectedMembers(table: seq<Record>, args: set<string>, r: Record)
    ensures r in Selected(table, args) <==> r in table && r.tenantID in args
  {
    if table != [] {
      SelectedMembers(table[1..], args, r);
    }
  }

  // ---- The nested loops ----

  /** Links one row and one tenant, with relation structs where they are missing. */
  method Link(t: Tenant, m: DeadLetterMessage, ghost ts: set<Tenant>, ghost ms: set<DeadLetterMessage>, ghost l: Links)
    requires t in ts && m in ms && LinksAre(ts, ms, l)
    modifies t`R, m`R
    ensures LinksAre(ts, ms, Linked(l, t, m)) && t.R.TenantR? && m.R.DeadLetterMessageR?
  {
    if t.R.NoTenantR? {
      t.R := TenantR([]);
    }
    t.R := TenantR(t.R.deadLetterMessages + [m]);
    if m.R.NoMessageR? {
      m.R := DeadLetterMessageR(null);
    }
    m.R := DeadLetterMessageR(t);
  }

  /** The inner loop, which ends at the first tenant with the row's id. */
  method FindOwner(ts: seq<Tenant>, id: string) returns (t: Tenant?)
    ensures t == OwnerOf(ts, id)
  {
    for i := 0 to |ts|
      invariant forall k :: 0 <= k < i ==> ts[k].ID != id
    {
      if ts[i].ID == id {
        return ts[i];
      }
    }
    return null;
  }

  /** The loops of both loaders: each row is linked with the first tenant that has its id. */
  method Join(ts: seq<Tenant>, ms: seq<DeadLetterMessage>, ghost tset: set<Tenant>, ghost mset: set<DeadLetterMessage>,
              ghost owners: seq<Tenant?>, ghost l: Links) returns (ghost links: Links)
    requires tset == (set t | t in ts) && mset == (set m | m in ms) && OwnersAre(ts, ms, owners) && LinksAre(tset, mset, l)
    modifies tset`R, mset`R
    ensures links == AllLinked(l, owners, ms, |ms|) && LinksAre(tset, mset, links)
  {
    links := l;
    for i := 0 to |ms|
      invariant links == AllLinked(l, owners, ms, i) && LinksAre(tset, mset, links)
    {
      var o := FindOwner(ts, ms[i].tenantID);
      if o != null {
        Link(o, ms[i], tset, mset, links);
      }
      links := Linked(links, o, ms[i]);
    }
  }

  // ---- Eager loading from the tenants ----

  /** A row of table dead_letter_messages. */
  datatype Record = Record(id: string, tenantID: string)

  /** WHERE tenant_id IN args. */
  function Selected(table: seq<Record>, args: set<string>): seq<Record> {
    if table == [] then []
    else (if table[0].tenantID in args then [table[0]] else []) + Selected(table[1..], args)
  }

  /** The objects are distinct and carry the records' columns. */
  ghost predicate Bound(ms: seq<DeadLetterMessage>, records: seq<Record>)
    reads ms`tenantID
  {
    && |ms| == |records|
    && (forall k :: 0 <= k < |ms| ==> ms[k].ID == records[k].id && ms[k].tenantID == records[k].tenantID)
    && (forall i, k :: 0 <= i < k < |ms| ==> ms[i] != ms[k])
  }

  /** Binds the query's records to new objects. */
  method Bind(records: seq<Record>) returns (ms: seq<DeadLetterMessage>)
    ensures Bound(ms, records) && forall k :: 0 <= k < |ms| ==> fresh(ms[k]) && ms[k].R.NoMessageR?
  {
    ms := [];
    for i := 0 to |records|
      invariant Bound(ms, records[..i]) && forall k :: 0 <= k < |ms| ==> fresh(ms[k]) && ms[k].R.NoMessageR?
    {
      var m := new DeadLetterMessage(records[i].id, records[i].tenantID);
      ms := ms + [m];
    }
    assert records[..|records|] == records;
  }

  /** The first loop: every tenant gets a relation struct, and its id is an argument of the query. */
  method Collect(ts: seq<Tenant>, ghost tset: set<Tenant>, ghost l: Links) returns (args: set<string>)
    requires tset == (set t | t in ts) && LinksAre(tset, {}, l)
    modifies tset`R
    ensures LinksAre(tset, {}, l) && forall k :: 0 <= k < |ts| ==> ts[k].R.TenantR?
    ensures args == Args(ts) && (args == {} <==> ts == [])
  {
    args := {};
    for i := 0 to |ts|
      invariant LinksAre(tset, {}, l) && forall k :: 0 <= k < i ==> ts[k].R.TenantR?
      invariant args == (set k | 0 <= k < i :: ts[k].ID) && (args == {} <==> i == 0)
    {
      if ts[i].R.NoTenantR? {
        ts[i].R := TenantR([]);
      }
      args := args + {ts[i].ID};
    }
  }

  /** Rows without relation struct join in. */
  method JoinBound(ts: seq<Tenant>, ms: seq<DeadLetterMessage>, ghost tset: set<Tenant>, ghost l: Links)
    returns (ghost mset: set<DeadLetterMessage>, ghost owners: seq<Tenant?>, ghost links: Links)
    requires tset == (set t | t in ts) && LinksAre(tset, {}, l) && forall k :: 0 <= k < |ms| ==> ms[k].R.NoMessageR?
    modifies tset`R, (set m | m in ms)`R
    ensures mset == (set m | m in ms) && OwnersAre(ts, ms, owners)
    ensures links == AllLinked(Links(l.lists, Unlinked(mset)), owners, ms, |ms|) && LinksAre(tset, mset, links)
  {
    mset := set m | m in ms;
    owners := Owners(ts, ms);
    links := Join(ts, ms, tset, mset, owners, Links(l.lists, Unlinked(mset)));
  }

  /** Loads the rows of all tenants of the slice and links both sides: a join of the selected rows, from
      the lists that the tenants had. */
  method LoadDeadLetterMessages(slice: seq<Tenant>, table: seq<Record>, ghost tset: set<Tenant>, ghost l: Links)
    returns (results: seq<DeadLetterMessage>, ghost mset: set<DeadLetterMessage>, ghost owners: seq<Tenant?>, ghost links: Links)
    requires tset == (set t | t in slice) && LinksAre(tset, {}, l)
    modifies tset`R
    ensures mset == (set m | m in results) && fresh(mset) && Bound(results, Selected(table, Args(slice)))
    ensures OwnersAre(slice, results, owners) && links == AllLinked(Links(l.lists, Unlinked(mset)), owners, results, |results|)
    ensures LinksAre(tset, mset, links)
  {
    var args := Collect(slice, tset, l);
    if |args| == 0 {
      NothingSelected(table);
      return [], {}, [], Links(l.lists, Unlinked({}));
    }
    results := Bind(Selected(table, args));
    mset, owners, links := JoinBound(slice, results, tset, l);
  }

  lemma NothingSelected(table: seq<Record>)
    ensures Selected(table, {}) == []
  {
  }

  /** The ids of the table's rows with a tenant id, in table order. */
  function IdsOf(table: seq<Record>, tenantID: string): seq<string> {
    if table == [] then []
    else (if table[0].tenantID == tenantID then [table[0].id] else []) + IdsOf(table[1..], tenantID)
  }

  lemma {:induction false} IdsOfSnoc(table: seq<Record>, r: Record, tenantID: string)
    ensures IdsOf(table + [r], tenantID) == IdsOf(table, tenantID) + if r.tenantID == tenantID then [r.id] else []
  {
    if table == [] {
      assert table + [r] == [r];
    } else {
      assert (table + [r])[0] == table[0] && (table + [r])[1..] == table[1..] + [r];
      IdsOfSnoc(table[1..], r, tenantID);
    }
  }

  /** The query loses no row, repeats none and keeps their order. */
  lemma {:induction false} SelectedComplete(table: seq<Record>, args: set<string>, tenantID: string)
    ensures IdsOf(Selected(table, args), tenantID) == if tenantID in args then IdsOf(table, tenantID) else []
  {
    if table != [] {
      var rest := Selected(table[1..], args);
      SelectedComplete(table[1..], args, tenantID);
      if table[0].tenantID in args {
        assert Selected(table, args)[0] == table[0] && Selected(table, args)[1..] == rest;
      } else {
        assert Selected(table, args) == rest;
      }
    }
  }

  function RowIDs(ms: seq<DeadLetterMessage>): (ids: seq<string>)
    ensures |ids| == |ms| && forall k :: 0 <= k < |ms| ==> ids[k] == ms[k].ID
  {
    if ms == [] then [] else RowIDs(ms[..|ms| - 1]) + [ms[|ms| - 1].ID]
  }

  lemma {:induction false} RowIDsAppend(ms: seq<DeadLetterMessage>, ns: seq<DeadLetterMessage>)
    ensures RowIDs(ms + ns) == RowIDs(ms) + RowIDs(ns)
  {
  }

  lemma {:induction false} FilteredIDs(keys: seq<string>, ms: seq<DeadLetterMessage>, records: seq<Record>, tenantID: string)
    requires |keys| == |ms| == |records| && forall k :: 0 <= k < |ms| ==> Record(ms[k].ID, keys[k]) == records[k]
    ensures RowIDs(WithKey(keys, ms, tenantID)) == IdsOf(records, tenantID)
    decreases |ms|
  {
    if ms != [] {
      var n := |ms| - 1;
      var before := WithKey(keys[..n], ms[..n], tenantID);
      FilteredIDs(keys[..n], ms[..n], records[..n], tenantID);
      IdsOfSnoc(records[..n], records[n], tenantID);
      assert records == records[..n] + [records[n]];
      RowIDsAppend(before, [ms[n]]);
      assert RowIDs([ms[n]]) == [ms[n].ID];
      assert before + [] == before;
    }
  }

  /** What LoadDeadLetterMessages leaves a tenant: its old list, followed by the rows that the table has for
      it, all of them and in table order. */
  lemma LoadedList(slice: seq<Tenant>, table: seq<Record>, results: seq<DeadLetterMessage>, owners: seq<Tenant?>, l: Links, t: Tenant)
    requires Bound(results, Selected(table, Args(slice))) && OwnersAre(slice, results, owners)
    requires t in slice && t in l.lists
    ensures t in AllLinked(l, owners, results, |results|).lists
    ensures RowIDs(AllLinked(l, owners, results, |results|).lists[t])
            == RowIDs(l.lists[t]) + if OwnerOf(slice, t.ID) == t then IdsOf(table, t.ID) else []
  {
    var selected := Selected(table, Args(slice));
    var keys := seq(|results|, k requires 0 <= k < |results| => selected[k].tenantID);
    JoinedLists(l, slice, owners, keys, results, t);
    FilteredIDs(keys, results, selected, t.ID);
    SelectedComplete(table, Args(slice), t.ID);
    ArgsHold(slice, t);
    RowIDsAppend(l.lists[t], if OwnerOf(slice, t.ID) == t then WithKey(keys, results, t.ID) else []);
  }

  /** For a single tenant: the rows with its id replace its list. */
  method LoadDeadLetterMessagesOf(tenant: Tenant, table: seq<Record>) returns (results: seq<DeadLetterMessage>)
    modifies tenant`R
    ensures Bound(results, Selected(table, {tenant.ID})) && forall k :: 0 <= k < |results| ==> fresh(results[k])
    ensures List(tenant) == results && forall k :: 0 <= k < |results| ==> Back(results[k]) == tenant
  {
    if tenant.R.NoTenantR? {
      tenant.R := TenantR([]);
    }
    results := Bind(Selected(table, {tenant.ID}));
    tenant.R := TenantR(results);
    for i := 0 to |results|
      invariant List(tenant) == results && Bound(results, Selected(table, {tenant.ID}))
      invariant forall k :: 0 <= k < |results| ==> fresh(results[k])
      invariant forall k :: 0 <= k < i ==> Back(results[k]) == tenant
    {
      if results[i].R.NoMessageR? {
        results[i].R := DeadLetterMessageR(null);
      }
      results[i].R := DeadLetterMessageR(tenant);
    }
  }

  // ---- Eager loading from the rows ----

  /** WHERE id IN args. */
  function SelectedIDs(table: seq<string>, args: set<string>): seq<string> {
    if table == [] then []
    else (if table[0] in args then [table[0]] else []) + SelectedIDs(table[1..], args)
  }

  /** Binds the query's ids to new objects. */
  method BindTenants(ids: seq<string>) returns (ts: seq<Tenant>)
    ensures IDs(ts) == ids && forall k :: 0 <= k < |ts| ==> fresh(ts[k]) && ts[k].R.NoTenantR?
    ensures forall i, k :: 0 <= i < k < |ts| ==> ts[i] != ts[k]
  {
    ts := [];
    for i := 0 to |ids|
      invariant IDs(ts) == ids[..i] && forall k :: 0 <= k < |ts| ==> fresh(ts[k]) && ts[k].R.NoTenantR?
      invariant forall i, k :: 0 <= i < k < |ts| ==> ts[i] != ts[k]
    {
      var t := new Tenant(ids[i]);
      ts := ts + [t];
    }
    assert ids[..|ids|] == ids;
  }

  ghost predicate KeysAre(ms: seq<DeadLetterMessage>, keys: seq<string>)
    reads ms`tenantID
  {
    |keys| == |ms| && forall k :: 0 <= k < |ms| ==> keys[k] == ms[k].tenantID
  }

  ghost function KeySet(keys: seq<string>): set<string> {
    set k | 0 <= k < |keys| :: keys[k]
  }

  /** The first loop: every row gets a relation struct, and its tenant id is an argument of the query. */
  method CollectRows(ms: seq<DeadLetterMessage>, ghost keys: seq<string>, ghost mset: set<DeadLetterMessage>, ghost l: Links)
    returns (args: set<string>)
    requires mset == (set m | m in ms) && KeysAre(ms, keys) && LinksAre({}, mset, l)
    modifies mset`R
    ensures LinksAre({}, mset, l) && forall k :: 0 <= k < |ms| ==> ms[k].R.DeadLetterMessageR?
    ensures args == KeySet(keys) && (args == {} <==> ms == [])
  {
    args := {};
    for i := 0 to |ms|
      invariant LinksAre({}, mset, l) && forall k :: 0 <= k < i ==> ms[k].R.DeadLetterMessageR?
      invariant args == (set k | 0 <= k < i :: keys[k]) && (args == {} <==> i == 0)
    {
      if ms[i].R.NoMessageR? {
        ms[i].R := DeadLetterMessageR(null);
      }
      args := args + {ms[i].tenantID};
    }
  }

  /** Tenants without relation struct join in. */
  method JoinTenants(ts: seq<Tenant>, ms: seq<DeadLetterMessage>, ghost mset: set<DeadLetterMessage>, ghost l: Links)
    returns (ghost tset: set<Tenant>, ghost owners: seq<Tenant?>, ghost links: Links)
    requires mset == (set m | m in ms) && LinksAre({}, mset, l) && forall k :: 0 <= k < |ts| ==> ts[k].R.NoTenantR?
    modifies (set t | t in ts)`R, mset`R
    ensures tset == (set t | t in ts) && OwnersAre(ts, ms, owners)
    ensures links == AllLinked(Links(NoRows(tset), l.backs), owners, ms, |ms|) && LinksAre(tset, mset, links)
  {
    tset := set t | t in ts;
    owners := Owners(ts, ms);
    links := Join(ts, ms, tset, mset, owners, Links(NoRows(tset), l.backs));
  }

  /** Loads the tenants of all rows of the slice and links both sides: a join of the slice into the
      selected tenants, from the tenants that the rows had. */
  method LoadTenant(slice: seq<DeadLetterMessage>, table: seq<string>, ghost keys: seq<string>, ghost mset: set<DeadLetterMessage>, ghost l: Links)
    returns (results: seq<Tenant>, ghost tset: set<Tenant>, ghost owners: seq<Tenant?>, ghost links: Links)
    requires mset == (set m | m in slice) && KeysAre(slice, keys) && LinksAre({}, mset, l)
    modifies mset`R
    ensures tset == (set t | t in results) && fresh(tset) && IDs(results) == SelectedIDs(table, KeySet(keys))
    ensures OwnersAre(results, slice, owners) && links == AllLinked(Links(NoRows(tset), l.backs), owners, slice, |slice|)
    ensures LinksAre(tset, mset, links)
  {
    var args := CollectRows(slice, keys, mset, l);
    if |args| == 0 {
      NoIDsSelected(table);
      return [], {}, [], Links(NoRows({}), l.backs);
    }
    results := BindTenants(SelectedIDs(table, args));
    if |results| == 0 {
      tset, owners, links := {}, seq(|slice|, _ => null), Links(NoRows({}), l.backs);
      NoOwners(links, owners, slice, |slice|);
      return;
    }
    tset, owners, links := JoinTenants(results, slice, mset, l);
  }

  lemma NoIDsSelected(table: seq<string>)
    ensures SelectedIDs(table, {}) == []
  {
  }

  lemma {:induction false} NoOwners(l: Links, owners: seq<Tenant?>, ms: seq<DeadLetterMessage>, n: nat)
    requires |owners| == |ms| && n <= |ms| && forall k :: 0 <= k < |ms| ==> owners[k] == null
    ensures AllLinked(l, owners, ms, n) == l
  {
    if n != 0 {
      NoOwners(l, owners, ms, n - 1);
    }
  }

  lemma {:induction false} SelectedOne(table: seq<string>, id: string)
    ensures SelectedIDs(table, {id}) == [] <==> id !in table
    ensures forall k :: 0 <= k < |SelectedIDs(table, {id})| ==> SelectedIDs(table, {id})[k] == id
  {
    if table != [] {
      SelectedOne(table[1..], id);
    }
  }

  /** For a single row: links it with its tenant, if there is one. */
  method LoadTenantOf(m: DeadLetterMessage, table: seq<string>) returns (foreign: Tenant?)
    modifies m`R
    ensures foreign == null <==> m.tenantID !in table
    ensures foreign == null ==> Back(m) == old(Back(m))
    ensures foreign != null ==> fresh(foreign) && foreign.ID == m.tenantID && Back(m) == foreign && List(foreign) == [m]
  {
    if m.R.NoMessageR? {
      m.R := DeadLetterMessageR(null);
    }
    SelectedOne(table, m.tenantID);
    var results := BindTenants(SelectedIDs(table, {m.tenantID}));
    if |results| == 0 {
      return null;
    }
    foreign := results[0];
    m.R := m.R.(tenant := foreign);
    if foreign.R.NoTenantR? {
      foreign.R := TenantR([]);
    }
    foreign.R := TenantR(foreign.R.deadLetterMessages + [m]);
  }

  // ---- Both ways of loading ----

  /** The ids of the pairs that are linked in the objects, seen from the tenants. */
  ghost function LinkedIDs(ts: set<Tenant>): iset<(string, string)>
    reads ts`R
  {
    iset t, m | t in ts && m in List(t) :: (t.ID, m.ID)
  }

  /** Each link between the objects has its other side. */
  ghost predicate ObjectsInStep(ts: set<Tenant>, ms: set<DeadLetterMessage>)
    reads ts`R, ms`R
  {
    && (forall t, m :: t in ts && m in List(t) ==> m in ms && Back(m) == t)
    && (forall m :: m in ms && Back(m) != null ==> Back(m) in ts && m in List(Back(m)))
  }

  /** What links as values say of the objects. */
  lemma LinksOfObjects(ts: set<Tenant>, ms: set<DeadLetterMessage>, l: Links)
    requires LinksAre(ts, ms, l) && l.lists.Keys == ts && l.backs.Keys == ms
    ensures LinkedIDs(ts) == PairsOf(l)
    ensures InStep(l) <==> ObjectsInStep(ts, ms)
  {
    assert forall t :: t in ts ==> List(t) == l.lists[t];
    assert forall m :: m in ms ==> Back(m) == l.backs[m];
  }

  ghost function Members<T>(xs: seq<T>): set<T> {
    set x | x in xs
  }

  /** A join from unlinked objects, as either loader leaves it. */
  ghost predicate Loaded(ts: seq<Tenant>, ms: seq<DeadLetterMessage>, owners: seq<Tenant?>)
    reads ts, ms
  {
    && OwnersAre(ts, ms, owners) && (forall i, k :: 0 <= i < k < |ms| ==> ms[i] != ms[k])
    && LinksAre(Members(ts), Members(ms), AllLinked(Fresh(ts, ms), owners, ms, |ms|))
  }

  lemma FreshKeys(ts: seq<Tenant>, ms: seq<DeadLetterMessage>, owners: seq<Tenant?>)
    requires |owners| == |ms| && forall k :: 0 <= k < |ms| && owners[k] != null ==> owners[k] in ts
    ensures var l := AllLinked(Fresh(ts, ms), owners, ms, |ms|);
            l.lists.Keys == Members(ts) && l.backs.Keys == Members(ms)
  {
    OnlyThese(Fresh(ts, ms), owners, ms, |ms|);
    OnlyThoseRows(Fresh(ts, ms), owners, ms, |ms|);
  }

  lemma LoadedObjects(ts: seq<Tenant>, ms: seq<DeadLetterMessage>, owners: seq<Tenant?>, keys: seq<string>)
    requires Loaded(ts, ms, owners) && KeysAre(ms, keys)
    ensures LinkedIDs(Members(ts)) == Filtered(Args(ts), keys, ms) && ObjectsInStep(Members(ts), Members(ms))
  {
    FreshJoin(ts, owners, keys, ms);
    FreshKeys(ts, ms, owners);
    LinksOfObjects(Members(ts), Members(ms), AllLinked(Fresh(ts, ms), owners, ms, |ms|));
  }

  lemma {:induction false} OnlyThoseRows(l: Links, owners: seq<Tenant?>, ms: seq<DeadLetterMessage>, n: nat)
    requires |owners| == |ms| && n <= |ms| && forall k :: 0 <= k < |ms| ==> ms[k] in l.backs
    ensures AllLinked(l, owners, ms, n).backs.Keys == l.backs.Keys
  {
    if n != 0 {
      OnlyThoseRows(l, owners, ms, n - 1);
    }
  }

  lemma {:induction false} SelectedIDsMembers(table: seq<string>, args: set<string>, id: string)
    ensures id in SelectedIDs(table, args) <==> id in table && id in args
  {
    if table != [] {
      SelectedIDsMembers(table[1..], args, id);
    }
  }

  /** What the two loaders leave, on the objects: `results` are the rows loaded for all tenants, `results'`
      the tenants loaded for all rows. */
  lemma LoadersAgreeOnObjects(slice: seq<Tenant>, data: seq<Record>, results: seq<DeadLetterMessage>, owners: seq<Tenant?>,
                              rows: seq<DeadLetterMessage>, table: seq<string>, keys: seq<string>, results': seq<Tenant>, owners': seq<Tenant?>)
    requires Loaded(slice, results, owners) && Bound(results, Selected(data, Args(slice)))
    requires Loaded(results', rows, owners') && Bound(rows, data) && KeysAre(rows, keys)
    requires IDs(results') == SelectedIDs(table, KeySet(keys)) && forall id :: id in table <==> id in Args(slice)
    ensures LinkedIDs(Members(slice)) == LinkedIDs(Members(results'))
    ensures ObjectsInStep(Members(slice), Members(results)) && ObjectsInStep(Members(results'), Members(rows))
  {
    var selected := Selected(data, Args(slice));
    var loadedKeys := seq(|results|, k requires 0 <= k < |results| => selected[k].tenantID);
    LoadedObjects(slice, results, owners, loadedKeys);
    LoadedObjects(results', rows, owners', keys);
    forall id
      ensures id in Args(results') <==> id in Args(slice) && id in keys
    {
      SelectedIDsMembers(table, KeySet(keys), id);
      assert id in Args(results') <==> id in IDs(results');
    }
    JoinSymmetry(Args(slice), data, results, loadedKeys, Args(results'), rows, keys);
  }

  /** Loads the same data both ways: into unlinked objects for all tenants, and into unlinked objects for all
      rows.  Both link the same pairs of ids, and in both each link has its other side. */
  method LoadBothWays(slice: seq<Tenant>, data: seq<Record>, rows: seq<DeadLetterMessage>, table: seq<string>, ghost keys: seq<string>)
    returns (results: seq<DeadLetterMessage>, results': seq<Tenant>)
    requires LinksAre(Members(slice), {}, Links(NoRows(Members(slice)), map[]))
    requires LinksAre({}, Members(rows), Links(map[], Unlinked(Members(rows))))
    requires Bound(rows, data) && KeysAre(rows, keys) && forall id :: id in table <==> id in Args(slice)
    modifies Members(slice)`R, Members(rows)`R
    ensures LinkedIDs(Members(slice)) == LinkedIDs(Members(results'))
    ensures ObjectsInStep(Members(slice), Members(results)) && ObjectsInStep(Members(results'), Members(rows))
  {
    ghost var loaded, tenants, owners, owners', links, links';
    results, loaded, owners, links :=
      LoadDeadLetterMessages(slice, data, Members(slice), Links(NoRows(Members(slice)), map[]));
    results', tenants, owners', links' :=
      LoadTenant(rows, table, keys, Members(rows), Links(map[], Unlinked(Members(rows))));
    LoadersAgreeOnObjects(slice, data, results, owners, rows, table, keys, results', owners');
  }

  // ---- Setting a link ----

  /** `inserted` and `updated` are the database's answers. */
  method SetTenant(m: DeadLetterMessage, insert: bool, related: Tenant, inserted: bool, updated: bool,
                   ghost ts: set<Tenant>, ghost ms: set<DeadLetterMessage>, ghost l: Links) returns (ok: bool)
    requires related in ts && m in ms && LinksAre(ts, ms, l)
    modifies m, related`R
    ensures ok <==> (insert ==> inserted) && updated
    ensures m.tenantID == if ok then related.ID else old(m.tenantID)
    ensures LinksAre(ts, ms, if ok then Linked(l, related, m) else l)
  {
    if insert && !inserted {
      return false;
    }
    if !updated {
      return false;
    }
    m.tenantID := related.ID;
    Link(related, m, ts, ms, l);
    return true;
  }

  /** Linking several rows to one tenant appends them all and points each at it. */
  lemma AllToOne(l: Links, o: Tenant, ms: seq<DeadLetterMessage>)
    requires o in l.lists && forall m :: m in ms ==> m in l.backs
    ensures var l' := AllLinked(l, seq(|ms|, _ => o), ms, |ms|);
            && (forall t :: t in l.lists ==> t in l'.lists && l'.lists[t] == if t == o then l.lists[t] + ms else l.lists[t])
            && (forall m :: m in l.backs ==> m in l'.backs && l'.backs[m] == if m in ms then o else l.backs[m])
  {
    var owners: seq<Tenant?> := seq(|ms|, _ => o);
    assert ms[..|ms|] == ms && owners[..|ms|] == owners;
    forall t | t in l.lists
      ensures t in AllLinked(l, owners, ms, |ms|).lists
      ensures AllLinked(l, owners, ms, |ms|).lists[t] == if t == o then l.lists[t] + ms else l.lists[t]
    {
      ListsGrow(l, owners, ms, |ms|, t);
      AllAssigned(owners, ms, o, t);
    }
    forall m | m in l.backs
      ensures m in AllLinked(l, owners, ms, |ms|).backs
      ensures AllLinked(l, owners, ms, |ms|).backs[m] == if m in ms then o else l.backs[m]
    {
      BacksSet(l, owners, ms, |ms|, m, o);
    }
  }

  lemma {:induction false} AllAssigned(owners: seq<Tenant?>, ms: seq<DeadLetterMessage>, o: Tenant, t: Tenant)
    requires |owners| == |ms| && forall k :: 0 <= k < |ms| ==> owners[k] == o
    ensures Assigned(owners, ms, t) == if t == o then ms else []
    decreases |ms|
  {
    if ms != [] {
      AllAssigned(owners[..|ms| - 1], ms[..|ms| - 1], o, t);
    }
  }

  /** The first loop: the rows move to the tenant in the database, until a statement fails.  Inserting
      sets the id before the statement runs, updating after it. */
  method StoreRelated(tenant: Tenant, insert: bool, related: seq<DeadLetterMessage>, stored: nat) returns (ok: bool)
    modifies (set m | m in related)`tenantID
    ensures ok <==> |related| <= stored
    ensures ok ==> forall m :: m in related ==> m.tenantID == tenant.ID
    ensures var touched := related[..if ok then |related| else if insert then stored + 1 else stored];
            forall m :: m in related ==> m.tenantID == if m in touched then tenant.ID else old(m.tenantID)
  {
    for i := 0 to |related|
      invariant i <= stored
      invariant forall m :: m in related ==> m.tenantID == if m in related[..i] then tenant.ID else old(m.tenantID)
    {
      if insert {
        related[i].tenantID := tenant.ID;
      }
      if i == stored {
        return false;
      }
      related[i].tenantID := tenant.ID;
    }
    ok := true;
  }

  /** The second loop: the rows point at the tenant. */
  method PointAll(tenant: Tenant, related: seq<DeadLetterMessage>)
    modifies (set m | m in related)`R
    ensures forall m :: m in related ==> Back(m) == tenant
  {
    for i := 0 to |related|
      invariant forall k :: 0 <= k < i ==> Back(related[k]) == tenant
    {
      if related[i].R.NoMessageR? {
        related[i].R := DeadLetterMessageR(tenant);
      } else {
        related[i].R := related[i].R.(tenant := tenant);
      }
    }
  }

  /** Appends the rows to the tenant's list and points them at it. */
  method LinkAll(tenant: Tenant, related: seq<DeadLetterMessage>, ghost ts: set<Tenant>, ghost ms: set<DeadLetterMessage>, ghost l: Links)
    requires tenant in ts && (forall m :: m in related ==> m in ms) && LinksAre(ts, ms, l)
    modifies tenant`R, (set m | m in related)`R
    ensures LinksAre(ts, ms, AllLinked(l, seq(|related|, _ => tenant), related, |related|))
  {
    if tenant.R.NoTenantR? {
      tenant.R := TenantR(related);
    } else {
      tenant.R := TenantR(tenant.R.deadLetterMessages + related);
    }
    PointAll(tenant, related);
    AllToOne(l, tenant, related);
  }

  /** `stored` is how many of the database statements succeed before the first that fails. */
  method AddDeadLetterMessages(tenant: Tenant, insert: bool, related: seq<DeadLetterMessage>, stored: nat,
                               ghost ts: set<Tenant>, ghost ms: set<DeadLetterMessage>, ghost l: Links) returns (ok: bool)
    requires tenant in ts && (forall m :: m in related ==> m in ms) && LinksAre(ts, ms, l)
    modifies tenant`R, set m | m in related
    ensures ok <==> |related| <= stored
    ensures ok ==> forall m :: m in related ==> m.tenantID == tenant.ID
    ensures LinksAre(ts, ms, if ok then AllLinked(l, seq(|related|, _ => tenant), related, |related|) else l)
  {
    ok := StoreRelated(tenant, insert, related, stored);
    if ok {
      LinkAll(tenant, related, ts, ms, l);
    }
  }
}
