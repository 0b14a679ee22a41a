/** The names of the tenants' message partitions. */
module Partitions {

  const PARTITION_PREFIX := "messages_tenant_"

  function WithoutHyphens(s: string): string {
    if s == "" then "" else (if s[0] == '-' then "" else [s[0]]) + WithoutHyphens(s[1..])
  }

  function PartitionName(tenantID: string): string {
    PARTITION_PREFIX + WithoutHyphens(tenantID)
  }

  predicate HexDigit(c: char) {
    '0' <= c <= '9' || 'a' <= c <= 'f'
  }

  predicate HyphenAt(i: int) {
    i == 8 || i == 13 || i == 18 || i == 23
  }

  /** The text form of a UUID: section 4 of RFC 9562, in lower case. */
  predicate UuidText(s: string) {
    |s| == 36 && forall i :: 0 <= i < |s| ==> if HyphenAt(i) then s[i] == '-' else HexDigit(s[i])
  }

  predicate SameHyphens(a: string, b: string) {
    |a| == |b| && forall i :: 0 <= i < |a| ==> (a[i] == '-' <==> b[i] == '-')
  }

  /** Hyphens can be put back where it is known where they were. */
  lemma {:induction false} HyphensRestored(a: string, b: string)
    requires SameHyphens(a, b) && WithoutHyphens(a) == WithoutHyphens(b)
    ensures a == b
  {
    if a != "" {
      assert a[0] == '-' <==> b[0] == '-';
      forall i | 0 <= i < |a[1..]|
        ensures a[1..][i] == '-' <==> b[1..][i] == '-'
      {
        assert a[1..][i] == a[i + 1] && b[1..][i] == b[i + 1];
      }
      if a[0] != '-' {
        assert WithoutHyphens(a)[0] == a[0] && WithoutHyphens(b)[0] == b[0];
        assert WithoutHyphens(a)[1..] == WithoutHyphens(a[1..]) && WithoutHyphens(b)[1..] == WithoutHyphens(b[1..]);
      } else {
        assert WithoutHyphens(a) == WithoutHyphens(a[1..]) && WithoutHyphens(b) == WithoutHyphens(b[1..]);
      }
      HyphensRestored(a[1..], b[1..]);
      assert a == [a[0]] + a[1..] && b == [b[0]] + b[1..];
    }
  }

  /** Tenants with UUIDs have a partition each. */
  lemma PartitionsDistinct(a: string, b: string)
    requires UuidText(a) && UuidText(b) && PartitionName(a) == PartitionName(b)
    ensures a == b
  {
    assert WithoutHyphens(a) == PartitionName(a)[|PARTITION_PREFIX|..] == WithoutHyphens(b);
    HyphensRestored(a, b);
  }

  /** Ids of another form can share one. */
  lemma PartitionsShared()
    ensures PartitionName("a-b") == PartitionName("ab")
  {
    assert "a-b"[1..][1..] == "b" && "ab"[1..] == "b";
  }
}
