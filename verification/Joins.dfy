/** Nested-loop joins on plain sequences: each row goes to the first owner with its key. */
module Joins {

  /** The first position of an id, |ids| if it does not occur. */
  ghost function First(ids: seq<string>, id: string): (j: nat)
    ensures j <= |ids| && (j < |ids| ==> ids[j] == id) && (forall k :: 0 <= k < j ==> ids[k] != id)
  {
    if ids == [] || ids[0] == id then 0 else 1 + First(ids[1..], id)
  }

  /** The xs whose owner is o, in order. */
  ghost function Assigned<O, X>(owners: seq<O>, xs: seq<X>, o: O): seq<X>
    requires |owners| == |xs|
    decreases |xs|
  {
    if xs == [] then []
    else Assigned(owners[..|xs| - 1], xs[..|xs| - 1], o) + (if owners[|xs| - 1] == o then [xs[|xs| - 1]] else [])
  }

  /** One more x. */
  lemma AssignedGrows<O, X>(owners: seq<O>, xs: seq<X>, i: nat, o: O)
    requires |owners| == |xs| && i < |xs|
    ensures Assigned(owners[..i + 1], xs[..i + 1], o)
            == Assigned(owners[..i], xs[..i], o) + (if owners[i] == o then [xs[i]] else [])
  {
    assert owners[..i + 1][..i] == owners[..i] && xs[..i + 1][..i] == xs[..i];
  }

  lemma {:induction false} AssignedMembers<O, X>(owners: seq<O>, xs: seq<X>, o: O, x: X)
    requires |owners| == |xs|
    ensures x in Assigned(owners, xs, o) <==> exists k :: 0 <= k < |xs| && xs[k] == x && owners[k] == o
    decreases |xs|
  {
    if xs != [] {
      var n := |xs| - 1;
      var owners', xs' := owners[..n], xs[..n];
      AssignedMembers(owners', xs', o, x);
      if k :| 0 <= k < |xs| && xs[k] == x && owners[k] == o {
        assert k < n ==> xs'[k] == x && owners'[k] == o;
      }
      if k :| 0 <= k < n && xs'[k] == x && owners'[k] == o {
        assert xs[k] == x && owners[k] == o;
      }
    }
  }

  /** The xs with a given key, in order. */
  ghost function WithKey<X>(keys: seq<string>, xs: seq<X>, key: string): seq<X>
    requires |keys| == |xs|
    decreases |xs|
  {
    if xs == [] then []
    else WithKey(keys[..|xs| - 1], xs[..|xs| - 1], key) + (if keys[|xs| - 1] == key then [xs[|xs| - 1]] else [])
  }
}
