/**
  The capped aggregation of routes rejected by policy: fed one neighbor at a time, it counts
  paths per policy and lists, within its caps, which neighbors rejected which prefix.
 */
module Rejections {
  import opened Types

  datatype RejectKey = RejectKey(prefix: Prefix, policy: string)

  datatype PrefixGroup = PrefixGroup(key: RejectKey, neighbors: seq<string>)

  /** One rejection by one neighbor. */
  datatype Rejection = Rejection(key: RejectKey, neighbor: string)

  datatype Limits = Limits(maxTrackedKeys: nat, maxGroups: nat, maxNeighbors: nat)

  /** The neighbor entries of all groups. */
  function Entries(groups: seq<PrefixGroup>): nat {
    if groups == [] then 0 else |groups[0].neighbors| + Entries(groups[1..])
  }

  lemma {:induction false} EntriesAdd(groups: seq<PrefixGroup>, g: PrefixGroup)
    ensures Entries(groups + [g]) == Entries(groups) + |g.neighbors|
  {
    if groups == [] {
      assert [] + [g] == [g];
    } else {
      assert (groups + [g])[1..] == groups[1..] + [g];
      EntriesAdd(groups[1..], g);
    }
  }

  lemma {:induction false} EntriesSet(groups: seq<PrefixGroup>, i: nat, g: PrefixGroup)
    requires i < |groups|
    ensures Entries(groups[i := g]) == Entries(groups) - |groups[i].neighbors| + |g.neighbors|
    ensures Entries(groups) >= |groups[i].neighbors|
  {
    if i == 0 {
      assert groups[0 := g][1..] == groups[1..];
    } else {
      assert groups[i := g][1..] == groups[1..][i - 1 := g];
      EntriesSet(groups[1..], i - 1, g);
    }
  }

  predicate NoDuplicates(s: seq<string>) {
    forall i, j | 0 <= i < j < |s| :: s[i] != s[j]
  }

  function AtKey(m: map<string, nat>, policy: string): nat {
    if policy in m then m[policy] else 0
  }

  /** The keys of one policy. */
  function KeysOf(keys: set<RejectKey>, policy: string): set<RejectKey> {
    set k | k in keys && k.policy == policy
  }

  /** What the accumulator tracks about prefixes; a key without a group index is counted only. */
  datatype Tracked = Tracked(
    keyIndex: map<RejectKey, Option<nat>>,
    groups: seq<PrefixGroup>,
    prefixCount: map<string, nat>,
    neighborEntries: nat,
    keysTruncated: bool,
    groupsTruncated: bool)

  // ---------------------------------------------------------------- what holds throughout

  ghost predicate Capped(t: Tracked, limits: Limits) {
    && |t.keyIndex| <= limits.maxTrackedKeys && |t.groups| <= limits.maxGroups
    && t.neighborEntries == Entries(t.groups) <= limits.maxNeighbors
  }

  /** Every indexed group is the group of its key, and every group is indexed. */
  ghost predicate Indexed(t: Tracked) {
    && (forall k | k in t.keyIndex && t.keyIndex[k].Some? ::
          t.keyIndex[k].value < |t.groups| && t.groups[t.keyIndex[k].value].key == k)
    && (forall i | 0 <= i < |t.groups| :: t.groups[i].key in t.keyIndex && t.keyIndex[t.groups[i].key] == Some(i))
    && (forall k | k in t.keyIndex && t.keyIndex[k].None? :: t.groupsTruncated)
  }

  ghost predicate Counted(t: Tracked) {
    forall policy :: AtKey(t.prefixCount, policy) == |KeysOf(t.keyIndex.Keys, policy)|
  }

  /** A group lists only what was fed. */
  ghost predicate Listed(t: Tracked, fed: set<Rejection>) {
    forall i, n | 0 <= i < |t.groups| && n in t.groups[i].neighbors :: Rejection(t.groups[i].key, n) in fed
  }

  ghost predicate OnceIn(g: PrefixGroup, peer: string) {
    NoDuplicates(g.neighbors) && (peer in g.neighbors ==> g.neighbors[|g.neighbors| - 1] == peer)
  }

  /** No group lists a neighbor twice, and the current neighbor can only be listed last. */
  ghost predicate Once(t: Tracked, peer: string) {
    forall i | 0 <= i < |t.groups| :: OnceIn(t.groups[i], peer)
  }

  ghost predicate Rejected(fed: set<Rejection>, k: RejectKey) {
    exists n :: Rejection(k, n) in fed
  }

  /** Only what was fed is tracked, and unless a key was dropped everything fed is. */
  ghost predicate Keyed(t: Tracked, fed: set<Rejection>) {
    && (forall k | k in t.keyIndex :: Rejected(fed, k))
    && (!t.keysTruncated ==> forall r | r in fed :: r.key in t.keyIndex)
  }

  ghost predicate IsListed(t: Tracked, r: Rejection) {
    r.key in t.keyIndex && t.keyIndex[r.key].Some? && t.keyIndex[r.key].value < |t.groups|
    && r.neighbor in t.groups[t.keyIndex[r.key].value].neighbors
  }

  /** Unless something was dropped, every rejection fed is listed. */
  ghost predicate Complete(t: Tracked, fed: set<Rejection>) {
    !t.keysTruncated && !t.groupsTruncated ==> forall r | r in fed :: IsListed(t, r)
  }

  ghost predicate TrackedOk(t: Tracked, limits: Limits, fed: set<Rejection>) {
    Capped(t, limits) && Indexed(t) && Counted(t) && Listed(t, fed) && Keyed(t, fed) && Complete(t, fed)
  }

  // ---------------------------------------------------------------- one rejection

  /** Track a new key, with a group while there is room for one. */
  function WithKey(t: Tracked, limits: Limits, key: RejectKey): Tracked {
    var t1 := t.(prefixCount := t.prefixCount[key.policy := AtKey(t.prefixCount, key.policy) + 1]);
    if |t.groups| < limits.maxGroups then
      t1.(keyIndex := t.keyIndex[key := Some(|t.groups|)], groups := t.groups + [PrefixGroup(key, [])])
    else
      t1.(keyIndex := t.keyIndex[key := None], groupsTruncated := true)
  }

  /** List the current neighbor in a group, unless it was just listed there or there is no room. */
  function WithNeighbor(t: Tracked, limits: Limits, i: nat, peer: string): Tracked
    requires i < |t.groups|
  {
    var neighbors := t.groups[i].neighbors;
    if neighbors != [] && neighbors[|neighbors| - 1] == peer then t
    else if t.neighborEntries >= limits.maxNeighbors then t.(groupsTruncated := true)
    else t.(groups := t.groups[i := t.groups[i].(neighbors := neighbors + [peer])], neighborEntries := t.neighborEntries + 1)
  }

  /** A key counted only lists no neighbor. */
  function NeighborOf(t: Tracked, limits: Limits, key: RejectKey, peer: string): Tracked
    requires key in t.keyIndex
  {
    if t.keyIndex[key].Some? && t.keyIndex[key].value < |t.groups|
    then WithNeighbor(t, limits, t.keyIndex[key].value, peer) else t
  }

  function Reject(t: Tracked, limits: Limits, key: RejectKey, peer: string): Tracked {
    if key in t.keyIndex then NeighborOf(t, limits, key, peer)
    else if |t.keyIndex| < limits.maxTrackedKeys then NeighborOf(WithKey(t, limits, key), limits, key, peer)
    else t.(keysTruncated := true)
  }

  lemma CountedMore(keys: set<RejectKey>, key: RejectKey, policy: string)
    requires key !in keys
    ensures |KeysOf(keys + {key}, policy)| == |KeysOf(keys, policy)| + (if policy == key.policy then 1 else 0)
  {
    if policy == key.policy {
      assert KeysOf(keys + {key}, policy) == KeysOf(keys, policy) + {key};
    } else {
      assert KeysOf(keys + {key}, policy) == KeysOf(keys, policy);
    }
  }

  lemma WithKeyCapped(t: Tracked, limits: Limits, key: RejectKey)
    requires Capped(t, limits) && |t.keyIndex| < limits.maxTrackedKeys
    ensures Capped(WithKey(t, limits, key), limits)
  {
    EntriesAdd(t.groups, PrefixGroup(key, []));
  }

  lemma WithKeyCounted(t: Tracked, limits: Limits, key: RejectKey)
    requires Counted(t) && key !in t.keyIndex
    ensures Counted(WithKey(t, limits, key))
  {
    var t1 := WithKey(t, limits, key);
    assert t1.keyIndex.Keys == t.keyIndex.Keys + {key};
    forall policy
      ensures AtKey(t1.prefixCount, policy) == |KeysOf(t1.keyIndex.Keys, policy)|
    {
      CountedMore(t.keyIndex.Keys, key, policy);
    }
  }

  lemma WithKeyIndexed(t: Tracked, limits: Limits, key: RejectKey)
    requires Indexed(t) && key !in t.keyIndex
    ensures Indexed(WithKey(t, limits, key))
  {
    var t1, n := WithKey(t, limits, key), |t.groups|;
    forall i | 0 <= i < |t1.groups|
      ensures t1.groups[i].key in t1.keyIndex && t1.keyIndex[t1.groups[i].key] == Some(i)
    {
      if i < n { assert t1.groups[i] == t.groups[i] && t.groups[i].key != key; }
    }
    forall k | k in t1.keyIndex && t1.keyIndex[k].Some?
      ensures t1.keyIndex[k].value < |t1.groups| && t1.groups[t1.keyIndex[k].value].key == k
    {
      if k != key { assert k in t.keyIndex && t1.keyIndex[k] == t.keyIndex[k]; }
    }
  }

  lemma WithKeyListed(t: Tracked, limits: Limits, key: RejectKey, fed: set<Rejection>)
    requires Listed(t, fed) && key !in t.keyIndex
    ensures Listed(WithKey(t, limits, key), fed)
    ensures forall r | IsListed(t, r) :: IsListed(WithKey(t, limits, key), r)
  {
  }

  lemma WithNeighborCapped(t: Tracked, limits: Limits, i: nat, peer: string)
    requires i < |t.groups| && Capped(t, limits)
    ensures Capped(WithNeighbor(t, limits, i, peer), limits)
  {
    var g := t.groups[i];
    EntriesSet(t.groups, i, g.(neighbors := g.neighbors + [peer]));
  }

  lemma WithNeighborIndexed(t: Tracked, limits: Limits, i: nat, peer: string)
    requires i < |t.groups| && Indexed(t)
    ensures Indexed(WithNeighbor(t, limits, i, peer))
  {
  }

  lemma WithNeighborListed(t: Tracked, limits: Limits, i: nat, peer: string, fed: set<Rejection>)
    requires i < |t.groups| && Indexed(t) && Listed(t, fed)
    ensures
      var t1, r := WithNeighbor(t, limits, i, peer), Rejection(t.groups[i].key, peer);
      && Listed(t1, fed + {r}) && (t1.groupsTruncated || IsListed(t1, r))
      && forall q | IsListed(t, q) :: IsListed(t1, q)
  {
    var t1, key := WithNeighbor(t, limits, i, peer), t.groups[i].key;
    assert key in t.keyIndex && t.keyIndex[key] == Some(i);
    assert !t1.groupsTruncated ==> peer in t1.groups[i].neighbors;
  }

  lemma WithNeighborOnce(t: Tracked, limits: Limits, i: nat, peer: string)
    requires i < |t.groups| && Once(t, peer)
    ensures Once(WithNeighbor(t, limits, i, peer), peer)
  {
    var t1, g := WithNeighbor(t, limits, i, peer), t.groups[i];
    forall j | 0 <= j < |t1.groups|
      ensures OnceIn(t1.groups[j], peer)
    {
      assert OnceIn(t.groups[j], peer);
    }
  }

  lemma KeyedMore(t: Tracked, t2: Tracked, key: RejectKey, peer: string, fed: set<Rejection>)
    requires Keyed(t, fed) && t2.keysTruncated == t.keysTruncated
    requires forall k :: k in t2.keyIndex <==> k in t.keyIndex || k == key
    ensures Keyed(t2, fed + {Rejection(key, peer)})
  {
    var r := Rejection(key, peer);
    forall k | k in t2.keyIndex
      ensures Rejected(fed + {r}, k)
    {
      if k == key {
        assert r in fed + {r};
      } else {
        var n :| Rejection(k, n) in fed;
        assert Rejection(k, n) in fed + {r};
      }
    }
  }

  lemma CompleteMore(t: Tracked, t2: Tracked, key: RejectKey, peer: string, fed: set<Rejection>)
    requires Complete(t, fed) && t2.keysTruncated == t.keysTruncated
    requires t.groupsTruncated ==> t2.groupsTruncated
    requires forall r | IsListed(t, r) :: IsListed(t2, r)
    requires t2.groupsTruncated || IsListed(t2, Rejection(key, peer))
    ensures Complete(t2, fed + {Rejection(key, peer)})
  {
  }

  lemma DroppedKeeps(t: Tracked, limits: Limits, key: RejectKey, peer: string, fed: set<Rejection>)
    requires TrackedOk(t, limits, fed)
    ensures TrackedOk(t.(keysTruncated := true), limits, fed + {Rejection(key, peer)})
  {
    forall k | k in t.keyIndex
      ensures Rejected(fed + {Rejection(key, peer)}, k)
    {
      var n :| Rejection(k, n) in fed;
      assert Rejection(k, n) in fed + {Rejection(key, peer)};
    }
  }

  /** Once the key is tracked, listing the neighbor completes the rejection. */
  lemma ListNeighbor(t: Tracked, t1: Tracked, limits: Limits, key: RejectKey, peer: string, fed: set<Rejection>)
    requires Keyed(t, fed) && Complete(t, fed)
    requires Capped(t1, limits) && Indexed(t1) && Counted(t1) && Listed(t1, fed)
    requires t1.keysTruncated == t.keysTruncated && (t.groupsTruncated ==> t1.groupsTruncated)
    requires forall k :: k in t1.keyIndex <==> k in t.keyIndex || k == key
    requires forall r | IsListed(t, r) :: IsListed(t1, r)
    requires t1.keyIndex[key].Some?
    ensures TrackedOk(WithNeighbor(t1, limits, t1.keyIndex[key].value, peer), limits, fed + {Rejection(key, peer)})
  {
    var i := t1.keyIndex[key].value;
    var t2 := WithNeighbor(t1, limits, i, peer);
    WithNeighborCapped(t1, limits, i, peer);
    WithNeighborIndexed(t1, limits, i, peer);
    WithNeighborListed(t1, limits, i, peer, fed);
    KeyedMore(t, t2, key, peer, fed);
    CompleteMore(t, t2, key, peer, fed);
  }

  lemma CountOnly(t: Tracked, t1: Tracked, limits: Limits, key: RejectKey, peer: string, fed: set<Rejection>)
    requires Keyed(t, fed) && Complete(t, fed)
    requires Capped(t1, limits) && Indexed(t1) && Counted(t1) && Listed(t1, fed)
    requires t1.keysTruncated == t.keysTruncated && t1.groupsTruncated
    requires forall k :: k in t1.keyIndex <==> k in t.keyIndex || k == key
    ensures TrackedOk(t1, limits, fed + {Rejection(key, peer)})
  {
    KeyedMore(t, t1, key, peer, fed);
  }

  lemma TrackedReject(t: Tracked, t1: Tracked, limits: Limits, key: RejectKey, peer: string, fed: set<Rejection>)
    requires Keyed(t, fed) && Complete(t, fed)
    requires Capped(t1, limits) && Indexed(t1) && Counted(t1) && Listed(t1, fed)
    requires t1.keysTruncated == t.keysTruncated && (t.groupsTruncated ==> t1.groupsTruncated)
    requires forall k :: k in t1.keyIndex <==> k in t.keyIndex || k == key
    requires forall r | IsListed(t, r) :: IsListed(t1, r)
    ensures TrackedOk(NeighborOf(t1, limits, key, peer), limits, fed + {Rejection(key, peer)})
  {
    if t1.keyIndex[key].Some? {
      ListNeighbor(t, t1, limits, key, peer, fed);
    } else {
      CountOnly(t, t1, limits, key, peer, fed);
    }
  }

  /** One rejection keeps everything, with that rejection now among those fed. */
  lemma RejectKeeps(t: Tracked, limits: Limits, key: RejectKey, peer: string, fed: set<Rejection>)
    requires TrackedOk(t, limits, fed)
    ensures TrackedOk(Reject(t, limits, key, peer), limits, fed + {Rejection(key, peer)})
  {
    if key in t.keyIndex {
      TrackedReject(t, t, limits, key, peer, fed);
    } else if |t.keyIndex| < limits.maxTrackedKeys {
      WithKeyCapped(t, limits, key);
      WithKeyCounted(t, limits, key);
      WithKeyIndexed(t, limits, key);
      WithKeyListed(t, limits, key, fed);
      TrackedReject(t, WithKey(t, limits, key), limits, key, peer, fed);
    } else {
      DroppedKeeps(t, limits, key, peer, fed);
    }
  }

  lemma RejectOnce(t: Tracked, limits: Limits, key: RejectKey, peer: string)
    requires Once(t, peer)
    ensures Once(Reject(t, limits, key, peer), peer)
  {
    if key in t.keyIndex || |t.keyIndex| < limits.maxTrackedKeys {
      var t1 := if key in t.keyIndex then t else WithKey(t, limits, key);
      assert Once(t1, peer);
      if t1.keyIndex[key].Some? && t1.keyIndex[key].value < |t1.groups| {
        WithNeighborOnce(t1, limits, t1.keyIndex[key].value, peer);
      }
    }
  }
}
