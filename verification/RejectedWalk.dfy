/**
  Asking every matching neighbor which of its routes a policy rejected: each neighbor's own walk
  counts every rejection and lists up to a cap, and the accumulator gathers them neighbor by
  neighbor. A neighbor whose walk times out ends the walk of all that follow.
 */
module RejectedWalk {
  import opened Types
  import opened Sums
  import opened Rejections

  /** One route of a neighbor's RIB. */
  datatype Route = Route(key: RejectKey, rejected: bool, stale: bool, ipv4: bool)

  datatype Query = Query(
    excludeStale: bool,
    family: Option<bool>,
    prefixFilter: set<Prefix>,
    policyFilter: Option<string -> bool>,
    maxEntries: nat)

  datatype PeerRejections = PeerRejections(
    pathCountByPolicy: map<string, nat>,
    entries: seq<RejectKey>,
    truncated: bool)

  /** What became of the walk of one neighbor. */
  datatype Outcome = Walked(routes: seq<Route>) | Failed | TimedOut

  predicate Matches(r: Route, q: Query) {
    && r.rejected && !(q.excludeStale && r.stale)
    && (q.family.Some? ==> q.family.value == r.ipv4)
    && (q.prefixFilter != {} ==> r.key.prefix in q.prefixFilter)
    && (q.policyFilter.Some? ==> q.policyFilter.value(r.key.policy))
  }

  /** The rejections a query asks for, in order. */
  function Selected(routes: seq<Route>, q: Query): seq<RejectKey> {
    if routes == [] then []
    else
      var last := routes[|routes| - 1];
      Selected(routes[..|routes| - 1], q) + if Matches(last, q) then [last.key] else []
  }

  function CountOf(keys: seq<RejectKey>, policy: string): nat {
    if keys == [] then 0
    else CountOf(keys[..|keys| - 1], policy) + if keys[|keys| - 1].policy == policy then 1 else 0
  }

  lemma {:induction false} CountOfAppend(a: seq<RejectKey>, b: seq<RejectKey>, policy: string)
    ensures CountOf(a + b, policy) == CountOf(a, policy) + CountOf(b, policy)
  {
    if b == [] {
      assert a + b == a;
    } else {
      assert (a + b)[..|a + b| - 1] == a + b[..|b| - 1];
      CountOfAppend(a, b[..|b| - 1], policy);
    }
  }

  /** The map counts the paths of each policy, and no others. */
  ghost predicate Counts(m: map<string, nat>, keys: seq<RejectKey>) {
    forall policy :: AtKey(m, policy) == CountOf(keys, policy)
  }

  lemma CountsMore(m: map<string, nat>, keys: seq<RejectKey>, key: RejectKey)
    requires Counts(m, keys)
    ensures Counts(m[key.policy := AtKey(m, key.policy) + 1], keys + [key])
  {
    var more := m[key.policy := AtKey(m, key.policy) + 1];
    assert (keys + [key])[..|keys|] == keys;
    forall policy
      ensures AtKey(more, policy) == CountOf(keys + [key], policy)
    {
      assert AtKey(m, policy) == CountOf(keys, policy);
    }
  }

  lemma {:induction false} CountPositive(keys: seq<RejectKey>, policy: string)
    ensures CountOf(keys, policy) > 0 <==> exists k :: k in keys && k.policy == policy
  {
    if keys != [] {
      var n := |keys| - 1;
      CountPositive(keys[..n], policy);
      assert keys == keys[..n] + [keys[n]];
    }
  }

  lemma {:induction false} SumZero(m: map<string, nat>)
    requires forall policy | policy in m :: m[policy] == 0
    ensures Sum(m) == 0
    decreases m.Keys
  {
    if m != map[] {
      var policy :| policy in m;
      SumRemove(m, policy);
      assert (m - {policy}).Keys < m.Keys;
      SumZero(m - {policy});
    }
  }

  /** The counts of all policies add up to the number of paths. */
  lemma {:induction false} CountsAddUp(m: map<string, nat>, keys: seq<RejectKey>)
    requires Counts(m, keys)
    ensures Sum(m) == |keys|
    decreases |keys|
  {
    if keys == [] {
      forall policy | policy in m
        ensures m[policy] == 0
      {
        assert AtKey(m, policy) == CountOf(keys, policy);
      }
      SumZero(m);
    } else {
      var n := |keys| - 1;
      var policy := keys[n].policy;
      assert AtKey(m, policy) == CountOf(keys, policy);
      var fewer := m[policy := m[policy] - 1];
      forall other
        ensures AtKey(fewer, other) == CountOf(keys[..n], other)
      {
        assert AtKey(m, other) == CountOf(keys, other);
      }
      CountsAddUp(fewer, keys[..n]);
      SumUpdate(m, policy, m[policy] - 1);
    }
  }

  // ---------------------------------------------------------------- one neighbor

  /** Every selected rejection is counted, the first ones are listed up to the cap, and the rest is flagged. */
  ghost predicate Collected(p: PeerRejections, selected: seq<RejectKey>, maxEntries: nat) {
    && Counts(p.pathCountByPolicy, selected)
    && (forall policy | policy in p.pathCountByPolicy :: p.pathCountByPolicy[policy] > 0)
    && p.entries <= selected
    && (p.truncated <==> |selected| > maxEntries)
    && |p.entries| == if p.truncated then maxEntries else |selected|
  }

  method CollectRejected(routes: seq<Route>, q: Query) returns (p: PeerRejections)
    ensures Collected(p, Selected(routes, q), q.maxEntries)
  {
    p := PeerRejections(map[], [], false);
    for i := 0 to |routes|
      invariant Collected(p, Selected(routes[..i], q), q.maxEntries)
    {
      ghost var before := Selected(routes[..i], q);
      assert routes[..i + 1][..i] == routes[..i];
      var key := routes[i].key;
      if Matches(routes[i], q) {
        assert Selected(routes[..i + 1], q) == before + [key];
        CountsMore(p.pathCountByPolicy, before, key);
        p := p.(pathCountByPolicy := p.pathCountByPolicy[key.policy := AtKey(p.pathCountByPolicy, key.policy) + 1]);
        if |p.entries| >= q.maxEntries {
          p := p.(truncated := true);
        } else {
          p := p.(entries := p.entries + [key]);
        }
      } else {
        assert Selected(routes[..i + 1], q) == before;
      }
    }
    assert routes[..|routes|] == routes;
  }

  // ---------------------------------------------------------------- the whole walk

  /** What one neighbor rejected, as rejections by that neighbor. */
  ghost function By(peer: string, keys: seq<RejectKey>): set<Rejection> {
    set k | k in keys :: Rejection(k, peer)
  }

  /** The rejections of a neighbor whose walk completed. */
  ghost function Of(o: Outcome, q: Query): seq<RejectKey> {
    if o.Walked? then Selected(o.routes, q) else []
  }

  ghost function AllPaths(outcomes: seq<Outcome>, q: Query): seq<RejectKey> {
    if outcomes == [] then []
    else AllPaths(outcomes[..|outcomes| - 1], q) + Of(outcomes[|outcomes| - 1], q)
  }

  ghost function AllBy(peers: seq<string>, outcomes: seq<Outcome>, q: Query): set<Rejection>
    requires |peers| == |outcomes|
  {
    if peers == [] then {}
    else
      var n := |peers| - 1;
      AllBy(peers[..n], outcomes[..n], q) + By(peers[n], Of(outcomes[n], q))
  }

  ghost function Completed(outcomes: seq<Outcome>): nat {
    if outcomes == [] then 0
    else Completed(outcomes[..|outcomes| - 1]) + if outcomes[|outcomes| - 1].Walked? then 1 else 0
  }

  function Rejecting(m: map<string, set<string>>, policy: string): set<string> {
    if policy in m then m[policy] else {}
  }

  /** Each policy's neighbor count is the size of its neighbor set. */
  ghost predicate NeighborsCounted(counts: map<string, nat>, peers: map<string, set<string>>) {
    forall policy :: AtKey(counts, policy) == |Rejecting(peers, policy)|
  }

  ghost predicate HasPolicy(fed: set<Rejection>, policy: string, n: string) {
    exists k :: Rejection(k, n) in fed && k.policy == policy
  }

  /** Each policy's neighbor set holds exactly the neighbors it rejected a path of. */
  ghost predicate NeighborsExact(peers: map<string, set<string>>, fed: set<Rejection>) {
    forall policy, n :: n in Rejecting(peers, policy) <==> HasPolicy(fed, policy, n)
  }

  lemma SumBump(m: map<string, nat>, policy: string, count: nat)
    ensures Sum(m[policy := AtKey(m, policy) + count]) == Sum(m) + count
  {
    if policy in m {
      SumUpdate(m, policy, m[policy] + count);
    } else {
      SumAdd(m, policy, count);
    }
  }

  lemma NeighborsBump(counts: map<string, nat>, peers: map<string, set<string>>, policy: string, peer: string)
    requires NeighborsCounted(counts, peers)
    ensures
      var known := Rejecting(peers, policy);
      NeighborsCounted(
        if peer in known then counts else counts[policy := AtKey(counts, policy) + 1],
        peers[policy := known + {peer}])
  {
    var known := Rejecting(peers, policy);
    var peers1 := peers[policy := known + {peer}];
    var counts1 := if peer in known then counts else counts[policy := AtKey(counts, policy) + 1];
    assert peer in known ==> known + {peer} == known;
    forall other
      ensures AtKey(counts1, other) == |Rejecting(peers1, other)|
    {
      assert AtKey(counts, other) == |Rejecting(peers, other)|;
    }
  }

  /** The counts of the policies no longer in `rest` were added to `before`. */
  ghost predicate Merged(now: map<string, nat>, before: map<string, nat>, m: map<string, nat>, rest: set<string>) {
    forall policy :: AtKey(now, policy) == AtKey(before, policy) + if policy in rest then 0 else AtKey(m, policy)
  }

  ghost predicate Joined(
    now: map<string, set<string>>, before: map<string, set<string>>, peer: string, policies: set<string>)
  {
    forall policy, n ::
      n in Rejecting(now, policy) <==> n in Rejecting(before, policy) || (n == peer && policy in policies)
  }

  lemma MergedNext(
    now: map<string, nat>, before: map<string, nat>, m: map<string, nat>, rest: set<string>, policy: string)
    requires Merged(now, before, m, rest) && policy in rest && policy in m
    ensures Merged(now[policy := AtKey(now, policy) + m[policy]], before, m, rest - {policy})
  {
    var next := now[policy := AtKey(now, policy) + m[policy]];
    forall other
      ensures AtKey(next, other) == AtKey(before, other) + if other in rest - {policy} then 0 else AtKey(m, other)
    {
      assert AtKey(now, other) == AtKey(before, other) + if other in rest then 0 else AtKey(m, other);
    }
  }

  lemma JoinedNext(
    now: map<string, set<string>>, before: map<string, set<string>>, peer: string, policies: set<string>, policy: string)
    requires Joined(now, before, peer, policies)
    ensures Joined(now[policy := Rejecting(now, policy) + {peer}], before, peer, policies + {policy})
  {
    var next := now[policy := Rejecting(now, policy) + {peer}];
    forall other, n
      ensures n in Rejecting(next, other)
        <==> n in Rejecting(before, other) || (n == peer && other in policies + {policy})
    {
      assert n in Rejecting(now, other) <==> n in Rejecting(before, other) || (n == peer && other in policies);
    }
  }

  /** One rejection after another by the same neighbor. */
  function RejectAll(t: Tracked, limits: Limits, entries: seq<RejectKey>, peer: string): Tracked {
    if entries == [] then t
    else
      var n := |entries| - 1;
      Reject(RejectAll(t, limits, entries[..n], peer), limits, entries[n], peer)
  }

  lemma ByMore(fed: set<Rejection>, peer: string, entries: seq<RejectKey>)
    requires entries != []
    ensures
      var n := |entries| - 1;
      fed + By(peer, entries) == fed + By(peer, entries[..n]) + {Rejection(entries[n], peer)}
  {
    var n := |entries| - 1;
    assert entries == entries[..n] + [entries[n]];
  }

  lemma {:induction false} RejectAllKeeps(
    t: Tracked, limits: Limits, entries: seq<RejectKey>, peer: string, fed: set<Rejection>)
    requires TrackedOk(t, limits, fed)
    ensures TrackedOk(RejectAll(t, limits, entries, peer), limits, fed + By(peer, entries))
  {
    if entries == [] {
      assert fed + By(peer, []) == fed;
    } else {
      var n := |entries| - 1;
      RejectAllKeeps(t, limits, entries[..n], peer, fed);
      RejectKeeps(RejectAll(t, limits, entries[..n], peer), limits, entries[n], peer, fed + By(peer, entries[..n]));
      ByMore(fed, peer, entries);
    }
  }

  lemma {:induction false} RejectAllOnce(t: Tracked, limits: Limits, entries: seq<RejectKey>, peer: string)
    requires Once(t, peer)
    ensures Once(RejectAll(t, limits, entries, peer), peer)
  {
    if entries != [] {
      var n := |entries| - 1;
      RejectAllOnce(t, limits, entries[..n], peer);
      RejectOnce(RejectAll(t, limits, entries[..n], peer), limits, entries[n], peer);
    }
  }

  /** What a neighbor listed, marked incomplete when it counted more than it listed. */
  function Fed(t: Tracked, limits: Limits, p: PeerRejections, peer: string): Tracked {
    var t1 := RejectAll(t, limits, p.entries, peer);
    if p.truncated then t1.(keysTruncated := true) else t1
  }

  lemma UnlistedKeeps(t: Tracked, limits: Limits, fed: set<Rejection>, more: set<Rejection>)
    requires TrackedOk(t, limits, fed) && fed <= more
    ensures TrackedOk(t.(keysTruncated := true), limits, more)
  {
    forall k | k in t.keyIndex
      ensures Rejected(more, k)
    {
      var n :| Rejection(k, n) in fed;
      assert Rejection(k, n) in more;
    }
  }

  lemma FedKeeps(
    t: Tracked, limits: Limits, p: PeerRejections, peer: string, keys: seq<RejectKey>, fed: set<Rejection>)
    requires TrackedOk(t, limits, fed)
    requires p.entries <= keys && (p.truncated || p.entries == keys)
    ensures TrackedOk(Fed(t, limits, p, peer), limits, fed + By(peer, keys))
  {
    var t1 := RejectAll(t, limits, p.entries, peer);
    RejectAllKeeps(t, limits, p.entries, peer, fed);
    if p.truncated {
      UnlistedKeeps(t1, limits, fed + By(peer, p.entries), fed + By(peer, keys));
    }
  }

  ghost predicate Among(fed: set<Rejection>, peers: seq<string>) {
    forall r | r in fed :: r.neighbor in peers
  }

  /** A neighbor not fed before is listed nowhere, so it can be listed last. */
  lemma FedOnce(
    t: Tracked, limits: Limits, p: PeerRejections, was: string, peer: string, peers: seq<string>, fed: set<Rejection>)
    requires Once(t, was) && Listed(t, fed) && Among(fed, peers) && peer !in peers
    ensures Once(Fed(t, limits, p, peer), peer)
  {
    forall i | 0 <= i < |t.groups|
      ensures OnceIn(t.groups[i], peer)
    {
      assert OnceIn(t.groups[i], was);
      forall n | n in t.groups[i].neighbors
        ensures n in peers
      {
        assert Rejection(t.groups[i].key, n) in fed;
      }
    }
    RejectAllOnce(t, limits, p.entries, peer);
  }

  lemma CountsMerged(
    now: map<string, nat>, before: map<string, nat>, m: map<string, nat>, paths: seq<RejectKey>, keys: seq<RejectKey>)
    requires Counts(before, paths) && Counts(m, keys) && Merged(now, before, m, {})
    ensures Counts(now, paths + keys)
  {
    forall policy
      ensures AtKey(now, policy) == CountOf(paths + keys, policy)
    {
      CountOfAppend(paths, keys, policy);
      assert AtKey(before, policy) == CountOf(paths, policy) && AtKey(m, policy) == CountOf(keys, policy);
    }
  }

  lemma HasPolicyMore(fed: set<Rejection>, peer: string, keys: seq<RejectKey>, policy: string, n: string)
    ensures HasPolicy(fed + By(peer, keys), policy, n)
      <==> HasPolicy(fed, policy, n) || (n == peer && CountOf(keys, policy) > 0)
  {
    CountPositive(keys, policy);
    if HasPolicy(fed, policy, n) {
      var k :| Rejection(k, n) in fed && k.policy == policy;
      assert Rejection(k, n) in fed + By(peer, keys);
    }
    if n == peer && CountOf(keys, policy) > 0 {
      var k :| k in keys && k.policy == policy;
      assert Rejection(k, n) in fed + By(peer, keys);
    }
  }

  lemma ExactJoined(
    now: map<string, set<string>>, before: map<string, set<string>>, peer: string, m: map<string, nat>,
    keys: seq<RejectKey>, fed: set<Rejection>)
    requires NeighborsExact(before, fed) && Joined(now, before, peer, m.Keys)
    requires Counts(m, keys) && forall policy | policy in m :: m[policy] > 0
    ensures NeighborsExact(now, fed + By(peer, keys))
  {
    forall policy, n
      ensures n in Rejecting(now, policy) <==> HasPolicy(fed + By(peer, keys), policy, n)
    {
      HasPolicyMore(fed, peer, keys, policy, n);
      assert AtKey(m, policy) == CountOf(keys, policy);
      assert n in Rejecting(before, policy) <==> HasPolicy(fed, policy, n);
    }
  }

  /** The gathered rejections as a value. */
  datatype Gathering = Gathering(
    tracked: Tracked,
    peer: string,
    pathCount: map<string, nat>,
    neighborCount: map<string, nat>,
    policyPeers: map<string, set<string>>,
    totalPaths: nat)
  {
    ghost predicate Totalled() {
      Sum(pathCount) == totalPaths && NeighborsCounted(neighborCount, policyPeers)
    }
  }

  ghost predicate Reports(s: Gathering, s1: Gathering, limits: Limits, addr: string, p: PeerRejections) {
    && s1.peer == addr && s1.tracked == Fed(s.tracked, limits, p, addr)
    && Merged(s1.pathCount, s.pathCount, p.pathCountByPolicy, {})
    && Joined(s1.policyPeers, s.policyPeers, addr, p.pathCountByPolicy.Keys)
    && s1.Totalled()
  }

  ghost predicate Asked(s: Gathering, s1: Gathering, limits: Limits, addr: string, o: Outcome, q: Query) {
    if o.Walked? then
      exists p :: Collected(p, Selected(o.routes, q), q.maxEntries) && Reports(s, s1, limits, addr, p)
    else s1 == s
  }

  /** The states a walk of these neighbors can end in. */
  ghost predicate Reaches(limits: Limits, peers: seq<string>, outcomes: seq<Outcome>, s: Gathering, q: Query)
    requires |peers| == |outcomes|
  {
    if peers == [] then s == Gathering(Tracked(map[], [], map[], 0, false, false), "", map[], map[], map[], 0)
    else
      var n := |peers| - 1;
      exists s0 :: Reaches(limits, peers[..n], outcomes[..n], s0, q) && Asked(s0, s, limits, peers[n], outcomes[n], q)
  }

  class RejectedNetworksAccumulator {
    const limits: Limits
    var tracked: Tracked
    var peer: string
    var pathCount: map<string, nat>
    var neighborCount: map<string, nat>
    var policyPeers: map<string, set<string>>
    var totalPaths: nat
    var peersFailed: nat

    constructor (limits: Limits, ghost q: Query)
      ensures this.limits == limits && peersFailed == 0 && Reaches(limits, [], [], Abs(), q) && Abs().Totalled()
    {
      this.limits := limits;
      tracked := Tracked(map[], [], map[], 0, false, false);
      peer := "";
      pathCount, neighborCount, policyPeers := map[], map[], map[];
      totalPaths, peersFailed := 0, 0;
    }

    ghost function Abs(): Gathering
      reads this
    {
      Gathering(tracked, peer, pathCount, neighborCount, policyPeers, totalPaths)
    }

    method AddRejectedPaths(policy: string, count: nat)
      requires NeighborsCounted(neighborCount, policyPeers)
      modifies this`pathCount, this`neighborCount, this`policyPeers, this`totalPaths
      ensures NeighborsCounted(neighborCount, policyPeers)
      ensures pathCount == old(pathCount)[policy := AtKey(old(pathCount), policy) + count]
      ensures policyPeers == old(policyPeers)[policy := Rejecting(old(policyPeers), policy) + {peer}]
      ensures totalPaths == old(totalPaths) + count
      ensures Sum(pathCount) == Sum(old(pathCount)) + count
    {
      SumBump(pathCount, policy, count);
      NeighborsBump(neighborCount, policyPeers, policy, peer);
      totalPaths := totalPaths + count;
      pathCount := pathCount[policy := AtKey(pathCount, policy) + count];
      var known := Rejecting(policyPeers, policy);
      if peer !in known {
        neighborCount := neighborCount[policy := AtKey(neighborCount, policy) + 1];
      }
      policyPeers := policyPeers[policy := known + {peer}];
    }

    method AddRejectedPrefix(key: RejectKey)
      modifies this`tracked
      ensures tracked == Reject(old(tracked), limits, key, peer)
    {
      if key !in tracked.keyIndex {
        if |tracked.keyIndex| >= limits.maxTrackedKeys {
          tracked := tracked.(keysTruncated := true);
          return;
        }
        tracked := WithKey(tracked, limits, key);
      }
      if tracked.keyIndex[key].Some? && tracked.keyIndex[key].value < |tracked.groups| {
        tracked := WithNeighbor(tracked, limits, tracked.keyIndex[key].value, peer);
      }
    }

    /** The counts of the policies outside `rest` were added, and everything is still counted. */
    ghost predicate Added(paths: map<string, nat>, peers: map<string, set<string>>, m: map<string, nat>, rest: set<string>)
      reads this
    {
      && NeighborsCounted(neighborCount, policyPeers) && Sum(pathCount) == totalPaths
      && Merged(pathCount, paths, m, rest) && Joined(policyPeers, peers, peer, m.Keys - rest)
    }

    method AddPolicy(m: map<string, nat>, ghost rest: set<string>, policy: string,
                     ghost paths: map<string, nat>, ghost peers: map<string, set<string>>)
      requires policy in rest && rest <= m.Keys && Added(paths, peers, m, rest)
      modifies this`pathCount, this`neighborCount, this`policyPeers, this`totalPaths
      ensures Added(paths, peers, m, rest - {policy})
    {
      assert m.Keys - (rest - {policy}) == m.Keys - rest + {policy};
      MergedNext(pathCount, paths, m, rest, policy);
      JoinedNext(policyPeers, peers, peer, m.Keys - rest, policy);
      AddRejectedPaths(policy, m[policy]);
    }

    /** The neighbor's path counts, policy by policy. */
    method AddPathCounts(m: map<string, nat>)
      requires NeighborsCounted(neighborCount, policyPeers) && Sum(pathCount) == totalPaths
      modifies this`pathCount, this`neighborCount, this`policyPeers, this`totalPaths
      ensures NeighborsCounted(neighborCount, policyPeers) && Sum(pathCount) == totalPaths
      ensures Merged(pathCount, old(pathCount), m, {})
      ensures Joined(policyPeers, old(policyPeers), peer, m.Keys)
    {
      var rest := m.Keys;
      while rest != {}
        invariant rest <= m.Keys && Added(old(pathCount), old(policyPeers), m, rest)
      {
        var policy :| policy in rest;
        AddPolicy(m, rest, policy, old(pathCount), old(policyPeers));
        rest := rest - {policy};
      }
      assert m.Keys - {} == m.Keys;
    }

    /** The neighbor's listed rejections, one by one. */
    method AddEntries(entries: seq<RejectKey>)
      modifies this`tracked
      ensures tracked == RejectAll(old(tracked), limits, entries, peer)
    {
      for i := 0 to |entries|
        invariant tracked == RejectAll(old(tracked), limits, entries[..i], peer)
      {
        assert entries[..i + 1][..i] == entries[..i];
        AddRejectedPrefix(entries[i]);
      }
      assert entries[..|entries|] == entries;
    }

    /** Everything one neighbor reported, attributed to it. */
    method AddPeer(addr: string, p: PeerRejections)
      requires Abs().Totalled()
      modifies this`tracked, this`peer, this`pathCount, this`neighborCount, this`policyPeers, this`totalPaths
      ensures Reports(old(Abs()), Abs(), limits, addr, p)
    {
      peer := addr;
      AddPathCounts(p.pathCountByPolicy);
      AddEntries(p.entries);
      if p.truncated {
        tracked := tracked.(keysTruncated := true);
      }
    }
  }

  lemma OneMore(peers: seq<string>, outcomes: seq<Outcome>, addr: string, o: Outcome, q: Query)
    requires |peers| == |outcomes|
    ensures AllPaths(outcomes + [o], q) == AllPaths(outcomes, q) + Of(o, q)
    ensures AllBy(peers + [addr], outcomes + [o], q) == AllBy(peers, outcomes, q) + By(addr, Of(o, q))
    ensures Completed(outcomes + [o]) == Completed(outcomes) + if o.Walked? then 1 else 0
    ensures Among(AllBy(peers, outcomes, q), peers) ==> Among(AllBy(peers + [addr], outcomes + [o], q), peers + [addr])
    ensures NoDuplicates(peers + [addr]) ==> NoDuplicates(peers) && addr !in peers
  {
    var n := |peers|;
    assert (peers + [addr])[..n] == peers && (outcomes + [o])[..n] == outcomes;
    if NoDuplicates(peers + [addr]) {
      forall i, j | 0 <= i < j < n
        ensures peers[i] != peers[j]
      {
        assert (peers + [addr])[i] != (peers + [addr])[j];
      }
      forall i | 0 <= i < n
        ensures peers[i] != addr
      {
        assert (peers + [addr])[i] != (peers + [addr])[n];
      }
    }
  }

  /** What was gathered is exactly what the neighbors walked so far rejected. */
  ghost predicate Exact(s: Gathering, limits: Limits, peers: seq<string>, outcomes: seq<Outcome>, q: Query)
    requires |peers| == |outcomes|
  {
    var fed := AllBy(peers, outcomes, q);
    && TrackedOk(s.tracked, limits, fed)
    && Counts(s.pathCount, AllPaths(outcomes, q)) && s.Totalled()
    && NeighborsExact(s.policyPeers, fed)
    && Among(fed, peers)
    && (NoDuplicates(peers) ==> Once(s.tracked, s.peer))
  }

  lemma ExactNext(
    s: Gathering, s1: Gathering, limits: Limits, peers: seq<string>, outcomes: seq<Outcome>, q: Query,
    addr: string, routes: seq<Route>, p: PeerRejections)
    requires |peers| == |outcomes| && Exact(s, limits, peers, outcomes, q)
    requires Collected(p, Selected(routes, q), q.maxEntries) && Reports(s, s1, limits, addr, p)
    ensures Exact(s1, limits, peers + [addr], outcomes + [Walked(routes)], q)
  {
    var keys, fed := Selected(routes, q), AllBy(peers, outcomes, q);
    OneMore(peers, outcomes, addr, Walked(routes), q);
    FedKeeps(s.tracked, limits, p, addr, keys, fed);
    CountsMerged(s1.pathCount, s.pathCount, p.pathCountByPolicy, AllPaths(outcomes, q), keys);
    ExactJoined(s1.policyPeers, s.policyPeers, addr, p.pathCountByPolicy, keys, fed);
    if NoDuplicates(peers + [addr]) {
      FedOnce(s.tracked, limits, p, s.peer, addr, peers, fed);
    }
  }

  /** A failed walk contributes nothing. */
  lemma ExactFailed(
    s: Gathering, limits: Limits, peers: seq<string>, outcomes: seq<Outcome>, q: Query, addr: string, o: Outcome)
    requires |peers| == |outcomes| && !o.Walked? && Exact(s, limits, peers, outcomes, q)
    ensures Exact(s, limits, peers + [addr], outcomes + [o], q)
  {
    OneMore(peers, outcomes, addr, o, q);
    assert AllPaths(outcomes + [o], q) == AllPaths(outcomes, q);
    assert AllBy(peers + [addr], outcomes + [o], q) == AllBy(peers, outcomes, q);
  }

  lemma ExactAsked(
    s: Gathering, s1: Gathering, limits: Limits, ps: seq<string>, os: seq<Outcome>, q: Query, addr: string, o: Outcome,
    peers: seq<string>, outcomes: seq<Outcome>)
    requires |ps| == |os| && peers == ps + [addr] && outcomes == os + [o]
    requires Exact(s, limits, ps, os, q) && Asked(s, s1, limits, addr, o, q)
    ensures Exact(s1, limits, peers, outcomes, q)
  {
    match o
    case Walked(routes) =>
      var p :| Collected(p, Selected(routes, q), q.maxEntries) && Reports(s, s1, limits, addr, p);
      ExactNext(s, s1, limits, ps, os, q, addr, routes, p);
    case _ =>
      ExactFailed(s, limits, ps, os, q, addr, o);
  }

  lemma ExactStart(limits: Limits, s: Gathering, q: Query)
    requires Reaches(limits, [], [], s, q)
    ensures Exact(s, limits, [], [], q)
  {
  }

  /** Whatever order a walk merged policies in, it gathered exactly what was rejected. */
  lemma {:induction false} WalkExact(
    limits: Limits, peers: seq<string>, outcomes: seq<Outcome>, s: Gathering, q: Query)
    requires |peers| == |outcomes| && Reaches(limits, peers, outcomes, s, q)
    ensures Exact(s, limits, peers, outcomes, q)
  {
    if peers == [] {
      ExactStart(limits, s, q);
    } else {
      var n := |peers| - 1;
      assert peers == peers[..n] + [peers[n]] && outcomes == outcomes[..n] + [outcomes[n]];
      var s0 :| Reaches(limits, peers[..n], outcomes[..n], s0, q) && Asked(s0, s, limits, peers[n], outcomes[n], q);
      WalkExact(limits, peers[..n], outcomes[..n], s0, q);
      ExactAsked(s0, s, limits, peers[..n], outcomes[..n], q, peers[n], outcomes[n], peers, outcomes);
    }
  }

  method AskPeer(a: RejectedNetworksAccumulator, addr: string, o: Outcome, q: Query)
    requires a.Abs().Totalled()
    modifies a
    ensures Asked(old(a.Abs()), a.Abs(), a.limits, addr, o, q) && a.Abs().Totalled()
    ensures a.peersFailed == old(a.peersFailed) + if o.Walked? then 0 else 1
  {
    match o
    case Walked(routes) =>
      var p := CollectRejected(routes, q);
      a.AddPeer(addr, p);
    case _ =>
      a.peersFailed := a.peersFailed + 1;
  }

  /** The first `n` neighbors were asked, `failed` of them in vain. */
  ghost predicate AskedUpTo(
    limits: Limits, peers: seq<string>, outcomes: seq<Outcome>, n: nat, s: Gathering, failed: nat, q: Query)
    requires |peers| == |outcomes|
  {
    && n <= |peers| && (forall i | 0 <= i < n :: !outcomes[i].TimedOut?)
    && Reaches(limits, peers[..n], outcomes[..n], s, q)
    && failed + Completed(outcomes[..n]) == n
  }

  lemma AskedNext(
    limits: Limits, peers: seq<string>, outcomes: seq<Outcome>, n: nat, s: Gathering, s1: Gathering, failed: nat, q: Query)
    requires |peers| == |outcomes| && n < |peers| && AskedUpTo(limits, peers, outcomes, n, s, failed, q)
    requires Asked(s, s1, limits, peers[n], outcomes[n], q) && !outcomes[n].TimedOut?
    ensures
      AskedUpTo(limits, peers, outcomes, n + 1, s1, failed + if outcomes[n].Walked? then 0 else 1, q)
  {
    var ps, os := peers[..n + 1], outcomes[..n + 1];
    assert ps[..n] == peers[..n] && os[..n] == outcomes[..n];
    assert Reaches(limits, ps[..n], os[..n], s, q) && Asked(s, s1, limits, ps[n], os[n], q);
    assert Reaches(limits, ps, os, s1, q);
  }

  /**
    The neighbors are asked in turn. A failure skips the neighbor, a timeout abandons it and every
    later one, and either way every neighbor is accounted for as walked or failed.
   */
  method WalkRejectedNetworkPeers(limits: Limits, peers: seq<string>, outcomes: seq<Outcome>, q: Query)
    returns (a: RejectedNetworksAccumulator, reached: nat)
    requires |peers| == |outcomes|
    ensures reached <= |peers| && (reached < |peers| ==> outcomes[reached].TimedOut?)
    ensures |peers| - reached <= a.peersFailed && a.peersFailed + Completed(outcomes[..reached]) == |peers|
    ensures AskedUpTo(limits, peers, outcomes, reached, a.Abs(), a.peersFailed - (|peers| - reached), q)
  {
    a := new RejectedNetworksAccumulator(limits, q);
    reached := 0;
    while reached < |peers| && !outcomes[reached].TimedOut?
      invariant fresh(a) && a.limits == limits && a.Abs().Totalled()
      invariant AskedUpTo(limits, peers, outcomes, reached, a.Abs(), a.peersFailed, q)
    {
      ghost var s, failed := a.Abs(), a.peersFailed;
      AskPeer(a, peers[reached], outcomes[reached], q);
      AskedNext(limits, peers, outcomes, reached, s, a.Abs(), failed, q);
      reached := reached + 1;
    }
    a.peersFailed := a.peersFailed + (|peers| - reached);
  }

  /** The keys some neighbor rejected. */
  ghost function KeysIn(fed: set<Rejection>): set<RejectKey> {
    set r | r in fed :: r.key
  }

  /**
    Path totals are always exact. Prefix counts never exceed the truth and are exact unless keys
    were truncated. Untruncated details list exactly the rejections, and when the neighbors are
    distinct no group repeats one.
   */
  lemma Reported(limits: Limits, peers: seq<string>, outcomes: seq<Outcome>, a: Gathering, q: Query)
    requires |peers| == |outcomes| && Reaches(limits, peers, outcomes, a, q)
    ensures
      var t, fed := a.tracked, AllBy(peers, outcomes, q);
      && a.totalPaths == Sum(a.pathCount) == |AllPaths(outcomes, q)|
      && (forall policy :: AtKey(a.pathCount, policy) == CountOf(AllPaths(outcomes, q), policy))
      && NeighborsCounted(a.neighborCount, a.policyPeers) && NeighborsExact(a.policyPeers, fed)
      && Capped(t, limits)
      && (forall policy :: AtKey(t.prefixCount, policy) <= |KeysOf(KeysIn(fed), policy)|)
      && (!t.keysTruncated ==> forall policy :: AtKey(t.prefixCount, policy) == |KeysOf(KeysIn(fed), policy)|)
      && (!t.keysTruncated && !t.groupsTruncated ==> forall r :: r in fed <==> IsListed(t, r))
      && (NoDuplicates(peers) ==> forall g | g in t.groups :: NoDuplicates(g.neighbors))
  {
    var t, fed := a.tracked, AllBy(peers, outcomes, q);
    WalkExact(limits, peers, outcomes, a, q);
    CountsAddUp(a.pathCount, AllPaths(outcomes, q));
    assert t.keyIndex.Keys <= KeysIn(fed) by {
      forall k | k in t.keyIndex
        ensures k in KeysIn(fed)
      {
        assert Rejected(fed, k);
        var n :| Rejection(k, n) in fed;
        assert Rejection(k, n).key == k;
      }
    }
    assert !t.keysTruncated ==> t.keyIndex.Keys == KeysIn(fed);
    forall policy
      ensures AtKey(t.prefixCount, policy) <= |KeysOf(KeysIn(fed), policy)|
    {
      assert AtKey(t.prefixCount, policy) == |KeysOf(t.keyIndex.Keys, policy)|;
      SubsetCard(KeysOf(t.keyIndex.Keys, policy), KeysOf(KeysIn(fed), policy));
    }
  }
}
