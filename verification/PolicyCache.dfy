/**
  The policy cache.  Its keys are compared, and hashed, only on the attributes the policy is
  masked to, so one route's result is reused for others; what comes out must still be what
  running the policy on the route at hand would give.
 */
module PolicyCache {
  import opened Types

  /** Which attributes a policy matches or sets; `id` stands for the policy it belongs to. */
  datatype Mask = Mask(
    id: nat,
    prefix: bool,
    origin: bool,
    asPath: bool,
    nexthop: bool,
    med: bool,
    localPref: bool,
    atomicAggregate: bool,
    aggregator: bool,
    communities: bool,
    originatorId: bool,
    clusterList: bool,
    extCommunities: bool,
    weight: bool,
    backupAddr: bool)

  /** Action data; the two flags are outputs of the policy and not compared. */
  datatype ActionData = ActionData(core: nat, isMedSetByPolicy: bool, isNexthopSetByPolicy: bool)

  datatype CacheKey = CacheKey(
    mask: Option<Mask>,
    prefix: Prefix,
    path: Option<BgpPath>,
    action: Option<ActionData>,
    isPartialDrain: bool)

  // ---------------------------------------------------------------- equality

  predicate SameAction(a: Option<ActionData>, b: Option<ActionData>) {
    a == b || (a.Some? && b.Some? && a.value.core == b.value.core)
  }

  /** The two paths agree on every masked attribute. */
  predicate Agree(m: Mask, p: BgpPath, q: BgpPath) {
    && (m.origin ==> p.origin == q.origin)
    && (m.nexthop ==> p.nexthop == q.nexthop)
    && (m.med ==> p.med == q.med)
    && (m.weight ==> p.weight == q.weight)
    && (m.backupAddr ==> p.backupAddr == q.backupAddr)
    && (m.localPref ==> p.localPref == q.localPref)
    && (m.atomicAggregate ==> p.atomicAggregate == q.atomicAggregate)
    && (m.originatorId ==> p.originatorId == q.originatorId)
    && (m.aggregator ==> p.aggregator == q.aggregator)
    && (m.asPath ==> p.asPath == q.asPath)
    && (m.communities ==> p.communities == q.communities)
    && (m.clusterList ==> p.clusterList == q.clusterList)
    && (m.extCommunities ==> p.extCommunities == q.extCommunities)
  }

  predicate Equal(a: CacheKey, b: CacheKey) {
    && a.mask == b.mask
    && SameAction(a.action, b.action)
    && a.isPartialDrain == b.isPartialDrain
    && (a.mask.Some? ==>
          && (a.mask.value.prefix ==> a.prefix == b.prefix)
          && (a.path.Some? && b.path.Some? ==> Agree(a.mask.value, a.path.value, b.path.value)))
  }

  /** For keys with a path, the comparison is an equivalence. */
  lemma EqualIsEquivalence(a: CacheKey, b: CacheKey, c: CacheKey)
    requires a.path.Some? && b.path.Some? && c.path.Some?
    ensures Equal(a, a)
    ensures Equal(a, b) ==> Equal(b, a)
    ensures Equal(a, b) && Equal(b, c) ==> Equal(a, c)
  {
  }

  predicate MasksPath(m: Mask) {
    m.origin || m.nexthop || m.med || m.weight || m.backupAddr || m.localPref || m.atomicAggregate || m.originatorId
    || m.aggregator || m.asPath || m.communities || m.clusterList || m.extCommunities
  }

  /** A path and one that differs from it in every attribute. */
  function Zero(): BgpPath {
    BgpPath(0, [], 0, None, None, false, 0, [], 0, [], [], 0, None, 0)
  }

  function One(): BgpPath {
    BgpPath(1, [1], 1, Some(1), Some(1), true, 1, [1], 1, [1], [1], 1, Some(1), 1)
  }

  /**
    With a missing path the comparison stops being transitive, unless the mask selects no
    path attribute: a key without a path equals keys that differ from each other.
   */
  lemma TransitiveIff(mask: Option<Mask>)
    ensures (forall a: CacheKey, b: CacheKey, c: CacheKey | a.mask == mask && Equal(a, b) && Equal(b, c) :: Equal(a, c)) <==>
      (mask.None? || !MasksPath(mask.value))
  {
    if mask.Some? && MasksPath(mask.value) {
      var prefix := Prefix(true, 0, 0);
      var a, b, c := CacheKey(mask, prefix, Some(Zero()), None, false), CacheKey(mask, prefix, None, None, false),
                     CacheKey(mask, prefix, Some(One()), None, false);
      assert Equal(a, b) && Equal(b, c);
      assert !Agree(mask.value, Zero(), One());
    }
  }

  // ---------------------------------------------------------------- hash

  datatype Token =
    | MaskToken(m: Mask)
    | PrefixToken(p: Prefix)
    | NumberToken(n: nat)
    | MaybeToken(o: Option<nat>)
    | ListToken(s: seq<nat>)
    | BitToken(b: bool)

  function If(c: bool, t: Token): Option<Token> {
    if c then Some(t) else None
  }

  function Present(s: seq<Option<Token>>): seq<Token> {
    if s == [] then [] else (if s[0].Some? then [s[0].value] else []) + Present(s[1..])
  }

  function PathTokens(m: Mask, p: BgpPath): seq<Option<Token>> {
    [If(m.origin, NumberToken(p.origin)), If(m.nexthop, NumberToken(p.nexthop)), If(m.med, MaybeToken(p.med)),
     If(m.localPref, MaybeToken(p.localPref)), If(m.atomicAggregate, BitToken(p.atomicAggregate)),
     If(m.originatorId, NumberToken(p.originatorId)), If(m.aggregator, NumberToken(p.aggregator)),
     If(m.asPath, ListToken(p.asPath)), If(m.communities, ListToken(p.communities)),
     If(m.clusterList, ListToken(p.clusterList)), If(m.extCommunities, ListToken(p.extCommunities)),
     If(m.weight, NumberToken(p.weight)), If(m.backupAddr, MaybeToken(p.backupAddr))]
  }

  function Tail(k: CacheKey): seq<Token> {
    (if k.action.Some? then [NumberToken(k.action.value.core)] else []) + [BitToken(k.isPartialDrain)]
  }

  /** What is combined into the hash, in order; a missing path ends it early. */
  function HashInput(k: CacheKey): seq<Token> {
    if k.mask.None? then Tail(k)
    else
      var m := k.mask.value;
      var head := [MaskToken(m)] + (if m.prefix then [PrefixToken(k.prefix)] else []);
      if k.path.None? then head else head + Present(PathTokens(m, k.path.value)) + Tail(k)
  }

  lemma AgreeHash(m: Mask, p: BgpPath, q: BgpPath)
    requires Agree(m, p, q)
    ensures PathTokens(m, p) == PathTokens(m, q)
  {
  }

  /**
    Keys that compare equal hash alike exactly when both or neither have a path, or there is
    no mask: a key without a path leaves out what every other key puts in last.
   */
  lemma HashRespectsEqualIff(a: CacheKey, b: CacheKey)
    requires Equal(a, b)
    ensures HashInput(a) == HashInput(b) <==> (a.mask.None? || (a.path.Some? <==> b.path.Some?))
  {
    if a.mask.Some? && a.path.Some? && b.path.Some? {
      AgreeHash(a.mask.value, a.path.value, b.path.value);
    }
    assert |Tail(a)| > 0 && |Tail(b)| > 0;
  }

  // ---------------------------------------------------------------- overriding

  /** Take the masked attributes from the policy's result and the others from the route itself. */
  function Override(m: Mask, result: BgpPath, p: BgpPath): BgpPath {
    BgpPath(
      if m.origin then result.origin else p.origin,
      if m.asPath then result.asPath else p.asPath,
      if m.nexthop then result.nexthop else p.nexthop,
      if m.med then result.med else p.med,
      if m.localPref then result.localPref else p.localPref,
      if m.atomicAggregate then result.atomicAggregate else p.atomicAggregate,
      if m.aggregator then result.aggregator else p.aggregator,
      if m.communities then result.communities else p.communities,
      if m.originatorId then result.originatorId else p.originatorId,
      if m.clusterList then result.clusterList else p.clusterList,
      if m.extCommunities then result.extCommunities else p.extCommunities,
      if m.weight then result.weight else p.weight,
      if m.backupAddr then result.backupAddr else p.backupAddr,
      if m.extCommunities then result.topologyInfo else p.topologyInfo)
  }

  /** The outcome of running a policy: no attributes when the route is denied. */
  datatype Verdict = Verdict(attrs: Option<BgpPath>, isMedSetByPolicy: bool, isNexthopSetByPolicy: bool)

  /** A policy as a function of its mask, the route, the action data that is compared, and the drain bit. */
  type Policy = (Mask, Prefix, BgpPath, Option<nat>, bool) -> Verdict

  function Core(a: Option<ActionData>): Option<nat> {
    if a.Some? then Some(a.value.core) else None
  }

  function Fresh(policy: Policy, k: CacheKey): Verdict
    requires k.mask.Some? && k.path.Some?
  {
    var v := policy(k.mask.value, k.prefix, k.path.value, Core(k.action), k.isPartialDrain);
    if k.action.Some? then v else Verdict(v.attrs, false, false)
  }

  /** What the caller uses: the route's attributes overridden by the verdict's, and the two flags. */
  function Used(m: Mask, v: Verdict, p: BgpPath): Verdict {
    if v.attrs.Some? then v.(attrs := Some(Override(m, v.attrs.value, p))) else v
  }

  /** Topology information only depends on the extended communities. */
  predicate Coherent(m: Mask, p: BgpPath, q: BgpPath) {
    Agree(m, p, q) && (m.extCommunities ==> p.topologyInfo == q.topologyInfo)
  }

  /**
    The policy reads only what its mask selects: routes that agree there get the same
    denial, the same flags, and results that agree there.
   */
  ghost predicate ReadsMasked(policy: Policy) {
    forall m: Mask, x: Prefix, y: Prefix, p: BgpPath, q: BgpPath, c: Option<nat>, d: bool
        {:trigger policy(m, x, p, c, d), policy(m, y, q, c, d)} ::
      (m.prefix ==> x == y) && Agree(m, p, q) ==> Alike(m, policy(m, x, p, c, d), policy(m, y, q, c, d))
  }

  predicate Alike(m: Mask, v: Verdict, w: Verdict) {
    && v.isMedSetByPolicy == w.isMedSetByPolicy && v.isNexthopSetByPolicy == w.isNexthopSetByPolicy
    && (v.attrs.Some? <==> w.attrs.Some?)
    && (v.attrs.Some? && w.attrs.Some? ==> Coherent(m, v.attrs.value, w.attrs.value))
  }

  /** The policy writes only what its mask selects. */
  ghost predicate WritesMasked(policy: Policy) {
    forall m, x, p, c, d ::
      policy(m, x, p, c, d).attrs.Some? ==>
        Override(m, policy(m, x, p, c, d).attrs.value, p) == policy(m, x, p, c, d).attrs.value
  }

  lemma OverrideAgrees(m: Mask, a: BgpPath, b: BgpPath, p: BgpPath)
    requires Coherent(m, a, b)
    ensures Override(m, a, p) == Override(m, b, p)
  {
  }

  /** Whichever route filled the entry, a hit gives the overridden attributes and flags of a fresh run. */
  lemma HitIsFresh(policy: Policy, filled: CacheKey, asked: CacheKey)
    requires ReadsMasked(policy)
    requires filled.mask.Some? && filled.path.Some? && asked.mask.Some? && asked.path.Some?
    requires Equal(filled, asked)
    ensures Used(asked.mask.value, Fresh(policy, filled), asked.path.value)
      == Used(asked.mask.value, Fresh(policy, asked), asked.path.value)
  {
    var m := asked.mask.value;
    assert Core(filled.action) == Core(asked.action);
    var v := policy(m, filled.prefix, filled.path.value, Core(filled.action), filled.isPartialDrain);
    var w := policy(m, asked.prefix, asked.path.value, Core(asked.action), asked.isPartialDrain);
    assert Alike(m, v, w);
    if v.attrs.Some? {
      OverrideAgrees(m, v.attrs.value, w.attrs.value, asked.path.value);
    }
  }

  /** If the policy also writes only masked attributes, a fresh run's attributes need no overriding. */
  lemma FreshIsUsed(policy: Policy, k: CacheKey)
    requires WritesMasked(policy) && k.mask.Some? && k.path.Some?
    ensures Used(k.mask.value, Fresh(policy, k), k.path.value) == Fresh(policy, k)
  {
    var v := policy(k.mask.value, k.prefix, k.path.value, Core(k.action), k.isPartialDrain);
    assert v.attrs.Some? ==> Override(k.mask.value, v.attrs.value, k.path.value) == v.attrs.value;
  }

  // ---------------------------------------------------------------- the cache

  datatype Cached = Cached(key: CacheKey, verdict: Verdict)

  /** The verdict is what the policy said about some route whose key compares equal. */
  ghost predicate FilledBy(policy: Policy, e: Cached, filled: CacheKey) {
    filled.mask.Some? && filled.path.Some? && Equal(filled, e.key) && e.verdict == Fresh(policy, filled)
  }

  ghost predicate Faithful(policy: Policy, entries: seq<Cached>) {
    forall e | e in entries :: e.key.mask.Some? && e.key.path.Some? && exists filled :: FilledBy(policy, e, filled)
  }

  predicate NoTwoEqual(entries: seq<Cached>) {
    forall i, j | 0 <= i < j < |entries| :: !Equal(entries[i].key, entries[j].key) && !Equal(entries[j].key, entries[i].key)
  }

  /** The entry at `i` moved to the front. */
  function Promoted(entries: seq<Cached>, i: nat): seq<Cached>
    requires i < |entries|
  {
    [entries[i]] + entries[..i] + entries[i + 1..]
  }

  lemma PromotedKeeps(entries: seq<Cached>, i: nat)
    requires i < |entries| && NoTwoEqual(entries)
    ensures NoTwoEqual(Promoted(entries, i)) && multiset(Promoted(entries, i)) == multiset(entries)
    ensures forall e :: e in Promoted(entries, i) <==> e in entries
  {
    assert entries == entries[..i] + [entries[i]] + entries[i + 1..];
  }

  lemma EqualBothWays(a: CacheKey, b: CacheKey)
    ensures Equal(a, b) <==> Equal(b, a)
  {
  }

  /** The entries a full cache keeps when one more has to fit. */
  function Room(entries: seq<Cached>, maxSize: nat, clearSize: nat): seq<Cached> {
    if |entries| < maxSize then entries
    else if clearSize <= maxSize <= |entries| then entries[..maxSize - clearSize] else []
  }

  lemma AddedKeeps(policy: Policy, entries: seq<Cached>, k: CacheKey, v: Verdict, maxSize: nat, clearSize: nat)
    requires Faithful(policy, entries) && NoTwoEqual(entries) && forall j | 0 <= j < |entries| :: !Equal(entries[j].key, k)
    requires k.mask.Some? && k.path.Some? && v == Fresh(policy, k) && maxSize > 0 && clearSize > 0
    ensures
      var added := [Cached(k, v)] + Room(entries, maxSize, clearSize);
      Faithful(policy, added) && NoTwoEqual(added) && |added| <= maxSize
  {
    assert FilledBy(policy, Cached(k, v), k);
    forall e | e in entries
      ensures !Equal(e.key, k) && !Equal(k, e.key)
    {
      EqualBothWays(e.key, k);
    }
  }

  lemma KeptMore(entries: seq<Cached>, kept: seq<Cached>, i: nat)
    requires i < |entries| && NoTwoEqual(entries) && NoTwoEqual(kept) && forall e | e in kept :: e in entries[..i]
    ensures NoTwoEqual(kept + [entries[i]])
  {
    forall e | e in kept
      ensures !Equal(e.key, entries[i].key) && !Equal(entries[i].key, e.key)
    {
      var j :| 0 <= j < i && entries[..i][j] == e;
      assert entries[j] == e;
    }
  }

  /** The least recently used entry is the last one. */
  class LruPolicyCache {
    const policy: Policy
    const maxSize: nat
    const clearSize: nat
    var entries: seq<Cached>
    var hits: nat
    var misses: nat

    ghost predicate Valid()
      reads this
    {
      Faithful(policy, entries) && NoTwoEqual(entries) && |entries| <= maxSize && clearSize > 0
    }

    constructor (policy: Policy, maxSize: nat, clearSize: nat)
      ensures Valid() && this.policy == policy && entries == []
    {
      this.policy, this.maxSize, this.clearSize := policy, maxSize, if clearSize == 0 then 1 else clearSize;
      entries, hits, misses := [], 0, 0;
    }

    /** The first entry whose key compares equal, or the number of entries. */
    method Find(k: CacheKey) returns (i: nat)
      ensures i <= |entries| && (i < |entries| ==> Equal(entries[i].key, k))
      ensures forall j | 0 <= j < i :: !Equal(entries[j].key, k)
    {
      i := 0;
      while i < |entries| && !Equal(entries[i].key, k)
        invariant i <= |entries|
        invariant forall j | 0 <= j < i :: !Equal(entries[j].key, k)
      {
        i := i + 1;
      }
    }

    /** Find an entry whose key compares equal and make it the most recently used one. */
    method Lookup(k: CacheKey) returns (v: Option<Verdict>)
      requires Valid()
      modifies this
      ensures Valid()
      ensures v.Some? ==>
        exists i | 0 <= i < |old(entries)| ::
          Equal(old(entries)[i].key, k) && v.value == old(entries)[i].verdict && entries == Promoted(old(entries), i)
      ensures v.None? ==> entries == old(entries) && (maxSize == 0 || forall e | e in entries :: !Equal(e.key, k))
      ensures maxSize > 0 ==> (hits, misses) == if v.Some? then (old(hits) + 1, old(misses)) else (old(hits), old(misses) + 1)
    {
      if maxSize == 0 {
        return None;
      }
      var i := Find(k);
      if i == |entries| {
        misses := misses + 1;
        return None;
      }
      PromotedKeeps(entries, i);
      v := Some(entries[i].verdict);
      entries, hits := Promoted(entries, i), hits + 1;
    }

    /** Store a result: under the key that is already there, or as a new entry for which the oldest make room. */
    method Add(k: CacheKey, v: Verdict)
      requires Valid() && k.mask.Some? && k.path.Some? && v == Fresh(policy, k)
      modifies this`entries
      ensures Valid()
      ensures maxSize == 0 ==> entries == old(entries)
      ensures maxSize > 0 ==>
        || (exists i | 0 <= i < |old(entries)| ::
              Equal(old(entries)[i].key, k)
              && entries == Promoted(old(entries)[i := Cached(old(entries)[i].key, v)], i))
        || ((forall e | e in old(entries) :: !Equal(e.key, k))
            && entries == [Cached(k, v)] + Room(old(entries), maxSize, clearSize))
    {
      if maxSize == 0 {
        return;
      }
      var i := Find(k);
      if i < |entries| {
        EqualBothWays(entries[i].key, k);
        var updated := entries[i := Cached(entries[i].key, v)];
        assert FilledBy(policy, updated[i], k);
        PromotedKeeps(updated, i);
        entries := Promoted(updated, i);
      } else {
        AddedKeeps(policy, entries, k, v, maxSize, clearSize);
        entries := [Cached(k, v)] + Room(entries, maxSize, clearSize);
      }
    }

    /** Drop stale entries, at most `limit` of them. */
    method EvictStale(stale: set<CacheKey>, limit: nat)
      requires Valid()
      modifies this`entries
      ensures Valid()
      ensures forall e | e in entries :: e in old(entries)
      ensures forall e | e in old(entries) && e.key !in stale :: e in entries
      ensures |old(entries)| <= |entries| + limit
      ensures |old(entries)| == |entries| + limit || forall e | e in entries :: e.key !in stale
    {
      var kept: seq<Cached>, dropped := [], 0;
      for i := 0 to |entries|
        invariant |kept| + dropped == i && dropped <= limit && entries == old(entries)
        invariant forall e | e in kept :: e in entries[..i]
        invariant NoTwoEqual(kept)
        invariant forall j | 0 <= j < i && entries[j].key !in stale :: entries[j] in kept
        invariant dropped == limit || forall e | e in kept :: e.key !in stale
      {
        if entries[i].key in stale && dropped < limit {
          dropped := dropped + 1;
        } else {
          KeptMore(entries, kept, i);
          kept := kept + [entries[i]];
        }
      }
      entries := kept;
    }

    /** The attributes and flags for a route: from the cache if it can, else by running the policy. */
    method PostPolicyAttributes(k: CacheKey) returns (v: Verdict)
      requires Valid() && k.mask.Some? && k.path.Some? && ReadsMasked(policy) && WritesMasked(policy)
      modifies this
      ensures Valid()
      ensures v == Fresh(policy, k)
    {
      ghost var before := entries;
      var hit := Lookup(k);
      FreshIsUsed(policy, k);
      if hit.Some? {
        ghost var i :| 0 <= i < |before| && Equal(before[i].key, k) && hit.value == before[i].verdict;
        ghost var e := before[i];
        assert e in before;
        ghost var filled :| FilledBy(policy, e, filled);
        EqualIsEquivalence(filled, e.key, k);
        HitIsFresh(policy, filled, k);
        v := Used(k.mask.value, hit.value, k.path.value);
      } else {
        var result := Fresh(policy, k);
        Add(k, result);
        v := Used(k.mask.value, result, k.path.value);
      }
    }
  }
}
