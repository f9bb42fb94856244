/**
  Coming back: the collapse of a detached peer's RIB-OUT into the group's, the shortcut for
  a peer that drained before the group changed, and the promotion of a detached peer's
  RIB-OUT to the group's.
 */
module Rejoin {
  import opened Types
  import opened PackingList
  import opened Advertised
  import opened GroupState
  import opened GroupInvariant
  import opened Distribution
  import opened Membership

  // ---------------------------------------------------------------- corrections

  ghost predicate SamePosts(t: Table, u: Table) {
    forall k :: Post(t, k) == Post(u, k)
  }

  ghost predicate Positive(t: Table) {
    forall k | k in t :: 0 < t[k].version
  }

  /** No correction means the peer already shows the group's attributes; a correction names them. */
  lemma CorrectionSound(q: Peer, routes: Table, k: Key)
    requires Positive(routes) && (q.onRegistration ==> q.detachVersion == 0)
    ensures Correction(q, routes, k).None? ==> Post(View(q.own, routes, q.detachVersion), k) == Post(routes, k)
    ensures Correction(q, routes, k).Some? ==> Correction(q, routes, k).value == Post(routes, k)
  {
  }

  /** A peer is accepted only if it was showing exactly the group's attributes, at every route. */
  lemma AcceptedOnlyIfSame(q: Peer, routes: Table)
    requires Positive(routes) && (q.onRegistration ==> q.detachVersion == 0)
    requires Corrections(q, routes) == map[]
    ensures SamePosts(View(q.own, routes, q.detachVersion), routes)
  {
    forall k
      ensures Post(View(q.own, routes, q.detachVersion), k) == Post(routes, k)
    {
      CorrectionSound(q, routes, k);
      assert k in q.own.Keys + routes.Keys && Correction(q, routes, k).Some? ==> k in Corrections(q, routes);
    }
  }

  /**
    A correction that changes nothing: a denied entry only one side has, or a shared path at
    a prefix where the peer owns another path.
   */
  predicate Needless(q: Peer, routes: Table, k: Key) {
    || (k in q.own && k !in routes && q.own[k].post.None?)
    || (k in routes && k !in q.own && routes[k].post.None?
        && (q.onRegistration || routes[k].version > q.detachVersion || HasPrefix(q.own, k.prefix)))
    || (k in routes && IsEntryShared(k in q.own, q.detachVersion, routes[k].version) && HasPrefix(q.own, k.prefix))
  }

  lemma CorrectionIff(q: Peer, routes: Table, k: Key)
    requires Positive(routes) && (q.onRegistration ==> q.detachVersion == 0)
    ensures Correction(q, routes, k).None? <==>
      Post(View(q.own, routes, q.detachVersion), k) == Post(routes, k) && !Needless(q, routes, k)
  {
  }

  /** Showing the group's attributes is not enough to be accepted: no needless correction may arise. */
  lemma AcceptedIff(q: Peer, routes: Table)
    requires Positive(routes) && (q.onRegistration ==> q.detachVersion == 0)
    ensures Corrections(q, routes) == map[] <==>
      SamePosts(View(q.own, routes, q.detachVersion), routes) && forall k :: !Needless(q, routes, k)
  {
    var c := Corrections(q, routes);
    forall k
      ensures k in c <==> Correction(q, routes, k).Some?
    {
    }
    forall k
      ensures Correction(q, routes, k).None? <==>
        Post(View(q.own, routes, q.detachVersion), k) == Post(routes, k) && !Needless(q, routes, k)
    {
      CorrectionIff(q, routes, k);
    }
    assert c == map[] <==> forall k :: k !in c;
  }

  lemma PackCorrectionsAt(c: map<Key, Option<BgpPath>>)
    ensures forall k, b :: Under(PackCorrections(c), k, b) <==> k in c && b == BucketOf(k, c[k])
    ensures WellPacked(PackCorrections(c))
    ensures forall k :: Pending(PackCorrections(c), k) <==> k in c
  {
    var pl := PackCorrections(c);
    forall k, b
      ensures Under(pl, k, b) <==> k in c && b == BucketOf(k, c[k])
    {
      if k in c && b == BucketOf(k, c[k]) {
        assert b in BucketsOf(c);
        assert k in KeysIn(c, b);
      }
    }
    forall b | b in pl
      ensures pl[b] != {}
    {
      var k :| k in c && b == BucketOf(k, c[k]);
      assert k in KeysIn(c, b);
    }
    forall k | k in c
      ensures Pending(pl, k)
    {
      assert Under(pl, k, BucketOf(k, c[k]));
    }
  }

  /**
    A failed rejoin converges: what the peer was told, with the queued corrections on top,
    is exactly the group's routes.
   */
  lemma FailedConverges(q: Peer, routes: Table, sent: Received)
    requires Positive(routes) && (q.onRegistration ==> q.detachVersion == 0)
    requires Told(View(q.own, routes, q.detachVersion), map[], [], sent)
    ensures Told(routes, PackCorrections(Corrections(q, routes)), [], sent)
  {
    var view := View(q.own, routes, q.detachVersion);
    var c := Corrections(q, routes);
    PackCorrectionsAt(c);
    forall k
      ensures k in c ==> c[k] == Post(routes, k)
      ensures k !in c ==> Post(view, k) == Post(routes, k)
    {
      CorrectionSound(q, routes, k);
    }
    forall k
      ensures Holds(ReceiveAll(sent, []), k) == Post(view, k)
    {
      DrainedMeansTold(view, [], sent, k);
    }
  }

  // ---------------------------------------------------------------- one candidate

  ghost predicate Candidate(g: Group, p: PeerId) {
    && p in g.detached && p in g.peers
    && g.peers[p].state.DetachedReadyToJoin? && !g.peers[p].fast
    && g.peers[p].lastSeen == g.lastSeen
  }

  /** A peer waiting to rejoin has nothing to send and nothing in flight. */
  lemma ReadyIsDrained(q: Peer, routes: Table, lastSeen: nat)
    requires DetachedOk(q, routes, lastSeen) && q.state.DetachedReadyToJoin?
    ensures q.packing == map[] && q.inFlight == [] && q.debt == {}
  {
    forall k ensures !Pending(map[], k) { }
  }

  lemma CollapsedAccepted(g: Group, q: Peer)
    requires DetachedOk(q, g.routes, g.lastSeen) && q.state.DetachedReadyToJoin? && RoutesOk(g.routes, g.lastSeen)
    requires Corrections(q, g.routes) == map[]
    ensures SyncOk(Collapsed(g, q), g.routes, map[], false, true)
  {
    ReadyIsDrained(q, g.routes, g.lastSeen);
    AcceptedOnlyIfSame(q, g.routes);
    SamePostTold(View(q.own, g.routes, q.detachVersion), g.routes, map[], [], q.sent);
  }

  lemma CollapsedFailed(g: Group, q: Peer)
    requires DetachedOk(q, g.routes, g.lastSeen) && q.state.DetachedReadyToJoin? && RoutesOk(g.routes, g.lastSeen)
    requires q.lastSeen == g.lastSeen && Corrections(q, g.routes) != map[]
    ensures DetachedOk(Collapsed(g, q), g.routes, g.lastSeen)
    ensures View(Collapsed(g, q).own, g.routes, Collapsed(g, q).detachVersion) == g.routes
  {
    ReadyIsDrained(q, g.routes, g.lastSeen);
    FailedConverges(q, g.routes, q.sent);
    DetachView(g.routes, g.lastSeen);
  }

  /** The group's version is non-zero whenever a collapse finds something to correct. */
  lemma DiscrepancyHasVersion(g: Group, q: Peer)
    requires DetachedOk(q, g.routes, g.lastSeen) && RoutesOk(g.routes, g.lastSeen)
    requires q.lastSeen == g.lastSeen && Corrections(q, g.routes) != map[]
    ensures g.lastSeen > 0
  {
    var k :| k in Corrections(q, g.routes);
    assert k in q.own || k in g.routes;
  }

  // ---------------------------------------------------------------- a batch of candidates

  ghost predicate CanAccept(g: Group, candidates: set<PeerId>) {
    && g.initialized && g.packing == map[]
    && forall p | p in candidates :: Candidate(g, p)
  }

  /** What `h` has to do with `g` once the batch went through the collapse. */
  ghost predicate CollapsedTo(g: Group, candidates: set<PeerId>, h: Group) {
    && h.peers.Keys == g.peers.Keys
    && (forall p | p in g.peers :: h.peers[p] == if p in candidates then Collapsed(g, g.peers[p]) else g.peers[p])
    && h.sync == g.sync + Accepted(g, candidates) && h.detached == g.detached - Accepted(g, candidates)
    && h.blocked == g.blocked && h.routes == g.routes && h.packing == g.packing
    && h.lastSeen == g.lastSeen && h.initialized == g.initialized
  }

  lemma AcceptIsCollapse(g: Group, candidates: set<PeerId>)
    ensures CollapsedTo(g, candidates, Accept(g, candidates))
  {
  }

  lemma CollapsedFields(g: Group, q: Peer)
    ensures Collapsed(g, q).owes == q.owes && Collapsed(g, q).debt == q.debt
    ensures Corrections(q, g.routes) != map[] ==> Collapsed(g, q).detachVersion == g.lastSeen
  {
  }

  lemma RefusedVersions(g: Group, candidates: set<PeerId>, h: Group)
    requires PeersOk(g) && RoutesOk(g.routes, g.lastSeen) && CanAccept(g, candidates) && CollapsedTo(g, candidates, h)
    ensures forall p | p in candidates - Accepted(g, candidates) :: h.peers[p].detachVersion > 0
  {
    forall p | p in candidates - Accepted(g, candidates)
      ensures h.peers[p].detachVersion > 0
    {
      assert DetachedOk(g.peers[p], g.routes, g.lastSeen);
      DiscrepancyHasVersion(g, g.peers[p]);
    }
  }

  lemma CardSwap<T>(v: set<T>, left: set<T>, joined: set<T>, now: set<T>)
    requires forall x | x in left :: x in v
    requires forall x | x in joined :: x !in v
    requires forall x :: x in now <==> (x in v && x !in left) || x in joined
    ensures |now| == |v| - |left| + |joined| && |left| <= |v|
  {
    assert now == (v - left) + joined;
    CardMinus(v, left);
    CardUnion(v - left, joined);
  }

  lemma CollapseVersioned(g: Group, h: Group, candidates: set<PeerId>, ok: set<PeerId>)
    requires ok <= candidates <= g.detached <= g.peers.Keys
    requires h.peers.Keys == g.peers.Keys && h.detached == g.detached - ok
    requires forall p | p in g.detached && p !in candidates :: h.peers[p].detachVersion == g.peers[p].detachVersion
    requires forall p | p in candidates && p !in ok :: h.peers[p].detachVersion > 0
    ensures |Versioned(h, h.detached)| ==
      |Versioned(g, g.detached)| - |Versioned(g, ok)| + |(candidates - ok) - Versioned(g, candidates)|
    ensures |Versioned(g, ok)| <= |Versioned(g, g.detached)|
  {
    var v := Versioned(g, g.detached);
    var left, joined := Versioned(g, ok), (candidates - ok) - Versioned(g, candidates);
    forall p
      ensures p in left ==> p in v
      ensures p in joined ==> p !in v
      ensures p in Versioned(h, h.detached) <==> (p in v && p !in left) || p in joined
    {
    }
    CardSwap(v, left, joined, Versioned(h, h.detached));
  }

  lemma AcceptCounters(g: Group, candidates: set<PeerId>)
    requires MembersOk(g) && PeersOk(g) && RoutesOk(g.routes, g.lastSeen) && CanAccept(g, candidates)
    ensures CountersOk(Accept(g, candidates))
  {
    AcceptIsCollapse(g, candidates);
    RefusedVersions(g, candidates, Accept(g, candidates));
    CollapseVersioned(g, Accept(g, candidates), candidates, Accepted(g, candidates));
    CardUnion(g.sync, Accepted(g, candidates));
  }

  lemma CollapseSets(g: Group, candidates: set<PeerId>, h: Group)
    requires SetsOk(g) && CanAccept(g, candidates) && CollapsedTo(g, candidates, h)
    ensures SetsOk(h)
    ensures forall p | p in h.peers :: h.peers[p].owes == g.peers[p].owes
  {
    forall p | p in h.peers
      ensures h.peers[p].owes == g.peers[p].owes
    {
      CollapsedFields(g, g.peers[p]);
    }
    forall p | p in candidates ensures p in g.detached { assert Candidate(g, p); }
  }

  lemma AcceptSets(g: Group, candidates: set<PeerId>)
    requires SetsOk(g) && EorPeersOk(g) && CanAccept(g, candidates)
    ensures SetsOk(Accept(g, candidates)) && EorPeersOk(Accept(g, candidates))
  {
    AcceptIsCollapse(g, candidates);
    CollapseSets(g, candidates, Accept(g, candidates));
  }

  lemma CollapsedOk(g: Group, candidates: set<PeerId>, h: Group, p: PeerId)
    requires SetsOk(g) && PeersOk(g) && RoutesOk(g.routes, g.lastSeen) && CanAccept(g, candidates)
    requires CollapsedTo(g, candidates, h) && p in candidates
    ensures p in h.sync ==> SyncOk(h.peers[p], h.routes, h.packing, p in h.blocked, h.initialized)
    ensures p in h.detached ==> DetachedOk(h.peers[p], h.routes, h.lastSeen)
    ensures p in h.detached ==> TableOf(h, p) == g.routes
  {
    assert DetachedOk(g.peers[p], g.routes, g.lastSeen);
    if Corrections(g.peers[p], g.routes) == map[] {
      CollapsedAccepted(g, g.peers[p]);
    } else {
      CollapsedFailed(g, g.peers[p]);
    }
  }

  lemma CollapsePeers(g: Group, candidates: set<PeerId>, h: Group)
    requires SetsOk(g) && PeersOk(g) && RoutesOk(g.routes, g.lastSeen) && CanAccept(g, candidates)
    requires CollapsedTo(g, candidates, h)
    ensures PeersOk(h)
  {
    forall p | p in candidates
      ensures p in h.sync ==> SyncOk(h.peers[p], h.routes, h.packing, p in h.blocked, h.initialized)
      ensures p in h.detached ==> DetachedOk(h.peers[p], h.routes, h.lastSeen)
    {
      CollapsedOk(g, candidates, h, p);
    }
    OtherPeersOk(g, h, candidates);
  }

  lemma CollapseDebt(g: Group, candidates: set<PeerId>, h: Group)
    requires SetsOk(g) && PeersOk(g) && CanAccept(g, candidates) && CollapsedTo(g, candidates, h)
    ensures forall p | p in h.sync && p in h.peers :: h.peers[p].debt <= g.peers[p].debt
    ensures forall p | p in h.sync && p in h.peers && p !in g.sync :: h.peers[p].debt == {}
  {
    forall p | p in h.sync && p in h.peers
      ensures h.peers[p].debt == g.peers[p].debt
      ensures p !in g.sync ==> h.peers[p].debt == {}
    {
      CollapsedFields(g, g.peers[p]);
      if p !in g.sync { ReadyIsDrained(g.peers[p], g.routes, g.lastSeen); }
    }
  }

  lemma AcceptBuilder(g: Group, candidates: set<PeerId>)
    requires SetsOk(g) && PeersOk(g) && BuilderOk(g) && CanAccept(g, candidates)
    ensures BuilderOk(Accept(g, candidates))
  {
    AcceptIsCollapse(g, candidates);
    CollapseDebt(g, candidates, Accept(g, candidates));
  }

  /** Collapsing any batch of waiting peers keeps the invariant, whichever of them are accepted. */
  lemma AcceptKeeps(g: Group, candidates: set<PeerId>)
    requires Inv(g) && CanAccept(g, candidates)
    ensures Inv(Accept(g, candidates))
  {
    AcceptCounters(g, candidates);
    AcceptSets(g, candidates);
    AcceptBuilder(g, candidates);
    AcceptIsCollapse(g, candidates);
    CollapsePeers(g, candidates, Accept(g, candidates));
  }

  /**
    A candidate joins only with the group's attributes already shown, a refused one ends up
    with the group's routes as its RIB-OUT, and nobody else's RIB-OUT changes.
   */
  lemma AcceptTables(g: Group, candidates: set<PeerId>, h: Group, p: PeerId)
    requires SetsOk(g) && PeersOk(g) && RoutesOk(g.routes, g.lastSeen) && CanAccept(g, candidates) && p in g.peers
    requires h == Accept(g, candidates)
    ensures p in h.peers
    ensures p in candidates && p in h.sync ==> SamePosts(TableOf(g, p), g.routes)
    ensures p in candidates ==> TableOf(h, p) == g.routes
    ensures p !in candidates ==> TableOf(h, p) == TableOf(g, p)
  {
    AcceptIsCollapse(g, candidates);
    CollapseTables(g, candidates, h, p);
  }

  lemma CollapseTables(g: Group, candidates: set<PeerId>, h: Group, p: PeerId)
    requires SetsOk(g) && PeersOk(g) && RoutesOk(g.routes, g.lastSeen) && CanAccept(g, candidates) && p in g.peers
    requires CollapsedTo(g, candidates, h)
    ensures p in candidates && p in h.sync ==> SamePosts(TableOf(g, p), g.routes)
    ensures p in candidates ==> TableOf(h, p) == g.routes
    ensures p !in candidates ==> TableOf(h, p) == TableOf(g, p)
  {
    if p in candidates {
      CollapsedOk(g, candidates, h, p);
      if p in h.sync {
        assert DetachedOk(g.peers[p], g.routes, g.lastSeen);
        AcceptedOnlyIfSame(g.peers[p], g.routes);
      }
    }
  }

  // ---------------------------------------------------------------- one peer joins

  lemma JoinVersioned(g: Group, h: Group, p: PeerId)
    requires SetsOk(g) && p in g.detached && h.peers.Keys == g.peers.Keys && h.detached == g.detached - {p}
    requires forall r | r in h.detached :: h.peers[r].detachVersion == g.peers[r].detachVersion
    ensures |Versioned(h, h.detached)| + (if g.peers[p].detachVersion > 0 then 1 else 0) == |Versioned(g, g.detached)|
  {
    var was, now := Versioned(g, g.detached), Versioned(h, h.detached);
    forall r
      ensures r in now <==> r in was && r != p
    {
    }
    assert now == was - {p};
  }

  lemma JoinMembers(g: Group, h: Group, p: PeerId)
    requires MembersOk(g) && p in g.detached
    requires h.peers.Keys == g.peers.Keys && h.sync == g.sync + {p} && h.detached == g.detached - {p}
    requires h.blocked == g.blocked && EorPeersOk(h)
    requires forall r | r in h.detached :: h.peers[r].detachVersion == g.peers[r].detachVersion
    requires h.numInSync == g.numInSync + 1
    requires h.numDetachedAfterJoin ==
      if g.peers[p].detachVersion > 0 && g.numDetachedAfterJoin > 0
      then g.numDetachedAfterJoin - 1 else g.numDetachedAfterJoin
    ensures MembersOk(h)
  {
    JoinVersioned(g, h, p);
    assert p !in g.sync;
  }

  // ---------------------------------------------------------------- the fast rejoin

  /** The group's RIB-OUT is untouched since the peer detached. */
  predicate Untouched(q: Peer, routes: Table) {
    q.own == map[] && forall k | k in routes :: routes[k].version <= q.detachVersion
  }

  /** All the source asks for: the flag that was set when the peer began to wait. */
  ghost predicate MayFastRejoin(g: Group, p: PeerId) {
    && g.initialized && g.packing == map[]
    && p in g.detached && p in g.peers && g.peers[p].state.DetachedReadyToJoin? && g.peers[p].fast
  }

  ghost predicate CanFastRejoin(g: Group, p: PeerId) {
    MayFastRejoin(g, p) && Untouched(g.peers[p], g.routes)
  }

  /** Nothing the group advertises is newer than the peer's detach, and the peer has nothing of its own. */
  predicate NothingNewer(q: Peer, routes: Table) {
    q.own == map[] && forall k | k in routes && routes[k].post.Some? :: routes[k].version <= q.detachVersion
  }

  lemma FastRejoinSyncOk(q: Peer, routes: Table, lastSeen: nat)
    requires DetachedOk(q, routes, lastSeen) && q.state.DetachedReadyToJoin? && NothingNewer(q, routes)
    ensures SyncOk(Rejoined(q).(fast := false), routes, map[], false, true) && q.debt == {}
  {
    ReadyIsDrained(q, routes, lastSeen);
    SamePostTold(View(q.own, routes, q.detachVersion), routes, map[], [], q.sent);
  }

  lemma UntouchedView(q: Peer, routes: Table)
    requires Untouched(q, routes)
    ensures View(q.own, routes, q.detachVersion) == routes && NothingNewer(q, routes)
  {
  }

  lemma FastRejoinBuilder(g: Group, p: PeerId)
    requires BuilderOk(g) && SetsOk(g) && g.initialized && p in g.detached && g.peers[p].debt == {}
    ensures BuilderOk(FastRejoin(g, p))
  {
  }

  lemma FastRejoinShape(g: Group, p: PeerId)
    requires MembersOk(g) && BuilderOk(g) && g.initialized && p in g.detached && g.peers[p].debt == {}
    ensures MembersOk(FastRejoin(g, p)) && BuilderOk(FastRejoin(g, p))
  {
    FastRejoinBuilder(g, p);
    JoinMembers(g, FastRejoin(g, p), p);
  }

  lemma FastRejoinKeeps(g: Group, p: PeerId)
    requires Inv(g) && CanFastRejoin(g, p)
    ensures Inv(FastRejoin(g, p))
  {
    UntouchedView(g.peers[p], g.routes);
    NothingNewerKeeps(g, p);
  }

  lemma NothingNewerKeeps(g: Group, p: PeerId)
    requires Inv(g) && MayFastRejoin(g, p) && NothingNewer(g.peers[p], g.routes)
    ensures Inv(FastRejoin(g, p))
  {
    FastRejoinSyncOk(g.peers[p], g.routes, g.lastSeen);
    FastRejoinShape(g, p);
    OtherPeersOk(g, FastRejoin(g, p), {p});
  }

  lemma NewerUntold(q: Peer, routes: Table, lastSeen: nat)
    requires DetachedOk(q, routes, lastSeen) && q.state.DetachedReadyToJoin?
    requires SyncOk(Rejoined(q).(fast := false), routes, map[], false, true)
    ensures NothingNewer(q, routes)
  {
    ReadyIsDrained(q, routes, lastSeen);
    var view := View(q.own, routes, q.detachVersion);
    ToldTheSame(view, routes, q.sent);
    forall k | k in routes && routes[k].post.Some?
      ensures routes[k].version <= q.detachVersion
    {
      assert Post(view, k) == Post(routes, k);
    }
  }

  lemma ReturnedIs(g: Group, p: PeerId)
    requires SetsOk(g) && MayFastRejoin(g, p)
    ensures
      var h := FastRejoin(g, p);
      p in h.sync && p in h.peers && h.peers[p] == Rejoined(g.peers[p]).(fast := false) && h.routes == g.routes && h.packing == map[]
      && p !in h.blocked && h.initialized
  {
  }

  lemma NewerBreaks(g: Group, p: PeerId)
    requires Inv(g) && MayFastRejoin(g, p) && PeersOk(FastRejoin(g, p))
    ensures NothingNewer(g.peers[p], g.routes)
  {
    ReturnedIs(g, p);
    assert DetachedOk(g.peers[p], g.routes, g.lastSeen);
    NewerUntold(g.peers[p], g.routes, g.lastSeen);
  }

  lemma ToldTheSame(t: Table, u: Table, sent: Received)
    requires Told(t, map[], [], sent) && Told(u, map[], [], sent)
    ensures forall k :: Post(t, k) == Post(u, k)
  {
  }

  /**
    The shortcut, which checks nothing at the rejoin itself, keeps the invariant exactly when the
    peer owns nothing and the group advertises nothing newer than the peer's detach.
   */
  lemma FastRejoinKeepsIff(g: Group, p: PeerId)
    requires Inv(g) && MayFastRejoin(g, p)
    ensures Inv(FastRejoin(g, p)) <==> NothingNewer(g.peers[p], g.routes)
  {
    if NothingNewer(g.peers[p], g.routes) {
      NothingNewerKeeps(g, p);
    } else if Inv(FastRejoin(g, p)) {
      NewerBreaks(g, p);
    }
  }

  /** The guard of the shortcut: the group has seen nothing since the peer detached. */
  lemma FastPeerUntouched(g: Group, p: PeerId)
    requires Inv(g) && p in g.detached && p in g.peers
    requires g.peers[p].detachVersion == g.lastSeen && g.peers[p].own == map[]
    ensures Untouched(g.peers[p], g.routes)
  {
  }

  // ---------------------------------------------------------------- promotion

  ghost predicate CanPromote(g: Group, p: PeerId) {
    && g.initialized && g.sync == {} && g.numDetachedAfterJoin == 0
    && p in g.detached && p in g.peers && g.peers[p].state.DetachedReadyToJoin?
  }

  /** With a detach version of zero a peer sees its own entries only, whatever the group holds. */
  lemma OwnViewOnly(own: Table, routes: Table)
    requires Positive(routes)
    ensures View(own, routes, 0) == own
  {
  }

  lemma NobodyShares(g: Group, p: PeerId)
    requires MembersOk(g) && g.numDetachedAfterJoin == 0 && p in g.detached
    ensures g.peers[p].detachVersion == 0
  {
    assert Versioned(g, g.detached) == {};
    assert p in Versioned(g, g.detached) <==> g.peers[p].detachVersion > 0;
  }

  lemma PromotedSyncOk(q: Peer, routes: Table, lastSeen: nat)
    requires DetachedOk(q, routes, lastSeen) && q.state.DetachedReadyToJoin? && q.detachVersion == 0 && Positive(routes)
    ensures SyncOk(Rejoined(q).(own := map[]), q.own, map[], false, true)
    ensures q.debt == {}
  {
    ReadyIsDrained(q, routes, lastSeen);
    OwnViewOnly(q.own, routes);
  }

  lemma PromotionOthers(q: Peer, routes: Table, routes': Table, lastSeen: nat, lastSeen': nat)
    requires DetachedOk(q, routes, lastSeen) && q.detachVersion == 0 && lastSeen <= lastSeen'
    requires Positive(routes) && Positive(routes')
    ensures DetachedOk(q, routes', lastSeen')
    ensures View(q.own, routes', 0) == View(q.own, routes, 0)
  {
    OwnViewOnly(q.own, routes);
    OwnViewOnly(q.own, routes');
  }

  lemma PromotePeers(g: Group, p: PeerId)
    requires Inv(g) && CanPromote(g, p)
    ensures PeersOk(Promote(g, p))
    ensures Promote(g, p).peers[p].debt == {}
  {
    var h := Promote(g, p);
    NobodyShares(g, p);
    PromotedSyncOk(g.peers[p], g.routes, g.lastSeen);
    forall r | r in h.detached && r in h.peers
      ensures DetachedOk(h.peers[r], h.routes, h.lastSeen)
    {
      NobodyShares(g, r);
      PromotionOthers(g.peers[r], g.routes, h.routes, g.lastSeen, h.lastSeen);
    }
  }

  /** Promotion keeps the invariant. */
  lemma PromoteKeeps(g: Group, p: PeerId)
    requires Inv(g) && CanPromote(g, p)
    ensures Inv(Promote(g, p))
  {
    PromotePeers(g, p);
    JoinMembers(g, Promote(g, p), p);
    assert DetachedOk(g.peers[p], g.routes, g.lastSeen);
  }

  /** Promotion makes the group's RIB-OUT the peer's, and changes nobody's. */
  lemma PromoteTables(g: Group, p: PeerId)
    requires MembersOk(g) && Positive(g.routes) && CanPromote(g, p) && Positive(g.peers[p].own)
    ensures Promote(g, p).routes == TableOf(g, p)
    ensures Promote(g, p).peers.Keys == g.peers.Keys
    ensures forall r | r in g.peers :: TableOf(Promote(g, p), r) == TableOf(g, r)
  {
    NobodyShares(g, p);
    OwnViewOnly(g.peers[p].own, g.routes);
    forall r | r in g.peers
      ensures TableOf(Promote(g, p), r) == TableOf(g, r)
    {
      NobodyShares(g, r);
      OwnViewOnly(g.peers[r].own, g.routes);
      OwnViewOnly(g.peers[r].own, g.peers[p].own);
    }
  }
}
