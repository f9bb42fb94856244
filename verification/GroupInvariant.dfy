/**
  What every step of an update group keeps.  The heart is `Served`: for every member, what
  it was sent, then its one deferred push, then the packing list it is served from, spell
  out exactly the routes of its RIB-OUT.
 */
module GroupInvariant {
  import opened Types
  import opened PackingList
  import opened Advertised
  import opened GroupState

  ghost predicate InFlightKey(inFlight: seq<Message>, k: Key) {
    inFlight != [] && inFlight[0].Update? && k in inFlight[0].keys
  }

  /** One End-of-RIB per marking, and none in flight while a route of that marking is unsent. */
  ghost predicate EorOk(q: Peer) {
    && (forall a :: q.eorSent[a] + (if a in q.owes then 1 else 0) <= q.eorMarked[a])
    && (forall m | m in q.inFlight && m.EndOfRib? :: m.afi in q.owes && q.debt == {})
  }

  ghost predicate DebtOk(q: Peer, pl: Packing) {
    forall k | k in q.debt :: Pending(pl, k) || InFlightKey(q.inFlight, k)
  }

  ghost predicate Served(q: Peer, t: Table, pl: Packing) {
    && |q.inFlight| <= 1
    && Told(t, pl, q.inFlight, q.sent)
    && EorOk(q)
    && DebtOk(q, pl)
  }

  predicate IsDetached(s: PeerState) {
    s.DetachedInitDump? || s.DetachedReadyToJoin? || s.DetachedBlocked? || s.DetachedRunning?
  }

  predicate SyncShape(q: Peer, isBlocked: bool, initialized: bool) {
    && q.own == map[] && q.packing == map[]
    && q.detachVersion == 0 && !q.onRegistration
    && !IsDetached(q.state)
    && (isBlocked <==> q.inFlight != [])
    && (isBlocked <==> q.state.JoinedBlocked?)
    && (q.state.Init? ==> !initialized)
  }

  ghost predicate SyncOk(q: Peer, routes: Table, pl: Packing, isBlocked: bool, initialized: bool) {
    SyncShape(q, isBlocked, initialized) && Served(q, routes, pl)
  }

  predicate DetachedShape(q: Peer, lastSeen: nat) {
    && IsDetached(q.state)
    && (q.inFlight != [] ==> q.state.DetachedBlocked?)
    && (q.state.DetachedReadyToJoin? ==> q.packing == map[])
    && q.detachVersion <= lastSeen && q.detachVersion <= q.lastSeen
    && (q.onRegistration ==> q.detachVersion == 0)
    && (forall k | k in q.own :: 0 < q.own[k].version <= q.lastSeen)
  }

  ghost predicate DetachedOk(q: Peer, routes: Table, lastSeen: nat) {
    DetachedShape(q, lastSeen) && Served(q, View(q.own, routes, q.detachVersion), q.packing)
  }

  ghost predicate RoutesOk(routes: Table, bound: nat) {
    forall k | k in routes :: 0 < routes[k].version <= bound
  }

  /** The members are the in-sync peers and the disjoint detached peers; only in-sync peers block. */
  ghost predicate SetsOk(g: Group) {
    && (forall p :: p in g.peers <==> p in g.sync || p in g.detached)
    && g.sync !! g.detached
    && g.blocked <= g.sync
  }

  /** The peers with an End-of-RIB to be sent by the group are the in-sync peers that owe one. */
  ghost predicate EorPeersOk(g: Group) {
    forall p :: p in g.eorPeers <==> p in g.sync && p in g.peers && g.peers[p].owes != {}
  }

  ghost predicate CountersOk(g: Group) {
    && g.numInSync == |g.sync|
    && g.numDetachedAfterJoin == |Versioned(g, g.detached)|
  }

  ghost predicate MembersOk(g: Group) {
    SetsOk(g) && EorPeersOk(g) && CountersOk(g)
  }

  /** No push is issued while an earlier one is deferred. */
  ghost predicate BuilderOk(g: Group) {
    && (g.builder.At? ==> g.blocked == {})
    && (g.builder.Idle? ==> g.blocked == {} || g.checkForBlocked)
    && ((g.builder.At? || g.builder.Await?) && g.builder.phase.EorV6? ==>
          forall p | p in g.sync && p in g.peers :: g.peers[p].debt == {})
    && (!g.initialized ==> g.builder.Idle? && g.blocked == {} && g.eorPeers == {})
  }

  ghost predicate PeersOk(g: Group) {
    && (forall p | p in g.sync && p in g.peers ::
          SyncOk(g.peers[p], g.routes, g.packing, p in g.blocked, g.initialized))
    && (forall p | p in g.detached && p in g.peers :: DetachedOk(g.peers[p], g.routes, g.lastSeen))
  }

  /** The invariant while a batch of changes up to version `bound` is being consumed. */
  ghost predicate Core(g: Group, bound: nat) {
    && MembersOk(g)
    && RoutesOk(g.routes, bound)
    && WellPacked(g.packing) && Tracks(g.packing, g.routes)
    && (g.sync == {} ==> g.packing == map[])
    && BuilderOk(g)
    && PeersOk(g)
  }

  /** The invariant between steps. */
  ghost predicate Inv(g: Group) {
    Core(g, g.lastSeen) && (!g.initialized ==> g.routes == map[] && g.packing == map[])
  }

  /** Membership depends on the bitmaps, the counters, and what each peer owes and detached at. */
  lemma MembersFrame(g: Group, h: Group)
    requires MembersOk(g)
    requires h.peers.Keys == g.peers.Keys
    requires h.sync == g.sync && h.detached == g.detached && h.blocked == g.blocked && h.eorPeers == g.eorPeers
    requires h.numInSync == g.numInSync && h.numDetachedAfterJoin == g.numDetachedAfterJoin
    requires forall p | p in g.peers ::
      h.peers[p].owes == g.peers[p].owes && h.peers[p].detachVersion == g.peers[p].detachVersion
    ensures MembersOk(h)
  {
    assert Versioned(h, h.detached) == Versioned(g, g.detached);
  }

  lemma BuilderFrame(g: Group, h: Group)
    requires BuilderOk(g)
    requires h.blocked == g.blocked && h.builder == g.builder && h.checkForBlocked == g.checkForBlocked
    requires h.initialized == g.initialized && h.sync == g.sync && h.eorPeers == g.eorPeers
    requires forall p | p in g.sync && p in h.peers :: p in g.peers && h.peers[p].debt <= g.peers[p].debt
    ensures BuilderOk(h)
  {
  }

  function Fresh(families: set<Afi>): Group {
    Group(families, false, map[], 0, map[], map[], {}, {}, {}, {}, 0, 0, Idle, false, 0)
  }

  lemma FreshInv(families: set<Afi>)
    ensures Inv(Fresh(families))
  {
    var g := Fresh(families);
    assert Versioned(g, g.detached) == {};
  }
}
