/** Peers joining, blocking, unblocking, leaving the sync set and leaving the group. */
module Membership {
  import opened Types
  import opened PackingList
  import opened Advertised
  import opened GroupState
  import opened GroupInvariant
  import opened GroupProcessing
  import opened Distribution
  import opened DetachedPeer

  // ---------------------------------------------------------------- a deferred push completes

  lemma ResolvedServed(q: Peer, t: Table, pl: Packing)
    requires Served(q, t, pl) && q.inFlight != []
    ensures Served(Resolved(q), t, pl)
    ensures Resolved(q).inFlight == []
    ensures Resolved(q).debt <= q.debt && Resolved(q).owes <= q.owes
  {
    LandServed(q, t, pl);
  }

  lemma ResolveMembers(g: Group, p: PeerId)
    requires MembersOk(g) && p in g.peers && g.peers[p].inFlight != []
    requires Resolved(g.peers[p]).owes <= g.peers[p].owes
    ensures MembersOk(ResolvePush(g, p))
  {
    var h := ResolvePush(g, p);
    assert Versioned(h, h.detached) == Versioned(g, g.detached);
  }

  lemma ResolvedInSync(q: Peer, routes: Table, pl: Packing, isBlocked: bool, initialized: bool)
    requires SyncOk(q, routes, pl, isBlocked, initialized) && q.inFlight != []
    ensures SyncOk(Resolved(q), routes, pl, false, initialized)
    ensures Resolved(q).debt <= q.debt && Resolved(q).owes <= q.owes
  {
    ResolvedServed(q, routes, pl);
  }

  lemma LandFrame(q: Peer, m: Message)
    ensures
      var l := Land(q, m);
      && l.state == q.state && l.own == q.own && l.packing == q.packing && l.onRegistration == q.onRegistration
      && l.detachVersion == q.detachVersion && l.lastSeen == q.lastSeen
  {
  }

  lemma ResolvedShape(q: Peer, lastSeen: nat)
    requires DetachedShape(q, lastSeen) && q.inFlight != []
    ensures DetachedShape(Resolved(q).(inFlight := []), lastSeen)
    ensures Resolved(q).own == q.own && Resolved(q).detachVersion == q.detachVersion && Resolved(q).packing == q.packing
  {
    LandFrame(q, q.inFlight[0]);
  }

  lemma ResolvedDetached(q: Peer, routes: Table, lastSeen: nat)
    requires DetachedOk(q, routes, lastSeen) && q.inFlight != []
    ensures DetachedOk(Resolved(q), routes, lastSeen)
    ensures Resolved(q).debt <= q.debt && Resolved(q).owes <= q.owes
  {
    ResolvedServed(q, View(q.own, routes, q.detachVersion), q.packing);
    ResolvedShape(q, lastSeen);
    assert Resolved(q).(inFlight := []) == Resolved(q);
  }

  lemma ResolvedOk(g: Group, p: PeerId)
    requires SetsOk(g) && PeersOk(g) && p in g.peers && g.peers[p].inFlight != []
    ensures p in g.sync ==> SyncOk(Resolved(g.peers[p]), g.routes, g.packing, false, g.initialized)
    ensures p in g.detached ==> DetachedOk(Resolved(g.peers[p]), g.routes, g.lastSeen)
    ensures Resolved(g.peers[p]).debt <= g.peers[p].debt && Resolved(g.peers[p]).owes <= g.peers[p].owes
  {
    if p in g.sync {
      ResolvedInSync(g.peers[p], g.routes, g.packing, p in g.blocked, g.initialized);
    } else {
      ResolvedDetached(g.peers[p], g.routes, g.lastSeen);
    }
  }

  /** Peers other than the ones that changed stay as they were. */
  lemma OtherPeersOk(g: Group, h: Group, changed: set<PeerId>)
    requires SetsOk(g) && PeersOk(g)
    requires h.routes == g.routes && h.packing == g.packing && h.lastSeen == g.lastSeen && h.initialized == g.initialized
    requires forall p | p in h.peers && p !in changed :: p in g.peers && h.peers[p] == g.peers[p]
    requires forall p | p in h.peers && p !in changed ::
      (p in h.sync ==> p in g.sync) && (p in h.detached ==> p in g.detached) && (p in h.blocked <==> p in g.blocked)
    requires forall p | p in changed && p in h.peers && p in h.sync ::
      SyncOk(h.peers[p], h.routes, h.packing, p in h.blocked, h.initialized)
    requires forall p | p in changed && p in h.peers && p in h.detached :: DetachedOk(h.peers[p], h.routes, h.lastSeen)
    ensures PeersOk(h)
  {
    forall p | p in h.sync && p in h.peers
      ensures SyncOk(h.peers[p], h.routes, h.packing, p in h.blocked, h.initialized)
    {
      if p !in changed { assert SyncOk(g.peers[p], g.routes, g.packing, p in g.blocked, g.initialized); }
    }
    forall p | p in h.detached && p in h.peers
      ensures DetachedOk(h.peers[p], h.routes, h.lastSeen)
    {
      if p !in changed { assert DetachedOk(g.peers[p], g.routes, g.lastSeen); }
    }
  }

  lemma ResolvePeers(g: Group, p: PeerId)
    requires SetsOk(g) && PeersOk(g) && p in g.peers && g.peers[p].inFlight != []
    ensures PeersOk(ResolvePush(g, p))
  {
    ResolvedOk(g, p);
    OtherPeersOk(g, ResolvePush(g, p), {p});
  }

  lemma ResolvePushKeeps(g: Group, p: PeerId)
    requires Inv(g) && p in g.peers && g.peers[p].inFlight != []
    ensures Inv(ResolvePush(g, p))
  {
    ResolvedOk(g, p);
    ResolvePeers(g, p);
    ResolveMembers(g, p);
  }

  // ---------------------------------------------------------------- leaving the sync set

  lemma ClearKeeps(g: Group)
    requires MembersOk(g) && RoutesOk(g.routes, g.lastSeen) && BuilderOk(g) && PeersOk(g)
    requires WellPacked(g.packing) && Tracks(g.packing, g.routes)
    requires !g.initialized ==> g.routes == map[] && g.packing == map[]
    ensures Inv(RecoverIfNoSync(g))
  {
    TakeMembers(g, RecoverIfNoSync(g).packing);
  }

  lemma DetachMembers(g: Group, p: PeerId)
    requires MembersOk(g) && p in g.sync
    ensures MembersOk(LeftSync(g, p))
  {
    assert |g.sync| > 0;
    LeaveMembers(g, LeftSync(g, p), {p});
  }

  lemma DetachPeers(g: Group, p: PeerId)
    requires SetsOk(g) && PeersOk(g) && RoutesOk(g.routes, g.lastSeen) && p in g.sync
    ensures PeersOk(LeftSync(g, p))
  {
    assert SyncOk(g.peers[p], g.routes, g.packing, p in g.blocked, g.initialized);
    DetachedPeerOk(g, g.peers[p], g.initialized);
    OtherPeersOk(g, LeftSync(g, p), {p});
  }

  /** Detaching any in-sync peer, the last one included, keeps the invariant. */
  lemma DetachKeeps(g: Group, p: PeerId)
    requires Inv(g) && p in g.sync
    ensures Inv(Detach(g, p))
  {
    DetachMembers(g, p);
    DetachPeers(g, p);
    assert BuilderOk(LeftSync(g, p));
    ClearKeeps(LeftSync(g, p));
  }

  lemma DetachFrame(g: Group, p: PeerId)
    requires p in g.sync && p in g.peers
    ensures var h := Detach(g, p);
      && h.peers == g.peers[p := Detached(g, g.peers[p])]
      && h.routes == g.routes && h.detached == g.detached + {p}
  {
  }

  /** Detaching changes nobody's RIB-OUT, and leaves everyone owing exactly what they still owed. */
  lemma DetachInvisible(g: Group, p: PeerId, r: PeerId)
    requires SetsOk(g) && p in g.sync && r in g.peers
    requires g.peers[p].own == map[] && RoutesOk(g.routes, g.lastSeen)
    ensures TableOf(Detach(g, p), r) == TableOf(g, r)
    ensures Detach(g, p).peers[r].owes == g.peers[r].owes
  {
    DetachFrame(g, p);
    DetachView(g.routes, g.lastSeen);
  }

  // ---------------------------------------------------------------- registration

  lemma EmptyServed(state: PeerState, onRegistration: bool)
    ensures Served(FRESH_PEER.(state := state, onRegistration := onRegistration), map[], map[])
  {
    forall k ensures !Pending(map[], k) { }
  }

  lemma RegisterMembers(g: Group, p: PeerId)
    requires MembersOk(g) && p !in g.peers
    ensures MembersOk(Register(g, p))
  {
    if g.initialized { RegisterDetached(g, p); } else { RegisterInSync(g, p); }
  }

  lemma RegisterInSync(g: Group, p: PeerId)
    requires MembersOk(g) && p !in g.peers && !g.initialized
    ensures MembersOk(Register(g, p))
  {
    var h := Register(g, p);
    assert p !in g.sync && p !in g.detached;
    assert Versioned(h, h.detached) == Versioned(g, g.detached);
  }

  lemma RegisterDetached(g: Group, p: PeerId)
    requires MembersOk(g) && p !in g.peers && g.initialized
    ensures MembersOk(Register(g, p))
  {
    var h := Register(g, p);
    assert p !in g.sync && p !in g.detached;
    assert Versioned(h, h.detached) == Versioned(g, g.detached);
  }

  lemma NothingVisible(routes: Table)
    requires forall k | k in routes :: 0 < routes[k].version
    ensures View(map[], routes, 0) == map[]
  {
  }

  lemma RegisterPeers(g: Group, p: PeerId)
    requires SetsOk(g) && PeersOk(g) && RoutesOk(g.routes, g.lastSeen) && BuilderOk(g) && p !in g.peers
    requires !g.initialized ==> g.routes == map[] && g.packing == map[]
    ensures PeersOk(Register(g, p))
  {
    if g.initialized {
      EmptyServed(DetachedInitDump, true);
      NothingVisible(g.routes);
    } else {
      EmptyServed(Init, false);
    }
    OtherPeersOk(g, Register(g, p), {p});
  }

  lemma RegisterKeeps(g: Group, p: PeerId)
    requires Inv(g) && p !in g.peers
    ensures Inv(Register(g, p))
  {
    RegisterMembers(g, p);
    RegisterPeers(g, p);
    assert BuilderOk(Register(g, p));
  }

  // ---------------------------------------------------------------- leaving the group

  lemma WithoutVersioned(g: Group, p: PeerId)
    requires MembersOk(g) && p in g.peers && (p in g.sync ==> g.peers[p].detachVersion == 0)
    ensures |Versioned(Without(g, p), Without(g, p).detached)| == Without(g, p).numDetachedAfterJoin
  {
    var was := Versioned(g, g.detached);
    var now := Versioned(Without(g, p), Without(g, p).detached);
    if g.peers[p].detachVersion > 0 {
      assert p in was;
      assert now == was - {p};
    } else {
      assert now == was;
    }
  }

  lemma WithoutMembers(g: Group, p: PeerId)
    requires MembersOk(g) && p in g.peers && (p in g.sync ==> g.peers[p].detachVersion == 0)
    ensures MembersOk(Without(g, p))
  {
    WithoutVersioned(g, p);
    if p in g.sync { CardMinus(g.sync, {p}); }
  }

  lemma WithoutPeers(g: Group, p: PeerId)
    requires SetsOk(g) && PeersOk(g) && p in g.peers
    ensures PeersOk(Without(g, p))
  {
    OtherPeersOk(g, Without(g, p), {});
  }

  lemma UnregisterKeeps(g: Group, p: PeerId)
    requires Inv(g) && p in g.peers
    ensures Inv(Unregister(g, p))
  {
    if p in g.sync { assert SyncOk(g.peers[p], g.routes, g.packing, p in g.blocked, g.initialized); }
    WithoutMembers(g, p);
    WithoutPeers(g, p);
    assert BuilderOk(Without(g, p));
    ClearKeeps(Without(g, p));
  }

  // ---------------------------------------------------------------- the first walk

  lemma MarkOwedServed(q: Peer, t: Table, pl: Packing, families: set<Afi>, v: nat)
    requires SyncOk(q, t, pl, false, false)
    ensures SyncOk(MarkOwed(q, families, PendingKeys(pl)).(lastSeen := v), t, pl, false, true)
  {
    OwedServed(q, t, pl, families);
  }

  ghost predicate CanDump(g: Group, cs: seq<Change>, ribVersion: nat) {
    !g.initialized && Consumable(g, cs, Max(g.lastSeen, ribVersion))
  }

  lemma MarkMembers(g: Group)
    requires MembersOk(g) && g.eorPeers == {}
    ensures MembersOk(MarkAll(g))
  {
    var h := MarkAll(g);
    assert Versioned(h, h.detached) == Versioned(g, g.detached);
  }

  lemma MarkPeers(g: Group)
    requires SetsOk(g) && PeersOk(g) && g.blocked == {} && !g.initialized
    ensures PeersOk(MarkAll(g))
  {
    var h := MarkAll(g);
    forall r | r in h.sync && r in h.peers
      ensures SyncOk(h.peers[r], h.routes, h.packing, r in h.blocked, h.initialized)
    {
      assert SyncOk(g.peers[r], g.routes, g.packing, r in g.blocked, g.initialized);
      MarkOwedServed(g.peers[r], g.routes, g.packing, g.families, Max(g.peers[r].lastSeen, g.lastSeen));
    }
  }

  /** The first walk of the shadow RIB keeps the invariant. */
  lemma DumpKeeps(g: Group, cs: seq<Change>, ribVersion: nat)
    requires Inv(g) && CanDump(g, cs, ribVersion)
    ensures Inv(Dump(g, cs, ribVersion))
  {
    var h := Consume(g, cs, ribVersion);
    ConsumeCore(g, cs, ribVersion);
    MarkMembers(h);
    MarkPeers(h);
    assert BuilderOk(MarkAll(h));
  }
}
