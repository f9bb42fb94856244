/**
  Draining the group's packing list: UPDATEs and End-of-RIB markers are pushed to the
  in-sync peers, some pushes are deferred, and slow peers are detached on the way.
 */
module Distribution {
  import opened Types
  import opened PackingList
  import opened Advertised
  import opened GroupState
  import opened GroupInvariant

  // ---------------------------------------------------------------- one peer

  /** A peer with nothing in flight stays served whether its UPDATE lands or is deferred. */
  lemma PushUpdateServed(q: Peer, t: Table, pl: Packing, b: Bucket, keys: set<Key>)
    requires Served(q, t, pl) && q.inFlight == [] && b in pl && keys <= pl[b]
    ensures Served(Land(q, Update(b.attrs, keys)), t, TakeFrom(pl, b, keys))
    ensures Served(q.(inFlight := q.inFlight + [Update(b.attrs, keys)]), t, TakeFrom(pl, b, keys))
  {
    var m := Update(b.attrs, keys);
    SendTold(t, pl, b, keys, q.inFlight, q.sent);
    assert [] + [m] == [m] && [m][1..] == [];
    LandTold(t, TakeFrom(pl, b, keys), [m], q.sent);
    TakeFromAt(pl, b, keys);
  }

  lemma PushEndOfRibServed(q: Peer, t: Table, pl: Packing, afi: Afi)
    requires Served(q, t, pl) && q.inFlight == [] && afi in q.owes && q.debt == {}
    ensures Served(Land(q, EndOfRib(afi)), t, pl)
    ensures Served(q.(inFlight := q.inFlight + [EndOfRib(afi)]), t, pl)
  {
    EndOfRibTold(t, pl, afi, q.inFlight, q.sent);
  }

  lemma LandDebt(q: Peer, pl: Packing)
    requires EorOk(q) && DebtOk(q, pl) && |q.inFlight| == 1
    ensures
      var landed := Land(q, q.inFlight[0]).(inFlight := []);
      EorOk(landed) && DebtOk(landed, pl)
  {
  }

  /** The deferred push reaching the queue. */
  lemma LandServed(q: Peer, t: Table, pl: Packing)
    requires Served(q, t, pl) && q.inFlight != []
    ensures Served(Land(q, q.inFlight[0]).(inFlight := q.inFlight[1..]), t, pl)
  {
    LandTold(t, pl, q.inFlight, q.sent);
    LandDebt(q, pl);
    assert q.inFlight[1..] == [];
  }

  /** A peer that leaves the sync set sees exactly the group's routes of that moment. */
  lemma DetachView(routes: Table, lastSeen: nat)
    requires RoutesOk(routes, lastSeen)
    ensures View(map[], routes, lastSeen) == routes
  {
  }

  lemma DetachedPeerOk(g: Group, q: Peer, initialized: bool)
    requires SyncShape(q, q.inFlight != [], initialized) && Served(q, g.routes, g.packing)
    requires RoutesOk(g.routes, g.lastSeen)
    ensures DetachedOk(Detached(g, q), g.routes, g.lastSeen)
  {
    DetachView(g.routes, g.lastSeen);
  }

  // ---------------------------------------------------------------- membership

  lemma CardMinus<T>(a: set<T>, b: set<T>)
    requires b <= a
    ensures |a - b| == |a| - |b|
  {
    assert a == (a - b) + b;
  }

  lemma CardUnion<T>(a: set<T>, b: set<T>)
    requires a !! b
    ensures |a + b| == |a| + |b|
  {
  }

  ghost predicate PushArgs(g: Group, targets: set<PeerId>, stuck: set<PeerId>, slow: set<PeerId>) {
    slow <= stuck <= targets <= g.sync && (slow == {} || g.sync - slow != {})
  }

  /** Membership after a set of in-sync peers moved to the detached side. */
  lemma LeaveVersioned(g: Group, h: Group, leaving: set<PeerId>)
    requires MembersOk(g) && leaving <= g.sync
    requires h.peers.Keys == g.peers.Keys && h.detached == g.detached + leaving
    requires forall p | p in g.detached :: h.peers[p].detachVersion == g.peers[p].detachVersion
    requires forall p | p in leaving :: h.peers[p].detachVersion == g.lastSeen
    ensures |Versioned(h, h.detached)| == |Versioned(g, g.detached)| + (if g.lastSeen != 0 then |leaving| else 0)
  {
    var was := Versioned(g, g.detached);
    assert was !! leaving;
    if g.lastSeen != 0 {
      assert Versioned(h, h.detached) == was + leaving;
      CardUnion(was, leaving);
    } else {
      assert Versioned(h, h.detached) == was;
    }
  }

  lemma LeaveMembers(g: Group, h: Group, leaving: set<PeerId>)
    requires MembersOk(g) && leaving <= g.sync
    requires h.peers.Keys == g.peers.Keys
    requires h.sync == g.sync - leaving && h.detached == g.detached + leaving && h.blocked <= h.sync
    requires forall p | p in g.detached :: h.peers[p].detachVersion == g.peers[p].detachVersion
    requires forall p | p in leaving :: h.peers[p].detachVersion == g.lastSeen
    requires EorPeersOk(h)
    requires h.numInSync == g.numInSync - |leaving|
    requires h.numDetachedAfterJoin == g.numDetachedAfterJoin + (if g.lastSeen != 0 then |leaving| else 0)
    ensures MembersOk(h)
  {
    LeaveVersioned(g, h, leaving);
    CardMinus(g.sync, leaving);
  }

  lemma PushedFrame(g: Group, q: Peer, m: Message, stuck: bool, slow: bool)
    ensures Pushed(g, q, m, stuck, slow).owes <= q.owes
    ensures Pushed(g, q, m, stuck, slow).debt <= q.debt
    ensures Pushed(g, q, m, stuck, slow).detachVersion == if stuck && slow then g.lastSeen else q.detachVersion
  {
  }

  lemma PushEorPeers(g: Group, m: Message, targets: set<PeerId>, stuck: set<PeerId>, slow: set<PeerId>)
    requires EorPeersOk(g)
    ensures EorPeersOk(Push(g, m, targets, stuck, slow))
  {
    var h := Push(g, m, targets, stuck, slow);
    forall p | p in g.peers
      ensures h.peers[p].owes <= g.peers[p].owes
    {
      PushedFrame(g, g.peers[p], m, p in stuck, p in slow);
    }
  }

  lemma PushMembers(g: Group, m: Message, targets: set<PeerId>, stuck: set<PeerId>, slow: set<PeerId>)
    requires MembersOk(g) && PushArgs(g, targets, stuck, slow)
    ensures MembersOk(Push(g, m, targets, stuck, slow))
  {
    var h := Push(g, m, targets, stuck, slow);
    forall p | p in g.peers
      ensures h.peers[p].detachVersion == if p in slow then g.lastSeen else g.peers[p].detachVersion
    {
      PushedFrame(g, g.peers[p], m, p in stuck, p in slow);
    }
    PushEorPeers(g, m, targets, stuck, slow);
    CardMinus(g.sync, slow);
    LeaveMembers(g, h, slow);
  }

  /** The three outcomes of a push to a peer with nothing in flight. */
  lemma PushedOk(g: Group, q: Peer, m: Message, stuck: bool, slow: bool)
    requires RoutesOk(g.routes, g.lastSeen) && SyncShape(q, false, true)
    requires Served(Land(q, m), g.routes, g.packing)
    requires Served(q.(inFlight := q.inFlight + [m]), g.routes, g.packing)
    ensures stuck && slow ==> DetachedOk(Pushed(g, q, m, stuck, slow), g.routes, g.lastSeen)
    ensures !(stuck && slow) ==> SyncOk(Pushed(g, q, m, stuck, slow), g.routes, g.packing, stuck, true)
  {
    if stuck && slow {
      DetachedPeerOk(g, q.(state := JoinedBlocked, inFlight := q.inFlight + [m]), true);
    }
  }

  ghost predicate PushReady(g: Group, m: Message, targets: set<PeerId>) {
    && (forall p | p in g.sync && p in g.peers :: SyncShape(g.peers[p], false, true))
    && (forall p | p in targets && p in g.peers ::
          && Served(Land(g.peers[p], m), g.routes, g.packing)
          && Served(g.peers[p].(inFlight := g.peers[p].inFlight + [m]), g.routes, g.packing))
    && (forall p | p in g.sync && p in g.peers && p !in targets :: Served(g.peers[p], g.routes, g.packing))
    && (forall p | p in g.detached && p in g.peers :: DetachedOk(g.peers[p], g.routes, g.lastSeen))
  }

  /** Every push keeps the peers served, given that it does so one peer at a time. */
  lemma PushPeersOk(g: Group, m: Message, targets: set<PeerId>, stuck: set<PeerId>, slow: set<PeerId>)
    requires MembersOk(g) && PushArgs(g, targets, stuck, slow) && RoutesOk(g.routes, g.lastSeen) && g.blocked == {}
    requires g.initialized && PushReady(g, m, targets)
    ensures PeersOk(Push(g, m, targets, stuck, slow))
  {
    var h := Push(g, m, targets, stuck, slow);
    forall p | p in h.sync && p in h.peers
      ensures SyncOk(h.peers[p], h.routes, h.packing, p in h.blocked, h.initialized)
    {
      if p in targets { PushedOk(g, g.peers[p], m, p in stuck, p in slow); }
    }
    forall p | p in h.detached && p in h.peers
      ensures DetachedOk(h.peers[p], h.routes, h.lastSeen)
    {
      if p in slow { PushedOk(g, g.peers[p], m, true, true); }
    }
  }

  // ---------------------------------------------------------------- the steps of the builder

  /** In-sync peers that are not blocked have nothing in flight. */
  lemma UnblockedShape(g: Group)
    requires PeersOk(g) && g.initialized && g.blocked == {}
    ensures forall p | p in g.sync && p in g.peers :: SyncShape(g.peers[p], false, true)
  {
    forall p | p in g.sync && p in g.peers
      ensures SyncShape(g.peers[p], false, true)
    {
      assert SyncOk(g.peers[p], g.routes, g.packing, p in g.blocked, g.initialized);
    }
  }

  lemma SendUpdateReady(g: Group, b: Bucket, keys: set<Key>)
    requires PeersOk(g) && g.initialized && g.blocked == {}
    requires b in g.packing && keys <= g.packing[b]
    ensures PushReady(g.(packing := TakeFrom(g.packing, b, keys)), Update(b.attrs, keys), g.sync)
  {
    UnblockedShape(g);
    forall p | p in g.sync && p in g.peers
      ensures Served(Land(g.peers[p], Update(b.attrs, keys)), g.routes, TakeFrom(g.packing, b, keys))
      ensures Served(g.peers[p].(inFlight := g.peers[p].inFlight + [Update(b.attrs, keys)]), g.routes,
                     TakeFrom(g.packing, b, keys))
    {
      assert SyncOk(g.peers[p], g.routes, g.packing, p in g.blocked, g.initialized);
      PushUpdateServed(g.peers[p], g.routes, g.packing, b, keys);
    }
  }

  ghost predicate CanSendUpdate(g: Group, b: Bucket, keys: set<Key>, stuck: set<PeerId>, slow: set<PeerId>) {
    && g.builder == At(Drain)
    && b in g.packing && keys <= g.packing[b] && keys != {}
    && PushArgs(g, g.sync, stuck, slow)
  }

  lemma TakeMembers(g: Group, pl: Packing)
    requires MembersOk(g)
    ensures MembersOk(g.(packing := pl))
  {
    MembersFrame(g, g.(packing := pl));
  }

  lemma BuilderMembers(g: Group, b: Builder)
    requires MembersOk(g)
    ensures MembersOk(g.(builder := b))
  {
    MembersFrame(g, g.(builder := b));
  }

  lemma SendUpdateMembers(g: Group, b: Bucket, keys: set<Key>, stuck: set<PeerId>, slow: set<PeerId>)
    requires MembersOk(g) && CanSendUpdate(g, b, keys, stuck, slow)
    ensures MembersOk(SendUpdate(g, b, keys, stuck, slow))
  {
    var h := g.(packing := TakeFrom(g.packing, b, keys));
    TakeMembers(g, h.packing);
    PushMembers(h, Update(b.attrs, keys), g.sync, stuck, slow);
    BuilderMembers(Push(h, Update(b.attrs, keys), g.sync, stuck, slow), if stuck == {} then At(Drain) else Await(Drain));
  }

  lemma SendUpdatePeers(g: Group, b: Bucket, keys: set<Key>, stuck: set<PeerId>, slow: set<PeerId>)
    requires MembersOk(g) && PeersOk(g) && RoutesOk(g.routes, g.lastSeen) && g.initialized && g.blocked == {}
    requires CanSendUpdate(g, b, keys, stuck, slow)
    ensures PeersOk(SendUpdate(g, b, keys, stuck, slow))
  {
    var h := g.(packing := TakeFrom(g.packing, b, keys));
    SendUpdateReady(g, b, keys);
    TakeMembers(g, h.packing);
    PushPeersOk(h, Update(b.attrs, keys), g.sync, stuck, slow);
  }

  /** Distributing one UPDATE keeps the invariant, whoever blocks and whoever is detached for it. */
  lemma SendUpdateKeeps(g: Group, b: Bucket, keys: set<Key>, stuck: set<PeerId>, slow: set<PeerId>)
    requires Inv(g) && CanSendUpdate(g, b, keys, stuck, slow)
    ensures Inv(SendUpdate(g, b, keys, stuck, slow))
  {
    SendUpdateMembers(g, b, keys, stuck, slow);
    SendUpdatePeers(g, b, keys, stuck, slow);
    TakeFromAt(g.packing, b, keys);
  }

  /** Once the list is drained nothing that was pending at the marking is unsent. */
  lemma DrainedNoDebt(g: Group, p: PeerId)
    requires PeersOk(g) && g.blocked == {} && g.packing == map[] && p in g.sync && p in g.peers
    ensures g.peers[p].debt == {}
  {
    assert SyncOk(g.peers[p], g.routes, g.packing, p in g.blocked, g.initialized);
    forall k ensures !Pending(g.packing, k) { }
  }

  ghost predicate CanSendEndOfRib(g: Group, afi: Afi, stuck: set<PeerId>, slow: set<PeerId>) {
    && (if afi.IPv4? then g.builder == At(Drain) && g.packing == map[] else g.builder == At(EorV6))
    && PushArgs(g, Owing(g, afi), stuck, slow)
  }

  lemma EndOfRibNoDebt(g: Group, afi: Afi, stuck: set<PeerId>, slow: set<PeerId>)
    requires PeersOk(g) && BuilderOk(g) && CanSendEndOfRib(g, afi, stuck, slow)
    ensures forall p | p in g.sync && p in g.peers :: g.peers[p].debt == {}
  {
    if afi.IPv4? {
      forall p | p in g.sync && p in g.peers ensures g.peers[p].debt == {} { DrainedNoDebt(g, p); }
    }
  }

  lemma SendEndOfRibReady(g: Group, afi: Afi)
    requires PeersOk(g) && g.initialized && g.blocked == {} && Owing(g, afi) <= g.sync
    requires forall p | p in g.sync && p in g.peers :: g.peers[p].debt == {}
    ensures PushReady(g, EndOfRib(afi), Owing(g, afi))
  {
    UnblockedShape(g);
    forall p | p in Owing(g, afi) && p in g.peers
      ensures Served(Land(g.peers[p], EndOfRib(afi)), g.routes, g.packing)
      ensures Served(g.peers[p].(inFlight := g.peers[p].inFlight + [EndOfRib(afi)]), g.routes, g.packing)
    {
      assert SyncOk(g.peers[p], g.routes, g.packing, p in g.blocked, g.initialized);
      PushEndOfRibServed(g.peers[p], g.routes, g.packing, afi);
    }
    forall p | p in g.sync && p in g.peers && p !in Owing(g, afi)
      ensures Served(g.peers[p], g.routes, g.packing)
    {
      assert SyncOk(g.peers[p], g.routes, g.packing, p in g.blocked, g.initialized);
    }
  }

  lemma PushDebt(g: Group, m: Message, targets: set<PeerId>, stuck: set<PeerId>, slow: set<PeerId>)
    requires forall p | p in g.sync && p in g.peers :: g.peers[p].debt == {}
    ensures var h := Push(g, m, targets, stuck, slow);
      forall p | p in h.sync && p in h.peers :: h.peers[p].debt == {}
  {
    var h := Push(g, m, targets, stuck, slow);
    forall p | p in h.sync && p in h.peers
      ensures h.peers[p].debt == {}
    {
      PushedFrame(g, g.peers[p], m, p in stuck, p in slow);
    }
  }

  lemma SendEndOfRibMembers(g: Group, afi: Afi, stuck: set<PeerId>, slow: set<PeerId>)
    requires MembersOk(g) && CanSendEndOfRib(g, afi, stuck, slow)
    ensures MembersOk(SendEndOfRib(g, afi, stuck, slow))
  {
    PushMembers(g, EndOfRib(afi), Owing(g, afi), stuck, slow);
    BuilderMembers(Push(g, EndOfRib(afi), Owing(g, afi), stuck, slow), Await(if afi.IPv4? then EorV6 else Finish));
  }

  /** Distributing End-of-RIB keeps the invariant. */
  lemma SendEndOfRibKeeps(g: Group, afi: Afi, stuck: set<PeerId>, slow: set<PeerId>)
    requires Inv(g) && CanSendEndOfRib(g, afi, stuck, slow)
    ensures Inv(SendEndOfRib(g, afi, stuck, slow))
  {
    EndOfRibNoDebt(g, afi, stuck, slow);
    SendEndOfRibReady(g, afi);
    PushPeersOk(g, EndOfRib(afi), Owing(g, afi), stuck, slow);
    SendEndOfRibMembers(g, afi, stuck, slow);
    PushDebt(g, EndOfRib(afi), Owing(g, afi), stuck, slow);
  }

  /** Starting, resuming and finishing the builder touch no peer. */
  lemma StartBuildKeeps(g: Group)
    requires Inv(g) && g.initialized && g.builder == Idle
    ensures Inv(StartBuild(g))
  {
    MembersFrame(g, StartBuild(g));
  }

  lemma ResumeBuildKeeps(g: Group)
    requires Inv(g) && g.builder.Await? && g.blocked == {}
    ensures Inv(ResumeBuild(g))
  {
    MembersFrame(g, ResumeBuild(g));
  }

  lemma FinishBuildKeeps(g: Group)
    requires Inv(g) && g.builder.At?
    ensures Inv(FinishBuild(g))
  {
    MembersFrame(g, FinishBuild(g));
  }

  /**
    No message overtakes another: whenever the group can push, every peer it would push to
    has nothing deferred.
   */
  lemma NothingOvertakes(g: Group, p: PeerId)
    requires Inv(g) && g.builder.At? && p in g.sync
    ensures g.peers[p].inFlight == []
  {
    assert SyncOk(g.peers[p], g.routes, g.packing, p in g.blocked, g.initialized);
  }
}
