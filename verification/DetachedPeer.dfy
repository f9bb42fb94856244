/**
  A detached peer on its own: it processes changes by copy-on-write, drains its own
  packing list, and its deferred push may still land.
 */
module DetachedPeer {
  import opened Types
  import opened PackingList
  import opened Advertised
  import opened GroupState
  import opened GroupInvariant
  import opened PrivateRibOut
  import opened GroupProcessing
  import opened Distribution

  // ---------------------------------------------------------------- copy-on-write

  /** Removing the peer's copy would let a group entry show through the version gate again. */
  predicate Reveals(q: Peer, routes: Table, c: Change) {
    Removes(c) && c.key in Writable(q, routes, c.key)
    && c.key in routes && routes[c.key].version <= q.detachVersion
  }

  /** The entry a peer writes to is the entry it sees. */
  lemma WritableAt(q: Peer, routes: Table, k: Key)
    ensures k in Writable(q, routes, k) <==> k in View(q.own, routes, q.detachVersion)
    ensures k in Writable(q, routes, k) ==> Writable(q, routes, k)[k] == View(q.own, routes, q.detachVersion)[k]
  {
  }

  /** Copy-on-write queues exactly what a private RIB-OUT with the same view would queue. */
  lemma CopyOnWritePacking(q: Peer, routes: Table, c: Change, refresh: bool)
    ensures Process(RibOut(Writable(q, routes, c.key), q.packing), c, refresh).packing
      == Process(RibOut(View(q.own, routes, q.detachVersion), q.packing), c, refresh).packing
  {
    WritableAt(q, routes, c.key);
    ProcessLocal(RibOut(Writable(q, routes, c.key), q.packing), RibOut(View(q.own, routes, q.detachVersion), q.packing),
                 c, refresh);
  }

  lemma CopyOnWriteElsewhere(q: Peer, routes: Table, c: Change, refresh: bool, j: Key)
    requires j != c.key
    ensures
      var own := Process(RibOut(Writable(q, routes, c.key), q.packing), c, refresh).table;
      var was := View(q.own, routes, q.detachVersion);
      var now := View(own, routes, q.detachVersion);
      (j in now <==> j in was) && (j in was ==> now[j] == was[j])
  {
    var own := Process(RibOut(Writable(q, routes, c.key), q.packing), c, refresh).table;
    ProcessTable(RibOut(Writable(q, routes, c.key), q.packing), c, refresh);
    ViewElsewhere(q.own, own, routes, routes, q.detachVersion, c.key, j);
  }

  lemma CopyOnWriteHere(q: Peer, routes: Table, c: Change, refresh: bool)
    ensures
      var own := Process(RibOut(Writable(q, routes, c.key), q.packing), c, refresh).table;
      var want := Process(RibOut(View(q.own, routes, q.detachVersion), q.packing), c, refresh).table;
      var now := View(own, routes, q.detachVersion);
      if Reveals(q, routes, c) then c.key in now && c.key !in want
      else (c.key in now <==> c.key in want) && (c.key in want ==> now[c.key] == want[c.key])
  {
    var w, v := Writable(q, routes, c.key), View(q.own, routes, q.detachVersion);
    WritableAt(q, routes, c.key);
    ProcessLocal(RibOut(w, q.packing), RibOut(v, q.packing), c, refresh);
    ProcessTable(RibOut(w, q.packing), c, refresh);
  }

  /**
    A detached peer's change moves its view exactly as a private RIB-OUT would move, if and
    only if the change does not take away the copy that hides an old group entry.
   */
  lemma CopyOnWriteViewIff(q: Peer, routes: Table, c: Change, refresh: bool)
    ensures
      var own := Process(RibOut(Writable(q, routes, c.key), q.packing), c, refresh).table;
      View(own, routes, q.detachVersion)
        == Process(RibOut(View(q.own, routes, q.detachVersion), q.packing), c, refresh).table
      <==> !Reveals(q, routes, c)
  {
    var own := Process(RibOut(Writable(q, routes, c.key), q.packing), c, refresh).table;
    var was := View(q.own, routes, q.detachVersion);
    var want := Process(RibOut(was, q.packing), c, refresh).table;
    var now := View(own, routes, q.detachVersion);
    CopyOnWriteHere(q, routes, c, refresh);
    if !Reveals(q, routes, c) {
      forall j | j in now || j in want
        ensures j in now && j in want && now[j] == want[j]
      {
        if j != c.key {
          CopyOnWriteElsewhere(q, routes, c, refresh, j);
          ProcessTable(RibOut(was, q.packing), c, refresh);
        }
      }
      assert now == want;
    }
  }

  // ---------------------------------------------------------------- one peer at a time

  /** Replacing one detached peer by another served one keeps the group. */
  lemma ReplaceDetached(g: Group, p: PeerId, q: Peer)
    requires Inv(g) && p in g.detached
    requires DetachedOk(q, g.routes, g.lastSeen)
    requires q.detachVersion == g.peers[p].detachVersion
    ensures Inv(g.(peers := g.peers[p := q]))
  {
    var h := g.(peers := g.peers[p := q]);
    ReplaceMembers(g, p, q);
    ReplacePeers(g, p, q);
    BuilderFrame(g, h);
  }

  lemma ReplaceMembers(g: Group, p: PeerId, q: Peer)
    requires MembersOk(g) && p in g.detached && q.detachVersion == g.peers[p].detachVersion
    ensures MembersOk(g.(peers := g.peers[p := q]))
  {
    var h := g.(peers := g.peers[p := q]);
    assert Versioned(h, h.detached) == Versioned(g, g.detached);
  }

  lemma ReplacePeers(g: Group, p: PeerId, q: Peer)
    requires SetsOk(g) && PeersOk(g) && p in g.detached && DetachedOk(q, g.routes, g.lastSeen)
    ensures PeersOk(g.(peers := g.peers[p := q]))
  {
    var h := g.(peers := g.peers[p := q]);
    forall r | r in h.sync && r in h.peers
      ensures SyncOk(h.peers[r], h.routes, h.packing, r in h.blocked, h.initialized)
    {
      assert r != p;
    }
  }

  // ---------------------------------------------------------------- its own changes

  ghost predicate CanProcess(g: Group, p: PeerId, c: Change) {
    && p in g.detached && p in g.peers
    && !g.peers[p].state.DetachedReadyToJoin?
    && 0 < c.version
    && !Reveals(g.peers[p], g.routes, c)
  }

  lemma AfterChangeServed(q: Peer, routes: Table, c: Change, refresh: bool)
    requires Served(q, View(q.own, routes, q.detachVersion), q.packing) && !Reveals(q, routes, c)
    ensures var q' := AfterChange(q, routes, c, refresh);
      Served(q', View(q'.own, routes, q'.detachVersion), q'.packing)
  {
    var r := RibOut(View(q.own, routes, q.detachVersion), q.packing);
    var q' := AfterChange(q, routes, c, refresh);
    CopyOnWriteViewIff(q, routes, c, refresh);
    CopyOnWritePacking(q, routes, c, refresh);
    ProcessTold(r, c, refresh, q.inFlight, q.sent);
    forall k | k in q.debt
      ensures Pending(q'.packing, k) || InFlightKey(q.inFlight, k)
    {
      if Pending(q.packing, k) { ProcessKeepsPending(r, c, refresh, k); }
    }
  }

  lemma AfterChangeShape(q: Peer, routes: Table, lastSeen: nat, c: Change, refresh: bool)
    requires DetachedShape(q, lastSeen) && !q.state.DetachedReadyToJoin? && 0 < c.version
    requires forall k | k in routes :: 0 < routes[k].version
    ensures DetachedShape(AfterChange(q, routes, c, refresh), lastSeen)
  {
    ProcessTable(RibOut(Writable(q, routes, c.key), q.packing), c, refresh);
  }

  /** A detached peer's own change keeps the invariant. */
  lemma ProcessForPeerKeeps(g: Group, p: PeerId, c: Change, refresh: bool)
    requires Inv(g) && CanProcess(g, p, c)
    ensures Inv(ProcessForPeer(g, p, c, refresh))
  {
    if AfiOf(c.key.prefix) in g.families {
      var q := g.peers[p];
      assert DetachedOk(q, g.routes, g.lastSeen);
      AfterChangeServed(q, g.routes, c, refresh);
      AfterChangeShape(q, g.routes, g.lastSeen, c, refresh);
      ReplaceDetached(g, p, AfterChange(q, g.routes, c, refresh));
    }
  }

  // ---------------------------------------------------------------- its own sending

  ghost predicate CanPeerSend(g: Group, p: PeerId, b: Bucket, keys: set<Key>) {
    && p in g.detached && p in g.peers
    && g.peers[p].inFlight == []
    && b in g.peers[p].packing && keys <= g.peers[p].packing[b]
  }

  lemma PeerSendKeeps(g: Group, p: PeerId, b: Bucket, keys: set<Key>)
    requires Inv(g) && CanPeerSend(g, p, b, keys)
    ensures Inv(PeerSend(g, p, b, keys))
  {
    var q := g.peers[p];
    assert DetachedOk(q, g.routes, g.lastSeen);
    PushUpdateServed(q, View(q.own, g.routes, q.detachVersion), q.packing, b, keys);
    ReplaceDetached(g, p, Land(q.(packing := TakeFrom(q.packing, b, keys)), Update(b.attrs, keys)));
  }

  ghost predicate CanPeerSendEndOfRib(g: Group, p: PeerId, afi: Afi) {
    && p in g.detached && p in g.peers
    && g.peers[p].inFlight == [] && g.peers[p].packing == map[]
    && afi in g.peers[p].owes
  }

  lemma PeerSendEndOfRibKeeps(g: Group, p: PeerId, afi: Afi)
    requires Inv(g) && CanPeerSendEndOfRib(g, p, afi)
    ensures g.peers[p].debt == {}
    ensures Inv(PeerSendEndOfRib(g, p, afi))
  {
    var q := g.peers[p];
    assert DetachedOk(q, g.routes, g.lastSeen);
    forall k ensures !Pending(q.packing, k) { }
    PushEndOfRibServed(q, View(q.own, g.routes, q.detachVersion), q.packing, afi);
    ReplaceDetached(g, p, Land(q, EndOfRib(afi)));
  }

  lemma PendingKeysAre(pl: Packing, k: Key)
    ensures k in PendingKeys(pl) <==> Pending(pl, k)
  {
    if k in PendingKeys(pl) {
      var b :| b in pl && k in pl[b];
      assert Under(pl, k, b);
    }
  }

  lemma OwedServed(q: Peer, t: Table, pl: Packing, families: set<Afi>)
    requires Served(q, t, pl) && forall m | m in q.inFlight :: m.Update?
    ensures Served(q.(owes := families, debt := q.debt + PendingKeys(pl), eorMarked := q.eorMarked + multiset(families)), t, pl)
  {
    forall k | k in PendingKeys(pl) ensures Pending(pl, k) { PendingKeysAre(pl, k); }
  }

  /** A dump is not booked while an End-of-RIB of the last one is still deferred. */
  ghost predicate CanOwe(g: Group, p: PeerId) {
    p in g.detached && p in g.peers && forall m | m in g.peers[p].inFlight :: m.Update?
  }

  lemma PeerDumpOwedKeeps(g: Group, p: PeerId, families: set<Afi>)
    requires Inv(g) && CanOwe(g, p)
    ensures Inv(PeerDumpOwed(g, p, families))
  {
    var q := g.peers[p];
    assert DetachedOk(q, g.routes, g.lastSeen);
    OwedServed(q, View(q.own, g.routes, q.detachVersion), q.packing, families);
    ReplaceDetached(g, p, PeerDumpOwed(g, p, families).peers[p]);
  }

  /** A detached peer records the RIB version it has caught up with. */
  lemma PeerSeesKeeps(g: Group, p: PeerId, v: nat)
    requires Inv(g) && p in g.detached
    ensures Inv(PeerSees(g, p, v))
  {
    assert DetachedOk(g.peers[p], g.routes, g.lastSeen);
    ReplaceDetached(g, p, g.peers[p].(lastSeen := Max(g.peers[p].lastSeen, v)));
  }

  /** Drained and running peers may wait to rejoin; waiting peers may run again. */
  ghost predicate CanTurn(g: Group, p: PeerId, s: PeerState) {
    && p in g.detached && p in g.peers && g.peers[p].inFlight == []
    && (s.DetachedRunning? || (s.DetachedReadyToJoin? && g.peers[p].packing == map[]))
  }

  lemma PeerTurnsKeeps(g: Group, p: PeerId, s: PeerState)
    requires Inv(g) && CanTurn(g, p, s)
    ensures Inv(PeerTurns(g, p, s))
  {
    assert DetachedOk(g.peers[p], g.routes, g.lastSeen);
    ReplaceDetached(g, p, PeerTurns(g, p, s).peers[p]);
  }
}
