/** A detached peer's own steps on the change list: its dump, consuming, re-evaluation and refresh. */
module NetPeers {
  import opened Types
  import opened Advertised
  import opened GroupState
  import opened GroupInvariant
  import opened PrivateRibOut
  import opened GroupProcessing
  import opened DetachedPeer
  import opened Rejoin
  import opened GroupSteps
  import opened FleetRun
  import opened ShadowRib
  import opened ListConsumers
  import opened Net
  import opened NetInvariant
  import opened NetGroups

  // ---------------------------------------------------------------- as steps of the fleet

  ghost function PeerTrace(id: GroupId, p: PeerId, cs: seq<Change>, refresh: bool): seq<WorldEvent>
    decreases cs
  {
    if cs == [] then [] else [Local(id, PeerChanged(p, cs[0], refresh))] + PeerTrace(id, p, cs[1..], refresh)
  }

  lemma RunsCons(w: World, e: WorldEvent, rest: seq<WorldEvent>, w1: World)
    requires WorldEnabled(w, e) && WorldStep(w, e) == w1 && WorldRuns(w1, rest)
    ensures WorldRuns(w, [e] + rest) && WorldRun(w, [e] + rest) == WorldRun(w1, rest)
  {
    assert ([e] + rest)[1..] == rest;
  }

  lemma SetTwice(w: World, id: GroupId, h: Group, i: Group)
    ensures w[id := h][id := i] == w[id := i]
  {
  }

  lemma PeerChangedStep(w: World, id: GroupId, p: PeerId, c: Change, refresh: bool)
    requires id in w && CanProcess(w[id], p, c)
    ensures
      var e := Local(id, PeerChanged(p, c, refresh));
      WorldEnabled(w, e) && WorldStep(w, e) == w[id := ProcessForPeer(w[id], p, c, refresh)]
  {
  }

  lemma {:induction false} PeerTraceRuns(
    w: World, id: GroupId, p: PeerId, ctl: Control, s: Shadow, top: nat, cs: seq<Change>, refresh: bool)
    requires id in w && MayProcess(w[id], p, ctl, s, top, cs)
    ensures WorldRuns(w, PeerTrace(id, p, cs, refresh))
    ensures WorldRun(w, PeerTrace(id, p, cs, refresh)) == w[id := ProcessAllForPeer(w[id], p, cs, refresh)]
    decreases cs
  {
    if cs == [] {
      assert w[id := w[id]] == w;
    } else {
      var h := ProcessForPeer(w[id], p, cs[0], refresh);
      var w1 := w[id := h];
      MayProcessTail(w[id], p, ctl, s, top, cs, refresh, h);
      PeerChangedStep(w, id, p, cs[0], refresh);
      PeerTraceRuns(w1, id, p, ctl, s, top, cs[1..], refresh);
      RunsCons(w, Local(id, PeerChanged(p, cs[0], refresh)), PeerTrace(id, p, cs[1..], refresh), w1);
      SetTwice(w, id, h, ProcessAllForPeer(h, p, cs[1..], refresh));
    }
  }

  // ---------------------------------------------------------------- what a peer's batch keeps

  lemma {:induction false} PeerBatchLastSeen(g: Group, p: PeerId, cs: seq<Change>, refresh: bool, top: nat)
    requires p in g.peers && g.peers[p].lastSeen <= top && forall c | c in cs :: c.version <= top
    ensures ProcessAllForPeer(g, p, cs, refresh).peers[p].lastSeen <= top
    decreases cs
  {
    if cs != [] {
      PeerBatchLastSeen(ProcessForPeer(g, p, cs[0], refresh), p, cs[1..], refresh, top);
    }
  }

  lemma OnlyPeerTable(g: Group, h: Group, p: PeerId, r: PeerId)
    requires OnlyPeer(g, h, p) && r in g.peers && r != p
    ensures r in h.peers && h.peers[r] == g.peers[r] && TableOf(h, r) == TableOf(g, r)
  {
  }

  lemma PeerToOthers(n: Net, id: GroupId, h: Group, p: PeerId, to: nat, done: bool, r: PeerId)
    requires id in n.groups && OnlyPeer(n.groups[id], h, p) && r in n.groups[id].peers && r != p && PeerOk(n, id, r)
    ensures PeerOk(PeerTo(n, id, h, p, to, done), id, r)
  {
    OnlyPeerTable(n.groups[id], h, p, r);
  }

  lemma PeerToApart(n: Net, id: GroupId, h: Group, p: PeerId, to: nat, done: bool)
    requires id in n.groups && Apart(n.groups) && OnlyPeer(n.groups[id], h, p)
    ensures OnlyGroup(n, PeerTo(n, id, h, p, to, done), id) && Apart(n.groups[id := h])
  {
    var m := PeerTo(n, id, h, p, to, done);
    forall j, r | j in m.groups && j != id && r in m.groups[j].peers
      ensures SameSeat(n, m, r)
    {
      assert r !in n.groups[id].peers;
    }
  }

  lemma PeerToKeeps(n: Net, id: GroupId, h: Group, p: PeerId, to: nat, done: bool)
    requires NetInv(n) && id in n.groups && OnlyPeer(n.groups[id], h, p) && Inv(h)
    requires PeerOk(PeerTo(n, id, h, p, to, done), id, p)
    ensures NetInv(PeerTo(n, id, h, p, to, done))
  {
    var m := PeerTo(n, id, h, p, to, done);
    PeerToApart(n, id, h, p, to, done);
    OneInv(n.groups, id, h);
    assert GroupOk(n, id);
    assert GroupOk(m, id);
    forall r | r in m.groups[id].peers
      ensures PeerOk(m, id, r)
    {
      if r != p { PeerToOthers(n, id, h, p, to, done, r); }
    }
    OnlyGroupOk(n, m, id);
  }

  /** The peer's table after a batch that is its re-evaluation, or that finds it re-evaluated, and where it stands then. */
  ghost predicate PeerArrives(n: Net, id: GroupId, p: PeerId, to: nat, done: bool, t: Table) {
    && id in n.groups && id in n.control && p in n.groups[id].peers && to <= n.top
    && (done || p !in n.under) && TableRight(n.control[id], n.shadow, to, t)
    && (n.groups[id].peers[p].detachVersion > 0 ==> id in n.at && to <= n.at[id])
  }

  lemma PeerBatchKeeps(n: Net, id: GroupId, p: PeerId, cs: seq<Change>, refresh: bool, to: nat, done: bool, h: Group)
    requires NetInv(n) && id in n.groups && id in n.control && h.families == n.groups[id].families
    requires MayProcess(n.groups[id], p, n.control[id], n.shadow, n.top, cs)
    requires h == ProcessAllForPeer(n.groups[id], p, cs, refresh)
    requires PeerArrives(n, id, p, to, done,
               PrivateRun(RibOut(TableOf(n.groups[id], p), map[]), cs, n.control[id].families).table)
    ensures NetInv(PeerTo(n, id, h, p, to, done))
  {
    var g := n.groups[id];
    PeerBatchMoves(g, p, n.control[id], n.shadow, n.top, cs, refresh);
    StampedChange(n.control[id], n.shadow, cs, n.top);
    assert PeerOk(n, id, p);
    PeerBatchLastSeen(g, p, cs, refresh, n.top);
    PeerArrived(n, id, p, to, done, h);
    PeerToKeeps(n, id, h, p, to, done);
  }

  lemma PeerArrived(n: Net, id: GroupId, p: PeerId, to: nat, done: bool, h: Group)
    requires id in n.groups && OnlyPeer(n.groups[id], h, p) && h.peers[p].lastSeen <= n.top
    requires PeerArrives(n, id, p, to, done, TableOf(h, p))
    ensures PeerOk(PeerTo(n, id, h, p, to, done), id, p)
  {
  }

  // ---------------------------------------------------------------- the four steps

  lemma PeerFacts(n: Net, id: GroupId, p: PeerId)
    requires NetInv(n) && id in n.groups && p in n.groups[id].detached
    ensures p in n.groups[id].peers && PeerOk(n, id, p) && GroupOk(n, id) && Inv(n.groups[id])
    ensures Positive(n.groups[id].routes)
  {
    PositiveRoutes(n.groups[id]);
  }

  lemma PeerDumpReady(n: Net, id: GroupId, p: PeerId, cs: seq<Change>)
    requires NetInv(n) && CanPeerDump(n, id, p, cs)
    ensures MayProcess(n.groups[id], p, n.control[id], n.shadow, n.top, cs)
    ensures PeerArrives(n, id, p, n.top, true,
              PrivateRun(RibOut(TableOf(n.groups[id], p), map[]), cs, n.control[id].families).table)
  {
    PeerFacts(n, id, p);
    OwnViewOnly(map[], n.groups[id].routes);
    OwnerCovered(n.groups[id], p, cs);
    DumpRight(n.control[id], n.shadow, cs, n.top);
  }

  /** Behind its group a peer takes away only what the group has taken away. */
  lemma BehindIsCovered(n: Net, id: GroupId, p: PeerId, cs: seq<Change>)
    requires NetInv(n) && id in n.groups && id in n.control && p in n.groups[id].detached
    requires FromShadow(n.control[id], n.shadow, cs)
    requires n.groups[id].peers[p].detachVersion > 0 ==>
      id in n.at && forall c | c in cs :: Passed(n.control[id], n.shadow, n.at[id], c.key)
    ensures Covered(n.groups[id], p, cs)
  {
    PeerFacts(n, id, p);
    var g := n.groups[id];
    if g.peers[p].detachVersion == 0 {
      OwnerCovered(g, p, cs);
    } else {
      forall c | c in cs && Removes(c)
        ensures !SharesAt(g.peers[p], g.routes, c.key)
      {
        assert RightAt(n.control[id], n.shadow, g.routes, c.key);
        RightNotShared(g.peers[p], g.routes, n.control[id], n.shadow, c.key);
      }
    }
  }

  /** What a sharing peer consumes its group has consumed. */
  lemma BehindIsPassed(n: Net, id: GroupId, p: PeerId, to: nat, cs: seq<Change>)
    requires NetInv(n) && CanPeerConsume(n, id, p, to, cs) && n.groups[id].peers[p].detachVersion > 0
    ensures id in n.at && to <= n.at[id] && forall c | c in cs :: Passed(n.control[id], n.shadow, n.at[id], c.key)
  {
    PeerFacts(n, id, p);
    forall c | c in cs
      ensures Passed(n.control[id], n.shadow, n.at[id], c.key)
    {
      assert PathOf(n.shadow, n.control[id].addPath, c.key).since <= VersionOf(n.shadow, c.key.prefix);
    }
  }

  lemma PeerConsumeReady(n: Net, id: GroupId, p: PeerId, to: nat, cs: seq<Change>)
    requires NetInv(n) && CanPeerConsume(n, id, p, to, cs)
    ensures MayProcess(n.groups[id], p, n.control[id], n.shadow, n.top, cs)
    ensures PeerArrives(n, id, p, to, false,
              PrivateRun(RibOut(TableOf(n.groups[id], p), map[]), cs, n.control[id].families).table)
  {
    PeerFacts(n, id, p);
    if n.groups[id].peers[p].detachVersion > 0 { BehindIsPassed(n, id, p, to, cs); }
    BehindIsCovered(n, id, p, cs);
    var r := RibOut(TableOf(n.groups[id], p), map[]);
    ConsumeRight(n.control[id], n.shadow, r, cs, n.seen[p], to);
  }

  /** A sharing peer is re-evaluated over routes its group has consumed. */
  lemma PeerWalkCovered(n: Net, id: GroupId, p: PeerId, to: nat, cs: seq<Change>)
    requires NetInv(n) && PeerWalks(n, id, p, to, cs)
    ensures MayProcess(n.groups[id], p, n.control[id], n.shadow, n.top, cs)
  {
    PeerFacts(n, id, p);
    forall c | c in cs
      ensures n.groups[id].peers[p].detachVersion > 0 ==> Passed(n.control[id], n.shadow, n.at[id], c.key)
    {
      assert Passed(n.control[id], n.shadow, to, c.key);
    }
    BehindIsCovered(n, id, p, cs);
  }

  lemma PeerReevaluateReady(n: Net, id: GroupId, p: PeerId, to: nat, cs: seq<Change>)
    requires NetInv(n) && CanPeerReevaluate(n, id, p, to, cs)
    ensures MayProcess(n.groups[id], p, n.control[id], n.shadow, n.top, cs)
    ensures PeerArrives(n, id, p, to, true,
              PrivateRun(RibOut(TableOf(n.groups[id], p), map[]), cs, n.control[id].families).table)
  {
    PeerFacts(n, id, p);
    PeerWalkCovered(n, id, p, to, cs);
    var r := RibOut(TableOf(n.groups[id], p), map[]);
    ReevaluateRight(n.control[id], ControlOf(n, id, p), n.shadow, r, cs, n.seen[p], JoinedOf(n, OfPeer(p)), to);
  }

  lemma PeerRefreshReady(n: Net, id: GroupId, p: PeerId, cs: seq<Change>)
    requires NetInv(n) && CanPeerRefresh(n, id, p, cs)
    ensures MayProcess(n.groups[id], p, n.control[id], n.shadow, n.top, cs)
    ensures PeerArrives(n, id, p, n.seen[p], false,
              PrivateRun(RibOut(TableOf(n.groups[id], p), map[]), cs, n.control[id].families).table)
  {
    PeerFacts(n, id, p);
    var ctl, g := n.control[id], n.groups[id];
    var r := RibOut(TableOf(g, p), map[]);
    ConsumeRight(ctl, n.shadow, r, cs, n.seen[p], n.seen[p]);
  }
}
