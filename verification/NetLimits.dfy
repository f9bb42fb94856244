/**
  Where the source asks for less than the version order needs: exactly when a promotion, a refresh
  walk and a re-evaluation are safe.
 */
module NetLimits {
  import opened Types
  import opened GroupState
  import opened PrivateRibOut
  import opened GroupProcessing
  import opened DetachedPeer
  import opened Rejoin
  import opened GroupSteps
  import opened FleetRun
  import opened ShadowRib
  import opened ListConsumers
  import opened Net
  import opened NetInvariant
  import opened NetGroups
  import opened NetPeers
  import opened NetSteps

  /** The newest version the promoted group will have seen. */
  function PromotedLastSeen(g: Group, p: PeerId): nat
    requires p in g.peers
  {
    Max(g.lastSeen, g.peers[p].lastSeen)
  }

  lemma PromotedBehindBreaks(n: Net, id: GroupId, p: PeerId, h: Group)
    requires id in n.groups && id in n.control && p in n.groups[id].peers && p in n.seen && h == Promote(n.groups[id], p)
    requires n.groups[id].initialized && GroupOk(Stepped(n, id, PeerPromoted(p), h), id)
    ensures Ahead(n.control[id], n.shadow, n.seen[p], PromotedLastSeen(n.groups[id], p))
  {
  }

  lemma PromoteEnabled(n: Net, id: GroupId, p: PeerId)
    requires id in n.groups && id in n.control && CanPromote(n.groups[id], p) && p in n.seen && p !in n.under
    requires Ahead(n.control[id], n.shadow, n.seen[p], PromotedLastSeen(n.groups[id], p))
    ensures CanStep(n, id, PeerPromoted(p)) && Step(n.groups[id], PeerPromoted(p)) == Promote(n.groups[id], p)
  {
  }

  lemma PromotedAheadKeeps(n: Net, id: GroupId, p: PeerId, h: Group)
    requires NetInv(n) && id in n.groups && id in n.control && CanPromote(n.groups[id], p)
    requires p in n.seen && p !in n.under && h == Promote(n.groups[id], p)
    requires Ahead(n.control[id], n.shadow, n.seen[p], PromotedLastSeen(n.groups[id], p))
    ensures NetInv(Stepped(n, id, PeerPromoted(p), h))
  {
    PromoteEnabled(n, id, p);
    GroupStepKeeps(n, id, PeerPromoted(p), h);
  }

  lemma InvGroupOk(n: Net, id: GroupId)
    requires NetInv(n) && id in n.groups
    ensures GroupOk(n, id)
  {
  }

  /**
    Promoting a peer keeps the invariant exactly when everything still due to the peer is newer
    than whatever its group, or the peer, has seen.
   */
  lemma PromoteKeepsIff(n: Net, id: GroupId, p: PeerId, h: Group)
    requires NetInv(n) && id in n.groups && id in n.control && CanPromote(n.groups[id], p)
    requires p in n.seen && p !in n.under && h == Promote(n.groups[id], p)
    ensures NetInv(Stepped(n, id, PeerPromoted(p), h))
      <==> Ahead(n.control[id], n.shadow, n.seen[p], PromotedLastSeen(n.groups[id], p))
  {
    var m := Stepped(n, id, PeerPromoted(p), h);
    if Ahead(n.control[id], n.shadow, n.seen[p], PromotedLastSeen(n.groups[id], p)) {
      PromotedAheadKeeps(n, id, p, h);
    } else if NetInv(m) {
      InvGroupOk(m, id);
      PromotedBehindBreaks(n, id, p, h);
    }
  }

  /**
    A change a detached peer looks at moves its RIB-OUT as it would a private one exactly when
    it does not take away a route the peer shares.
   */
  lemma PeerFollowsIff(n: Net, id: GroupId, p: PeerId, c: Change, refresh: bool)
    requires NetInv(n) && id in n.groups && p in n.groups[id].detached && AfiOf(c.key.prefix) in n.groups[id].families
    ensures p in n.groups[id].peers
    ensures
      var g := n.groups[id];
      TableOf(ProcessForPeer(g, p, c, refresh), p) == Process(RibOut(TableOf(g, p), g.peers[p].packing), c, refresh).table
      <==> !(Removes(c) && SharesAt(g.peers[p], g.routes, c.key))
  {
    PeerFacts(n, id, p);
    CopyOnWriteViewIff(n.groups[id].peers[p], n.groups[id].routes, c, refresh);
    RevealsIff(n.groups[id].peers[p], n.groups[id].routes, c);
  }

  /** What the group has consumed is never such a route. */
  lemma ConsumedNotShared(n: Net, id: GroupId, p: PeerId, k: Key)
    requires NetInv(n) && id in n.groups && p in n.groups[id].detached && id in n.control && id in n.at
    requires Passed(n.control[id], n.shadow, n.at[id], k) && Removes(ChangeOf(n.control[id], n.shadow, k))
    ensures !SharesAt(n.groups[id].peers[p], n.groups[id].routes, k)
  {
    PeerFacts(n, id, p);
    RightNotShared(n.groups[id].peers[p], n.groups[id].routes, n.control[id], n.shadow, k);
  }

  // ---------------------------------------------------------------- re-evaluation

  lemma GroupWalkRuns(n: Net, id: GroupId, ctl: Control, cs: seq<Change>, h: Group)
    requires NetInv(n) && GroupWalks(n, id, ctl, cs) && h == Consume(n.groups[id], cs, n.top)
    ensures h.routes == PrivateRun(RibOut(n.groups[id].routes, map[]), cs, ctl.families).table
    ensures RightUpTo(n.control[id], n.shadow, n.at[id], n.groups[id].routes)
    ensures InFamilies(n.groups[id].routes, ctl.families) && AtEnd(ctl, n.shadow, n.top)
  {
    InvGroupOk(n, id);
    GroupConsumeEnabled(n, id, ctl, cs);
    TopIsEnd(ctl, n.shadow, n.top);
  }

  lemma GroupEndRight(n: Net, id: GroupId, h: Group, ctl: Control, outdated: set<PeerId>)
    requires id in n.control && h.initialized && NetInv(ToTheEnd(n, id, h, ctl, outdated))
    ensures RightUpTo(ctl, n.shadow, n.top, h.routes)
  {
    InvGroupOk(ToTheEnd(n, id, h, ctl, outdated), id);
  }

  /**
    Re-evaluating a group keeps the invariant exactly when the old policy and the new one agree on
    every route that is not due itself and whose prefix carries the group's bit.
   */
  lemma GroupReevaluateKeepsIff(n: Net, id: GroupId, ctl: Control, cs: seq<Change>, h: Group)
    requires NetInv(n) && GroupWalks(n, id, ctl, cs) && h == Consume(n.groups[id], cs, n.top)
    requires WalksExactly(ctl, n.shadow, cs, n.at[id], JoinedOf(n, OfGroup(id)))
    ensures NetInv(ToTheEnd(n, id, h, ctl, n.groups[id].detached))
      <==> AgreeOnSkipped(ctl, n.control[id], n.shadow, n.at[id], JoinedOf(n, OfGroup(id)))
  {
    var g, joined := n.groups[id], JoinedOf(n, OfGroup(id));
    GroupWalkRuns(n, id, ctl, cs, h);
    ReevaluateRightIff(ctl, n.control[id], n.shadow, RibOut(g.routes, map[]), cs, n.at[id], joined, n.top);
    if AgreeOnSkipped(ctl, n.control[id], n.shadow, n.at[id], joined) {
      GroupReevaluateKeeps(n, id, ctl, cs, h);
    } else if NetInv(ToTheEnd(n, id, h, ctl, g.detached)) {
      GroupConsumeEnabled(n, id, ctl, cs);
      GroupEndRight(n, id, h, ctl, g.detached);
    }
  }

  lemma PeerWalkRuns(n: Net, id: GroupId, p: PeerId, to: nat, cs: seq<Change>, h: Group)
    requires NetInv(n) && PeerWalks(n, id, p, to, cs) && h == ProcessAllForPeer(n.groups[id], p, cs, false)
    ensures p in h.peers && p in h.detached && h.families == n.groups[id].families
    ensures TableOf(h, p) == PrivateRun(RibOut(TableOf(n.groups[id], p), map[]), cs, n.control[id].families).table
    ensures SameKind(n.control[id], ControlOf(n, id, p))
    ensures TableRight(ControlOf(n, id, p), n.shadow, n.seen[p], TableOf(n.groups[id], p))
  {
    PeerFacts(n, id, p);
    PeerWalkCovered(n, id, p, to, cs);
    PeerBatchMoves(n.groups[id], p, n.control[id], n.shadow, n.top, cs, false);
  }

  lemma PeerEndRight(n: Net, id: GroupId, h: Group, p: PeerId, to: nat)
    requires id in n.control && p in h.detached && p in h.peers && NetInv(PeerTo(n, id, h, p, to, true))
    ensures RightUpTo(n.control[id], n.shadow, to, TableOf(h, p))
  {
    PeerFacts(PeerTo(n, id, h, p, to, true), id, p);
  }

  /** So it is for a detached peer, with the control its entries were decided under and the peer's own bit. */
  lemma PeerReevaluateKeepsIff(n: Net, id: GroupId, p: PeerId, to: nat, cs: seq<Change>, h: Group)
    requires NetInv(n) && PeerWalks(n, id, p, to, cs) && h == ProcessAllForPeer(n.groups[id], p, cs, false)
    requires WalksExactly(n.control[id], n.shadow, cs, n.seen[p], JoinedOf(n, OfPeer(p)))
    ensures NetInv(PeerTo(n, id, h, p, to, true))
      <==> AgreeOnSkipped(n.control[id], ControlOf(n, id, p), n.shadow, n.seen[p], JoinedOf(n, OfPeer(p)))
  {
    var was, joined := ControlOf(n, id, p), JoinedOf(n, OfPeer(p));
    PeerWalkRuns(n, id, p, to, cs, h);
    ReevaluateRightIff(n.control[id], was, n.shadow, RibOut(TableOf(n.groups[id], p), map[]), cs, n.seen[p], joined, to);
    if AgreeOnSkipped(n.control[id], was, n.shadow, n.seen[p], joined) {
      PeerReevaluateReady(n, id, p, to, cs);
      PeerBatchKeeps(n, id, p, cs, false, to, true, h);
    } else if NetInv(PeerTo(n, id, h, p, to, true)) {
      PeerEndRight(n, id, h, p, to);
    }
  }
}
