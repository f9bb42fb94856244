/**
  The update group as an object whose methods update its fields and its RIB-OUT tree in
  place.  Every method refines the step on values it is named after.
 */
module AdjRibOutGroup {
  import opened Types
  import opened PackingList
  import opened Advertised
  import opened GroupState
  import opened GroupInvariant
  import opened GroupProcessing
  import opened Distribution
  import opened DetachedPeer
  import opened Membership
  import opened DistributionLoop
  import opened Rejoin
  import opened OwnerTree
  import opened CollapseWalk
  import opened RibOutTree
  import opened MemberRecords
  import opened Counts
  import opened Fleet

  /** Peers waiting to rejoin are detached and have nothing left to send. */
  lemma WaitingMembers(g: Group, ps: set<PeerId>)
    requires Inv(g) && CanAccept(g, ps)
    ensures forall p | p in ps :: p in g.detached && p in g.peers && g.peers[p].packing == map[]
    ensures SetsOk(g) && CountersOk(g)
  {
    forall p | p in ps
      ensures p in g.detached && p in g.peers && g.peers[p].packing == map[]
    {
      assert Candidate(g, p);
      assert DetachedOk(g.peers[p], g.routes, g.lastSeen);
      ReadyIsDrained(g.peers[p], g.routes, g.lastSeen);
    }
  }

  lemma InSyncOwnsNothing(g: Group, p: PeerId)
    requires Inv(g) && p in g.peers
    ensures p !in g.detached ==> g.peers[p].own == map[]
  {
    if p !in g.detached {
      assert SyncOk(g.peers[p], g.routes, g.packing, p in g.blocked, g.initialized);
    }
  }

  lemma MovedMembers(g: Group, target: Group, ps: set<PeerId>)
    requires Inv(g) && CanMove(g, target, ps)
    ensures ps <= g.peers.Keys && ps !! target.peers.Keys
  {
  }

  class UpdateGroup {
    const ribOut: AdjRibTree
    var families: set<Afi>
    var initialized: bool
    var lastSeen: nat
    var packing: Packing
    var adjRibs: map<PeerId, Peer>
    var sync: set<PeerId>
    var blocked: set<PeerId>
    var detached: set<PeerId>
    var eorPeers: set<PeerId>
    var numInSync: nat
    var numDetachedAfterJoin: nat
    var builder: Builder
    var checkForBlocked: bool
    var postOut: nat

    /** The tree stores what it stands for. */
    ghost predicate Stored()
      reads ribOut
    {
      ribOut.Valid()
    }

    /** Between two steps every member is served what its RIB-OUT holds. */
    ghost predicate Valid()
      reads this, ribOut
    {
      Stored() && Inv(Abs())
    }

    ghost function Abs(): Group
      reads this, ribOut
    {
      Group(families, initialized, TableFor(ribOut.tables, GroupOwner), lastSeen, packing,
            Joined(adjRibs, ribOut.tables), sync, blocked, detached, eorPeers, numInSync, numDetachedAfterJoin,
            builder, checkForBlocked, postOut)
    }

    constructor (negotiated: set<Afi>)
      ensures Valid() && fresh(ribOut) && ribOut.tables == map[] && Abs() == Fresh(negotiated)
    {
      ribOut := new AdjRibTree();
      families := negotiated;
      initialized, lastSeen, packing := false, 0, map[];
      adjRibs, sync, blocked, detached, eorPeers := map[], {}, {}, {}, {};
      numInSync, numDetachedAfterJoin, builder, checkForBlocked, postOut := 0, 0, Idle, false, 0;
      FreshInv(negotiated);
    }

    // -------------------------------------------------------------- route changes

    /** Give every detached peer that still shares the group's entry at `k` a copy of it. */
    method LazyCloneForDetachedPeers(k: Key)
      requires Stored()
      modifies ribOut
      ensures Stored()
      ensures TableFor(ribOut.tables, GroupOwner) == old(TableFor(ribOut.tables, GroupOwner))
      ensures Joined(adjRibs, ribOut.tables) == LazyClone(old(Abs()).peers, detached, old(Abs()).routes, k)
    {
      ghost var before := ribOut.tables;
      ribOut.LazyClone(k, DetachVersions(adjRibs, detached));
      JoinedClones(adjRibs, detached, before, ribOut.tables, k);
    }

    /** Change the group's entry at `k`, after the clones that keep the change from the detached peers. */
    method ReplaceGroupEntry(k: Key, entry: Option<Entry>)
      requires Stored()
      modifies ribOut
      ensures Stored()
      ensures Abs() == old(Abs()).(
        routes := if entry.Some? then old(Abs()).routes[k := entry.value] else old(Abs()).routes - {k},
        peers := LazyClone(old(Abs()).peers, detached, old(Abs()).routes, k))
    {
      LazyCloneForDetachedPeers(k);
      ghost var before := ribOut.tables;
      if entry.Some? {
        ribOut.Add(GroupOwner, k, entry.value);
      } else {
        ribOut.Delete(GroupOwner, k);
      }
      JoinedSame(adjRibs, before, ribOut.tables);
    }

    /** Without in-sync peers nothing is queued for the group. */
    method TryUpdateAttrToPrefixMapForGroup(k: Key, was: Option<BgpPath>, now: Option<BgpPath>, flag: bool)
      modifies this`packing
      ensures Abs() == old(Abs()).(packing := if numInSync == 0 then old(packing)
                                              else Repack(old(packing), k, was, now, flag))
    {
      if numInSync != 0 {
        packing := TryUpdateAttrToPrefixMap(packing, k, was, now, flag);
      }
    }

    method CountPostOut(was: Option<BgpPath>, now: Option<BgpPath>)
      modifies this`postOut
      ensures Abs() == old(Abs()).(postOut := Recount(old(postOut), was, now))
    {
      if was.None? && now.Some? {
        postOut := postOut + 1;
      } else if was.Some? && now.None? && postOut > 0 {
        postOut := postOut - 1;
      }
    }

    /** Withdraw a route, cloning it first for whoever still shares it. */
    method ProcessGroupRibWithdraw(c: Change)
      requires Stored() && (c.Withdraw? || !c.mayAnnounce)
      modifies this, ribOut
      ensures Stored()
      ensures Abs() == ProcessForGroup(old(Abs()), c)
    {
      var k := c.key;
      if AfiOf(k.prefix) !in families {
        return;
      }
      var entry := ribOut.Find(GroupOwner, k);
      if entry.None? {
        NothingToClone(Joined(adjRibs, ribOut.tables), detached, TableFor(ribOut.tables, GroupOwner), k);
        return;
      }
      ReplaceGroupEntry(k, None);
      CountPostOut(entry.value.post, None);
      if entry.value.post.Some? {
        TryUpdateAttrToPrefixMapForGroup(k, entry.value.post, None, false);
      }
    }

    /** Announce a route, or withdraw it when the checks or the policy refuse it. */
    method ProcessRibAnnouncedEntryForGroup(c: Change)
      requires Stored() && c.Announce?
      modifies this, ribOut
      ensures Stored()
      ensures Abs() == ProcessForGroup(old(Abs()), c)
    {
      var k := c.key;
      if AfiOf(k.prefix) !in families {
        return;
      }
      if !c.mayAnnounce {
        ProcessGroupRibWithdraw(c);
        return;
      }
      var entry := ribOut.Find(GroupOwner, k);
      var was: Option<BgpPath> := None;
      var flagWas := false;
      if entry.Some? {
        was, flagWas := entry.value.post, entry.value.nexthopByPolicy;
      }
      ReplaceGroupEntry(k, Some(Entry(c.pre, c.result, c.version, c.nexthopByPolicy)));
      CountPostOut(was, c.result);
      QueueForGroup(k, was, flagWas, c.result, c.nexthopByPolicy);
    }

    /** Queue what changed: a withdrawal if the policy denied the route, nothing if it is as before. */
    method QueueForGroup(k: Key, was: Option<BgpPath>, flagWas: bool, now: Option<BgpPath>, flag: bool)
      modifies this`packing
      ensures Abs() == old(Abs()).(packing :=
        if numInSync == 0 || (was.None? && now.None?) || (now.Some? && was == now && flagWas == flag) then old(packing)
        else Repack(old(packing), k, was, now, flag && now.Some?))
    {
      if now.None? {
        if was.Some? {
          TryUpdateAttrToPrefixMapForGroup(k, was, None, false);
        }
      } else if was != now || flagWas != flag {
        TryUpdateAttrToPrefixMapForGroup(k, was, now, flag);
      }
    }

    /** Consume a batch of changes up to `ribVersion`. */
    method ApplyChanges(cs: seq<Change>, ribVersion: nat)
      requires Stored()
      modifies this, ribOut
      ensures Stored()
      ensures Abs() == Consume(old(Abs()), cs, ribVersion)
    {
      ghost var before := Abs();
      for i := 0 to |cs|
        invariant Stored()
        invariant ProcessAll(before, cs) == ProcessAll(Abs(), cs[i..])
      {
        assert cs[i..][0] == cs[i] && cs[i..][1..] == cs[i + 1..];
        if cs[i].Withdraw? {
          ProcessGroupRibWithdraw(cs[i]);
        } else {
          ProcessRibAnnouncedEntryForGroup(cs[i]);
        }
      }
      lastSeen := Max(lastSeen, ribVersion);
    }

    // -------------------------------------------------------------- coming back

    /** The collapse walk and the finalization of the candidates. */
    method CollapseAndFinalize(order: seq<PeerId>) returns (accepted: set<PeerId>, r: map<PeerId, Peer>, n: nat)
      requires Stored() && Distinct(order) && CountersOk(Abs())
      requires forall p | p in order :: p in detached && p in adjRibs && adjRibs[p].packing == map[]
      modifies ribOut
      ensures Stored() && accepted == Accepted(old(Abs()), SetOf(order))
      ensures TableFor(ribOut.tables, GroupOwner) == old(Abs()).routes
      ensures Joined(r, ribOut.tables) == Accept(old(Abs()), SetOf(order)).peers
      ensures n == Accept(old(Abs()), SetOf(order)).numDetachedAfterJoin
    {
      ghost var g, tables := Abs(), ribOut.tables;
      var packings, failed := ribOut.Collapse(SetOf(order), adjRibs);
      TablesAfter(tables, SetOf(order), 0);
      accepted := SetOf(order) - failed;
      r, n := FinalizeAccept(g, tables, adjRibs, order, packings, failed, lastSeen, numDetachedAfterJoin);
    }

    method Install(r: map<PeerId, Peer>, n: nat, sync': set<PeerId>, detached': set<PeerId>, eorPeers': set<PeerId>,
                   numInSync': nat)
      modifies this
      ensures Abs() == old(Abs()).(peers := Joined(r, ribOut.tables), numDetachedAfterJoin := n, sync := sync',
                                   detached := detached', numInSync := numInSync', eorPeers := eorPeers')
    {
      adjRibs, numDetachedAfterJoin := r, n;
      sync, detached, eorPeers, numInSync := sync', detached', eorPeers', numInSync';
    }

    /** Collapse a batch of waiting peers; those that need no correction join. */
    method CollapseBatch(order: seq<PeerId>) returns (accepted: set<PeerId>)
      requires Stored() && Distinct(order) && SetsOk(Abs()) && CountersOk(Abs())
      requires forall p | p in order :: p in detached && p in adjRibs && adjRibs[p].packing == map[]
      modifies this, ribOut
      ensures Stored()
      ensures Abs() == Accept(old(Abs()), SetOf(order))
      ensures accepted == Accepted(old(Abs()), SetOf(order))
    {
      ghost var g, tables := Abs(), ribOut.tables;
      var r, n;
      accepted, r, n := CollapseAndFinalize(order);
      var sync', detached', eorPeers', numInSync' := MarkPeersInSync(adjRibs, accepted, sync, detached, eorPeers, numInSync);
      AcceptedEor(g, adjRibs, tables, SetOf(order), eorPeers');
      ghost var h := g.(peers := Joined(r, ribOut.tables), numDetachedAfterJoin := n, sync := sync',
                        detached := detached', numInSync := numInSync', eorPeers := eorPeers');
      assert h == Accept(g, SetOf(order)) by { AcceptIs(g, SetOf(order), h); }
      Install(r, n, sync', detached', eorPeers', numInSync');
    }

    /** The tree's part: the peer's entries become the group's. */
    method PromoteRoutes(p: PeerId)
      requires Stored() && p in adjRibs
      modifies ribOut
      ensures Stored() && Abs() == old(Abs()).(routes := Promote(old(Abs()), p).routes, peers := Abs().peers)
      ensures Joined(adjRibs[p := Rejoined(adjRibs[p])], ribOut.tables) == Promote(old(Abs()), p).peers
    {
      PromotedJoined(Abs(), adjRibs, ribOut.tables, p);
      ribOut.PromoteEntries(p);
    }

    method TakeOver(version: nat, count: nat)
      modifies this`lastSeen, this`postOut
      ensures Abs() == old(Abs()).(lastSeen := Max(old(lastSeen), version), postOut := count)
    {
      lastSeen, postOut := Max(lastSeen, version), count;
    }

    /** A drained detached peer's RIB-OUT becomes the group's. */
    method PromoteMember(p: PeerId)
      requires Stored() && p in adjRibs && p in detached && p !in sync
      modifies this, ribOut
      ensures Stored()
      ensures Abs() == Promote(old(Abs()), p)
    {
      ghost var g := Abs();
      var q := adjRibs[p];
      PromoteRoutes(p);
      TakeOver(q.lastSeen, q.postOut);
      var n := if q.detachVersion > 0 && numDetachedAfterJoin > 0 then numDetachedAfterJoin - 1 else numDetachedAfterJoin;
      Install(adjRibs[p := Rejoined(q)], n, sync + {p}, detached - {p}, if q.owes == {} then eorPeers else eorPeers + {p},
              numInSync + 1);
      PromoteIs(g, p, Abs());
    }

    // -------------------------------------------------------------- membership

    /** The fields that do not live in the tree. */
    function Header(): Group
      reads this
    {
      Group(families, initialized, map[], lastSeen, packing, map[], sync, blocked, detached, eorPeers, numInSync,
            numDetachedAfterJoin, builder, checkForBlocked, postOut)
    }

    /** Replace one member's record. */
    method SetPeer(p: PeerId, q: Peer)
      modifies this`adjRibs
      ensures Abs() == old(Abs()).(peers := old(Abs()).peers[p := OwnIn(q, ribOut.tables, p)])
      ensures adjRibs == old(adjRibs)[p := q]
    {
      JoinedWith(adjRibs, ribOut.tables, p, q);
      adjRibs := adjRibs[p := q];
    }

    method SetSides(sync': set<PeerId>, blocked': set<PeerId>, detached': set<PeerId>, eorPeers': set<PeerId>)
      modifies this`sync, this`blocked, this`detached, this`eorPeers
      ensures Abs() == old(Abs()).(sync := sync', blocked := blocked', detached := detached', eorPeers := eorPeers')
    {
      sync, blocked, detached, eorPeers := sync', blocked', detached', eorPeers';
    }

    method SetCounters(inSync: nat, afterJoin: nat)
      modifies this`numInSync, this`numDetachedAfterJoin
      ensures Abs() == old(Abs()).(numInSync := inSync, numDetachedAfterJoin := afterJoin)
    {
      numInSync, numDetachedAfterJoin := inSync, afterJoin;
    }

    /** Register a peer under which the tree stores nothing yet. */
    method AddMember(p: PeerId)
      requires Stored() && p !in adjRibs && TableFor(ribOut.tables, PeerOwner(p)) == map[]
      modifies this
      ensures Stored()
      ensures Abs() == Register(old(Abs()), p)
    {
      if !initialized {
        SetPeer(p, FRESH_PEER);
        SetSides(sync + {p}, blocked, detached, eorPeers);
        SetCounters(numInSync + 1, numDetachedAfterJoin);
      } else {
        SetPeer(p, FRESH_PEER.(state := DetachedInitDump, onRegistration := true));
        SetSides(sync, blocked, detached + {p}, eorPeers);
      }
    }

    method RecoverWithoutSync()
      modifies this`packing
      ensures Abs() == RecoverIfNoSync(old(Abs()))
    {
      if sync == {} {
        packing := map[];
      }
    }

    method DetachRecord(p: PeerId)
      requires p in adjRibs
      modifies this`adjRibs
      ensures Abs() == old(Abs()).(peers := old(Abs()).peers[p := Detached(old(Abs()), old(Abs()).peers[p])])
    {
      DetachedOwn(Abs(), Header(), adjRibs[p], ribOut.tables, p);
      SetPeer(p, Detached(Header(), adjRibs[p]));
    }

    method LeaveSync(p: PeerId)
      modifies this`sync, this`blocked, this`detached, this`eorPeers, this`numInSync, this`numDetachedAfterJoin
      ensures Abs() == old(Abs()).(
        sync := old(sync) - {p}, blocked := old(blocked) - {p}, detached := old(detached) + {p},
        eorPeers := old(eorPeers) - {p}, numInSync := if old(numInSync) > 0 then old(numInSync) - 1 else 0,
        numDetachedAfterJoin := if lastSeen != 0 then old(numDetachedAfterJoin) + 1 else old(numDetachedAfterJoin))
    {
      SetSides(sync - {p}, blocked - {p}, detached + {p}, eorPeers - {p});
      SetCounters(if numInSync > 0 then numInSync - 1 else 0,
                  if lastSeen != 0 then numDetachedAfterJoin + 1 else numDetachedAfterJoin);
    }

    /** Detach an in-sync peer with a copy of the packing list. */
    method DetachMember(p: PeerId)
      requires Stored() && p in adjRibs && p in sync
      modifies this
      ensures Stored()
      ensures Abs() == Detach(old(Abs()), p)
    {
      DetachRecord(p);
      LeaveSync(p);
      RecoverWithoutSync();
    }

    method LeaveSides(p: PeerId, version: nat)
      modifies this`sync, this`blocked, this`detached, this`eorPeers, this`numInSync, this`numDetachedAfterJoin
      ensures Abs() == old(Abs()).(
        sync := old(sync) - {p}, blocked := old(blocked) - {p}, detached := old(detached) - {p},
        eorPeers := old(eorPeers) - {p},
        numInSync := if p in old(sync) && old(numInSync) > 0 then old(numInSync) - 1 else old(numInSync),
        numDetachedAfterJoin := if version > 0 && old(numDetachedAfterJoin) > 0 then old(numDetachedAfterJoin) - 1
                                else old(numDetachedAfterJoin))
    {
      SetCounters(if p in sync && numInSync > 0 then numInSync - 1 else numInSync,
                  if version > 0 && numDetachedAfterJoin > 0 then numDetachedAfterJoin - 1 else numDetachedAfterJoin);
      SetSides(sync - {p}, blocked - {p}, detached - {p}, eorPeers - {p});
    }

    /** Forget a member under which the tree stores nothing any more. */
    method ForgetMember(p: PeerId, ghost g: Group)
      requires p in adjRibs && p in g.peers && adjRibs[p].detachVersion == g.peers[p].detachVersion
      requires Joined(adjRibs - {p}, ribOut.tables) == g.peers - {p} && Abs() == g.(peers := Abs().peers)
      modifies this
      ensures Abs() == Unregister(g, p)
    {
      var version := adjRibs[p].detachVersion;
      ReplaceMembers(adjRibs - {p});
      LeaveSides(p, version);
      assert Abs() == GroupState.Without(g, p);
      RecoverWithoutSync();
    }

    /** Settle a departing member's share of the sent-prefix total, and erase what the tree stores for it. */
    method SettleMember(p: PeerId, total: nat) returns (left: nat)
      requires Stored() && p in adjRibs && (p !in detached ==> TableFor(ribOut.tables, PeerOwner(p)) == map[])
      modifies ribOut
      ensures Stored() && TableFor(ribOut.tables, PeerOwner(p)) == map[]
      ensures Joined(adjRibs - {p}, ribOut.tables) == old(Abs()).peers - {p} && Abs() == old(Abs()).(peers := Abs().peers)
      ensures left == TotalWithout(total, old(Abs()), p)
    {
      ghost var before := ribOut.tables;
      if p in detached {
        var count := adjRibs[p].postOut;
        var r := ribOut.CleanUpPeer(p, adjRibs[p].detachVersion, count);
        left := Less(total, count - r);
      } else {
        left := Less(total, postOut);
      }
      JoinedLess(adjRibs, before, ribOut.tables, {p});
    }

    // -------------------------------------------------------------- distribution

    method PushRecord(m: Message, p: PeerId, stuck: bool, slow: bool) returns (done: bool)
      requires p in adjRibs
      modifies this`adjRibs
      ensures
        var q := Pushed(old(Abs()), old(Abs()).peers[p], m, stuck, slow);
        Abs() == old(Abs()).(peers := old(Abs()).peers[p := q]) && done == (q.owes == {})
    {
      PushedOwn(Abs(), Header(), adjRibs[p], ribOut.tables, p, m, stuck, slow);
      var q := Pushed(Header(), adjRibs[p], m, stuck, slow);
      SetPeer(p, q);
      done := q.owes == {};
    }

    /** Push to one in-sync peer: at once, deferred, or deferred with the peer detached. */
    method PushToPeer(m: Message, p: PeerId, stuck: bool, slow: bool)
      requires p in adjRibs
      modifies this
      ensures Abs() == PushOne(old(Abs()), m, p, stuck, slow)
    {
      var done := PushRecord(m, p, stuck, slow);
      if stuck && slow {
        LeaveSync(p);
      } else if stuck {
        SetSides(sync, blocked + {p}, detached, eorPeers);
      } else {
        SetSides(sync, blocked, detached, if done then eorPeers - {p} else eorPeers);
      }
    }

    /** The pushes of a distribution, in member order. */
    method DistributeInOrder(m: Message, members: seq<PeerId>, full: set<PeerId>, overdue: set<PeerId>)
      returns (slow: set<PeerId>)
      modifies this
      ensures Spread(Abs(), slow) == SpreadTo(old(Abs()), m, members, full, overdue)
    {
      slow := {};
      for i := 0 to |members|
        invariant Spread(Abs(), slow) == SpreadTo(old(Abs()), m, members[..i], full, overdue)
      {
        var p := members[i];
        assert members[..i + 1][..i] == members[..i];
        if p !in sync || p !in adjRibs {
          continue;
        }
        if p in full && p in overdue && numInSync > 1 {
          PushToPeer(m, p, true, true);
          slow := slow + {p};
        } else {
          PushToPeer(m, p, p in full, false);
        }
      }
      assert members[..|members|] == members;
    }

    /**
      Push one message to every in-sync member.  `full` are the peers whose queue is blocked,
      `overdue` those that blocked too often.  Every overdue peer is detached, except one that
      would have been the last in sync.
     */
    method DistributeMessageToInSyncPeers(m: Message, members: seq<PeerId>, full: set<PeerId>, overdue: set<PeerId>)
      returns (slow: set<PeerId>)
      requires Stored() && SetsOk(Abs()) && EorPeersOk(Abs()) && numInSync == |sync|
      requires Distinct(members) && forall p :: p in members <==> p in adjRibs
      modifies this
      ensures Stored()
      ensures PushArgs(old(Abs()), old(sync), old(sync) * full, slow) && slow <= overdue
      ensures Abs() == Push(old(Abs()), m, old(sync), old(sync) * full, slow)
      ensures slow == old(sync) * full * overdue || exists p | p in old(sync) * full * overdue :: old(sync) - slow == {p}
    {
      ghost var g := Abs();
      slow := DistributeInOrder(m, members, full, overdue);
      assert forall p :: p in members <==> p in g.peers;
      SpreadOutcome(g, m, members, full, overdue);
    }

    /** A deferred push completes. */
    method LandPush(p: PeerId)
      requires p in adjRibs && adjRibs[p].inFlight != []
      modifies this
      ensures Abs() == ResolvePush(old(Abs()), p)
    {
      var landed := Resolved(adjRibs[p]);
      OwnResolved(adjRibs[p], ribOut.tables, p);
      SetPeer(p, landed);
      SetSides(sync, blocked - {p}, detached, if landed.owes == {} then eorPeers - {p} else eorPeers);
    }

    /** Build one UPDATE from part of a bucket and distribute it. */
    method SpreadUpdate(b: Bucket, keys: set<Key>, members: seq<PeerId>, full: set<PeerId>, overdue: set<PeerId>)
      returns (slow: set<PeerId>)
      requires Stored() && SetsOk(Abs()) && EorPeersOk(Abs()) && numInSync == |sync| && b in packing
      requires Distinct(members) && forall p :: p in members <==> p in adjRibs
      modifies this
      ensures Stored()
      ensures Abs() == SendUpdate(old(Abs()), b, keys, old(sync) * full, slow)
      ensures PushArgs(old(Abs()), old(sync), old(sync) * full, slow)
    {
      packing := TakeFrom(packing, b, keys);
      ghost var g := Abs();
      var anyBlocked := sync * full != {};
      slow := DistributeMessageToInSyncPeers(Update(b.attrs, keys), members, full, overdue);
      builder := if anyBlocked then Await(Drain) else At(Drain);
    }

    // -------------------------------------------------------------- a detached peer's own changes

    /** The entry a detached peer may write to: its own, or a copy of the one it shares. */
    method GetWritableRibEntryForPeer(p: PeerId, k: Key) returns (entry: Option<Entry>)
      requires Stored() && p in adjRibs
      modifies ribOut
      ensures Stored()
      ensures Abs() == old(Abs()).(peers := old(Abs()).peers[p := CloneFor(old(Abs()).peers[p], old(Abs()).routes, k)])
      ensures
        var own := TableFor(ribOut.tables, PeerOwner(p));
        own == Writable(old(Abs()).peers[p], old(Abs()).routes, k) && entry == if k in own then Some(own[k]) else None
    {
      ghost var before := ribOut.tables;
      entry := ribOut.Find(PeerOwner(p), k);
      if entry.None? {
        var shared := ribOut.Find(GroupOwner, k);
        if shared.Some? && IsEntryShared(false, adjRibs[p].detachVersion, shared.value.version) {
          ribOut.Add(PeerOwner(p), k, shared.value);
          entry := shared;
        }
      }
      JoinedOwn(adjRibs, before, ribOut.tables, p);
    }

    /** Write one change into the peer's own table. */
    method WriteForPeer(p: PeerId, c: Change, refresh: bool) returns (now: Option<BgpPath>)
      requires Stored() && p in adjRibs
      modifies ribOut
      ensures Stored()
      ensures
        var q := old(Abs()).peers[p];
        var r := Process(RibOut(q.own, q.packing), c, refresh);
        Abs() == old(Abs()).(peers := old(Abs()).peers[p := q.(own := r.table)]) && now == Post(r.table, c.key)
    {
      ghost var before := ribOut.tables;
      if c.Withdraw? || !c.mayAnnounce {
        var entry := ribOut.Find(PeerOwner(p), c.key);
        if entry.Some? {
          ribOut.Delete(PeerOwner(p), c.key);
        }
        now := None;
      } else {
        ribOut.Add(PeerOwner(p), c.key, Entry(c.pre, c.result, c.version, c.nexthopByPolicy));
        now := c.result;
      }
      JoinedOwn(adjRibs, before, ribOut.tables, p);
    }

    /** Apply one change to a detached peer's RIB-OUT, and nobody else's. */
    method ApplyForPeer(p: PeerId, c: Change, refresh: bool)
      requires Stored() && p in adjRibs
      modifies this, ribOut
      ensures Stored()
      ensures Abs() == ProcessForPeer(old(Abs()), p, c, refresh)
    {
      if AfiOf(c.key.prefix) !in families {
        return;
      }
      ghost var g := Abs();
      var entry := GetWritableRibEntryForPeer(p, c.key);
      var q := adjRibs[p];
      ghost var w := TableFor(ribOut.tables, PeerOwner(p));
      var queued := QueueForPeer(q.packing, entry, c, refresh, w);
      var was: Option<BgpPath> := if entry.Some? then entry.value.post else None;
      ghost var cloned := Abs().peers[p];
      var now := WriteForPeer(p, c, refresh);
      ghost var written := Abs().peers[p];
      SetPeer(p, q.(packing := queued, lastSeen := Max(q.lastSeen, c.version), postOut := Recount(q.postOut, was, now)));
      assert Abs().peers[p] == AfterChange(g.peers[p], g.routes, c, refresh);
      LastUpdate(g.peers, p, cloned, written, Abs().peers[p]);
    }

    // -------------------------------------------------------------- two groups

    method ReplaceMembers(members: map<PeerId, Peer>)
      modifies this`adjRibs
      ensures Abs() == old(Abs()).(peers := Joined(members, ribOut.tables)) && adjRibs == members
    {
      adjRibs := members;
    }

    method LeaveAll(ps: set<PeerId>, versioned: nat)
      modifies this`sync, this`blocked, this`detached, this`eorPeers, this`numInSync, this`numDetachedAfterJoin
      ensures Abs() == old(Abs()).(
        sync := old(sync) - ps, blocked := old(blocked) - ps, detached := old(detached) - ps,
        eorPeers := old(eorPeers) - ps,
        numInSync := if |old(sync) * ps| <= old(numInSync) then old(numInSync) - |old(sync) * ps| else 0,
        numDetachedAfterJoin := if versioned <= old(numDetachedAfterJoin) then old(numDetachedAfterJoin) - versioned else 0)
    {
      var leaving := |sync * ps|;
      SetSides(sync - ps, blocked - ps, detached - ps, eorPeers - ps);
      SetCounters(if leaving <= numInSync then numInSync - leaving else 0,
                  if versioned <= numDetachedAfterJoin then numDetachedAfterJoin - versioned else 0);
    }

    /** Forget the members that left; the tree no longer stores anything for them. */
    method RemovePeers(ps: set<PeerId>, ghost g: Group)
      requires Joined(adjRibs - ps, ribOut.tables) == g.peers - ps && Abs() == g.(peers := Abs().peers)
      requires Versioned(g, ps) == VersionedAmong(adjRibs, ps)
      modifies this
      ensures Abs() == Remainder(g, ps)
    {
      var versioned := |VersionedAmong(adjRibs, ps)|;
      ReplaceMembers(adjRibs - ps);
      LeaveAll(ps, versioned);
      assert Abs() == Removed(g, ps);
      RecoverWithoutSync();
    }

    /** Move peers to another group: each arrives detached, showing what it was showing. */
    method HandOver(ps: set<PeerId>, target: UpdateGroup)
      requires Stored() && target.Stored() && target != this && target.ribOut != ribOut
      requires ps <= adjRibs.Keys && ps !! target.adjRibs.Keys
      requires forall p | p in ps :: TableFor(target.ribOut.tables, PeerOwner(p)) == map[]
      modifies this, ribOut, target, target.ribOut
      ensures Stored() && target.Stored()
      ensures Abs() == Remainder(old(Abs()), ps)
      ensures target.Abs() == MoveInto(old(target.Abs()), old(Abs()), ps)
    {
      ghost var g, tables, theirs := Abs(), ribOut.tables, target.ribOut.tables;
      forall p ensures PeerOwner(p) in OwnersOf(ps) <==> p in ps { }
      ribOut.MoveMaterialized(DetachVersions(adjRibs, ps), target.ribOut);
      MovedJoined(g, adjRibs, tables, ps, target.adjRibs, theirs, target.ribOut.tables);
      JoinedLess(adjRibs, tables, ribOut.tables, ps);
      JoinedVersions(adjRibs, tables, g, ps);
      target.ReplaceMembers(target.adjRibs + ArrivingAll(adjRibs, ps));
      target.SetSides(target.sync, target.blocked, target.detached + ps, target.eorPeers);
      RemovePeers(ps, g);
    }

    method CopyGroupFields(from: UpdateGroup, someBlocked: bool)
      requires from != this
      modifies this`initialized, this`lastSeen, this`packing, this`postOut, this`builder, this`checkForBlocked
      ensures Abs() == old(Abs()).(
        initialized := from.initialized, lastSeen := from.lastSeen, packing := from.packing, postOut := from.postOut,
        builder := Idle, checkForBlocked := someBlocked)
    {
      initialized, lastSeen, packing, postOut := from.initialized, from.lastSeen, from.packing, from.postOut;
      builder, checkForBlocked := Idle, someBlocked;
    }

    /** Take over the given members of another group. */
    method CopyMembers(from: UpdateGroup, ps: set<PeerId>)
      requires from != this
      modifies this
      ensures Abs() == old(Abs()).(
        peers := Joined(Among(from.adjRibs, ps), ribOut.tables), sync := from.sync * ps, blocked := from.blocked * ps,
        detached := from.detached * ps, eorPeers := OwingAmong(from.adjRibs, from.sync * ps),
        numInSync := |from.sync * ps|,
        numDetachedAfterJoin := |VersionedAmong(from.adjRibs, from.detached * ps)|)
    {
      ReplaceMembers(Among(from.adjRibs, ps));
      SetSides(from.sync * ps, from.blocked * ps, from.detached * ps, OwingAmong(from.adjRibs, from.sync * ps));
      SetCounters(|from.sync * ps|, |VersionedAmong(from.adjRibs, from.detached * ps)|);
    }

    /** With the tree copied, become the split-off group of `g`. */
    method BecomeSplit(from: UpdateGroup, ps: set<PeerId>, ghost g: Group)
      requires from != this && TableFor(ribOut.tables, GroupOwner) == g.routes
      requires from.Abs() == g.(peers := from.Abs().peers)
      requires Joined(Among(from.adjRibs, ps), ribOut.tables) == Copied(g, families, ps).peers
      requires OwingAmong(from.adjRibs, g.sync * ps) == Copied(g, families, ps).eorPeers
      requires VersionedAmong(from.adjRibs, g.detached * ps) == Versioned(g, g.detached * ps)
      modifies this
      ensures Abs() == SplitOff(g, old(families), ps)
    {
      CopyGroupFields(from, from.blocked * ps != {});
      CopyMembers(from, ps);
      assert Abs() == Copied(g, old(families), ps);
      RecoverWithoutSync();
    }

    /** Split peers off into a new group that carries on where this one stands. */
    method SplitMembersOff(negotiated: set<Afi>, ps: set<PeerId>) returns (split: UpdateGroup)
      requires Stored()
      modifies this, ribOut
      ensures Stored() && fresh(split) && fresh(split.ribOut) && split.Stored()
      ensures Abs() == Remainder(old(Abs()), ps)
      ensures split.Abs() == SplitOff(old(Abs()), negotiated, ps)
    {
      ghost var g, tables := Abs(), ribOut.tables;
      split := new UpdateGroup(negotiated);
      ribOut.CopyShared(ps, split.ribOut);
      SplitJoined(g, negotiated, adjRibs, tables, ps, split.ribOut.tables);
      JoinedLess(adjRibs, tables, ribOut.tables, ps);
      JoinedVersions(adjRibs, tables, g, ps);
      JoinedVersions(adjRibs, tables, g, detached * ps);
      split.BecomeSplit(this, ps, g);
      RemovePeers(ps, g);
    }

    // -------------------------------------------------------------- the steps of a group that serves its members

    /** Consume a batch no detached peer notices. */
    method ConsumeChanges(cs: seq<Change>, ribVersion: nat)
      requires Valid() && initialized && Consumable(Abs(), cs, Max(lastSeen, ribVersion))
      modifies this, ribOut
      ensures Valid() && Abs() == Consume(old(Abs()), cs, ribVersion)
    {
      ghost var g := Abs();
      ApplyChanges(cs, ribVersion);
      ConsumeKeeps(g, cs, ribVersion);
    }

    lemma Waiting(order: seq<PeerId>)
      requires Inv(Abs()) && CanAccept(Abs(), SetOf(order))
      ensures forall p | p in order :: p in detached && p in adjRibs && adjRibs[p].packing == map[]
      ensures SetsOk(Abs()) && CountersOk(Abs())
    {
      WaitingMembers(Abs(), SetOf(order));
      forall p | p in order
        ensures p in detached && p in adjRibs && adjRibs[p].packing == map[]
      {
        assert p in SetOf(order) && p in Abs().peers;
      }
    }

    /** Collapse a batch of waiting peers; those that need no correction join. */
    method TryAcceptPeersToGroup(order: seq<PeerId>) returns (accepted: set<PeerId>)
      requires Valid() && Distinct(order) && CanAccept(Abs(), SetOf(order))
      modifies this, ribOut
      ensures Valid() && Abs() == Accept(old(Abs()), SetOf(order)) && accepted == Accepted(old(Abs()), SetOf(order))
    {
      AcceptKeeps(Abs(), SetOf(order));
      Waiting(order);
      accepted := CollapseBatch(order);
    }

    /** A drained detached peer's RIB-OUT becomes the group's. */
    method PromoteDetachedPeerToSync(p: PeerId)
      requires Valid() && CanPromote(Abs(), p)
      modifies this, ribOut
      ensures Valid() && Abs() == Promote(old(Abs()), p)
    {
      ghost var g := Abs();
      PromoteMember(p);
      PromoteKeeps(g, p);
    }

    /** Register a peer under which the tree stores nothing yet. */
    method RegisterPeer(p: PeerId)
      requires Valid() && p !in adjRibs && TableFor(ribOut.tables, PeerOwner(p)) == map[]
      modifies this
      ensures Valid() && Abs() == Register(old(Abs()), p)
    {
      ghost var g := Abs();
      AddMember(p);
      RegisterKeeps(g, p);
    }

    /** Detach an in-sync peer with a copy of the packing list. */
    method DetachPeer(p: PeerId)
      requires Valid() && p in adjRibs && p in sync
      modifies this
      ensures Valid() && Abs() == Detach(old(Abs()), p)
    {
      ghost var g := Abs();
      DetachMember(p);
      DetachKeeps(g, p);
    }

    /** Drop a member, everything the tree stores for it, and its share of the sent-prefix total. */
    method UnregisterPeer(p: PeerId, total: nat) returns (left: nat)
      requires Valid() && p in adjRibs
      modifies this, ribOut
      ensures Valid() && TableFor(ribOut.tables, PeerOwner(p)) == map[]
      ensures Abs() == Unregister(old(Abs()), p) && left == TotalWithout(total, old(Abs()), p)
    {
      ghost var g := Abs();
      InSyncOwnsNothing(g, p);
      left := SettleMember(p, total);
      ForgetMember(p, g);
      UnregisterKeeps(g, p);
    }

    /** Build one UPDATE from part of a bucket and distribute it. */
    method SendGroupUpdate(b: Bucket, keys: set<Key>, members: seq<PeerId>, full: set<PeerId>, overdue: set<PeerId>)
      returns (slow: set<PeerId>)
      requires Valid() && builder == At(Drain) && b in packing && keys <= packing[b] && keys != {}
      requires Distinct(members) && forall p :: p in members <==> p in adjRibs
      modifies this
      ensures Valid() && Abs() == SendUpdate(old(Abs()), b, keys, old(sync) * full, slow)
    {
      ghost var g := Abs();
      slow := SpreadUpdate(b, keys, members, full, overdue);
      SendUpdateKeeps(g, b, keys, g.sync * full, slow);
    }

    /** A deferred push completes. */
    method LandDeferredPush(p: PeerId)
      requires Valid() && p in adjRibs && adjRibs[p].inFlight != []
      modifies this
      ensures Valid() && Abs() == ResolvePush(old(Abs()), p)
    {
      ghost var g := Abs();
      LandPush(p);
      ResolvePushKeeps(g, p);
    }

    /** Apply one change to a detached peer's RIB-OUT, and nobody else's. */
    method ProcessForDetachedPeer(p: PeerId, c: Change, refresh: bool)
      requires Valid() && CanProcess(Abs(), p, c)
      modifies this, ribOut
      ensures Valid() && Abs() == ProcessForPeer(old(Abs()), p, c, refresh)
    {
      ghost var g := Abs();
      ApplyForPeer(p, c, refresh);
      ProcessForPeerKeeps(g, p, c, refresh);
    }

    /** Move peers to another group: each arrives detached, showing what it was showing. */
    method MovePeers(ps: set<PeerId>, target: UpdateGroup)
      requires Valid() && target.Valid() && target != this && target.ribOut != ribOut
      requires CanMove(Abs(), target.Abs(), ps)
      requires forall p | p in ps :: TableFor(target.ribOut.tables, PeerOwner(p)) == map[]
      modifies this, ribOut, target, target.ribOut
      ensures Valid() && target.Valid()
      ensures Abs() == Remainder(old(Abs()), ps)
      ensures target.Abs() == MoveInto(old(target.Abs()), old(Abs()), ps)
    {
      RemainderKeeps(Abs(), ps);
      MoveIntoKeeps(target.Abs(), Abs(), ps);
      MovedMembers(Abs(), target.Abs(), ps);
      HandOver(ps, target);
    }

    /** Split peers off into a new group that carries on where this one stands. */
    method SplitToNewGroup(negotiated: set<Afi>, ps: set<PeerId>) returns (split: UpdateGroup)
      requires Valid()
      modifies this, ribOut
      ensures Valid() && fresh(split) && fresh(split.ribOut) && split.Valid()
      ensures Abs() == Remainder(old(Abs()), ps)
      ensures split.Abs() == SplitOff(old(Abs()), negotiated, ps)
    {
      RemainderKeeps(Abs(), ps);
      SplitOffKeeps(Abs(), negotiated, ps);
      split := SplitMembersOff(negotiated, ps);
    }
  }
}
