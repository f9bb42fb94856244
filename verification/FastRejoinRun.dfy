/**
  A run of two peers.  One detaches, drains its copy of the packing list before the group has
  sent its own, and waits to be taken back without a check.  The group consumes and sends one
  change more, which nobody ever tells the waiting peer.
 */
module FastRejoinRun {
  import opened Types
  import opened PackingList
  import opened Advertised
  import opened GroupState
  import opened Rejoin
  import opened GroupSteps
  import opened FleetRun
  import opened Net
  import opened Scenarios

  // ---------------------------------------------------------------- both in sync

  const F1 := G1.(peers := map[1 := FRESH_PEER, 2 := FRESH_PEER], sync := {1, 2}, numInSync := 2)
  const F2 := F1.(initialized := true, routes := R2, lastSeen := 1, packing := L2, peers := map[1 := P2, 2 := P2],
                  eorPeers := {1, 2}, postOut := 2)
  const F3 := F2.(builder := At(Drain))

  lemma SecondRegisters()
    ensures Register(G1, 2) == F1
  {
    assert map[1 := FRESH_PEER][2 := FRESH_PEER] == F1.peers;
    assert {1} + {2} == {1, 2};
  }

  lemma BothWalked()
    ensures ProcessAll(F1, WALK) == F1.(routes := R2, packing := L2, postOut := 2)
  {
    var t, pl := map[K1 := EntryOf(A, 1)], map[BucketFor(A) := {K1}];
    WalkRoutes(t, pl);
    NoneDetached(F1.peers, map[], K1);
    NoneDetached(F1.peers, t, K2);
    TwoChanges(F1, WALK[0], WALK[1]);
    assert ProcessForGroup(F1, WALK[0]) == F1.(routes := t, packing := pl, postOut := 1);
  }

  lemma BothMarked(g: Group)
    requires g == F1.(routes := R2, packing := L2, postOut := 2, lastSeen := 1)
    ensures MarkAll(g) == F2
  {
    MarkedPeer();
    var h := MarkAll(g);
    assert h.peers[1] == P2 && h.peers[2] == P2;
    assert h.peers == map[1 := P2, 2 := P2];
    assert h.eorPeers == {1, 2};
  }

  lemma BothDumped()
    ensures Dump(F1, WALK, 1) == F2
  {
    BothWalked();
    BothMarked(Consume(F1, WALK, 1));
  }

  // ---------------------------------------------------------------- one leaves and drains first

  const F4 := F3.(peers := map[1 := P2, 2 := P3], sync := {1}, detached := {2}, eorPeers := {1}, numInSync := 1,
                  numDetachedAfterJoin := 1)
  const F5 := F4.(peers := map[1 := P2, 2 := P4])
  const FLAGGED := P4.(state := DetachedReadyToJoin, fast := true)
  const F6 := F5.(peers := map[1 := P2, 2 := FLAGGED])

  lemma SecondLeaves()
    ensures Detach(F3, 2) == F4
  {
    var h := LeftSync(F3, 2);
    assert h.peers == map[1 := P2, 2 := P3];
    assert h.sync == {1} && h.detached == {2} && h.eorPeers == {1} && h.blocked == {};
  }

  lemma SecondDrains()
    ensures PeerSend(F4, 2, BucketFor(A), {K1, K2}) == F5
  {
    assert TakeFrom(L2, BucketFor(A), {K1, K2}) == map[];
    assert Receive(map[], Update(Some(A), {K1, K2})) == P4.sent;
    assert {K1, K2} - {K1, K2} == {};
    assert F4.peers[2 := P4] == F5.peers;
  }

  lemma SecondWaits()
    ensures DrainedFirst(F5, P4) && PeerTurns(F5, 2, DetachedReadyToJoin) == F6
  {
    assert BucketFor(A) in F5.packing;
    assert F5.peers[2 := FLAGGED] == F6.peers;
  }

  // ---------------------------------------------------------------- the group goes on

  const F7 := F6.(routes := R4, lastSeen := 2, packing := L4, postOut := 3)
  const TOLD := P2.(sent := map[K1 := A, K2 := A, K3 := A], debt := {})
  const F8 := F7.(peers := map[1 := TOLD, 2 := FLAGGED], packing := map[])

  lemma GroupGoesOn()
    ensures Consume(F6, [ADDED], 2) == F7
  {
    OneChange(F6, ADDED);
    AddedQueued();
    assert LazyClone(F6.peers, {2}, R2, K3) == F6.peers;
  }

  lemma FirstTold()
    ensures Land(P2, Update(Some(A), {K1, K2, K3})) == TOLD
  {
    assert Receive(map[], Update(Some(A), {K1, K2, K3})) == TOLD.sent;
    assert {K1, K2} - {K1, K2, K3} == {};
  }

  lemma GroupSends()
    ensures SendUpdate(F7, BucketFor(A), {K1, K2, K3}, {}, {}) == F8
  {
    FirstTold();
    assert TakeFrom(L4, BucketFor(A), {K1, K2, K3}) == map[];
    var h := SendUpdate(F7, BucketFor(A), {K1, K2, K3}, {}, {});
    assert h.peers == map[1 := TOLD, 2 := FLAGGED];
    assert h.sync == {1} && h.blocked == {} && h.detached == {2} && h.eorPeers == {1};
  }

  // ---------------------------------------------------------------- on the change list

  lemma SecondStage(n: Net)
    requires Stage(n, ENTRY1, G1, None, 2, None)
    ensures To(n, GroupStepped(0, PeerRegistered(2)), ENTRY1, F1, None, 2, None)
  {
    assert !Known(n.groups, 2);
    SecondRegisters();
    StepStage(n, ENTRY1, G1, None, 2, None, PeerRegistered(2), F1);
  }

  lemma BothStage(n: Net)
    requires Stage(n, ENTRY1, F1, None, 2, None)
    ensures To(n, GroupDumped(0, CTL, WALK), ENTRY1, F2, Some(1), 2, None)
  {
    BothDumped();
    WalkFromShadow(map[X := ENTRY1]);
    DumpedStage(n, ENTRY1, F1, 2, WALK, F2);
  }

  lemma BuildStage(n: Net)
    requires Stage(n, ENTRY1, F2, Some(1), 2, None)
    ensures To(n, GroupStepped(0, BuildStarted), ENTRY1, F3, Some(1), 2, None)
  {
    PlainStage(n, ENTRY1, F2, Some(1), 2, None, BuildStarted, F3);
  }

  lemma LeavesStage(n: Net)
    requires Stage(n, ENTRY1, F3, Some(1), 2, None)
    ensures To(n, GroupStepped(0, PeerDetached(2)), ENTRY1, F4, Some(1), 2, Some(1))
  {
    SecondLeaves();
    PlainStage(n, ENTRY1, F3, Some(1), 2, None, PeerDetached(2), F4);
  }

  lemma DrainsStage(n: Net)
    requires Stage(n, ENTRY1, F4, Some(1), 2, Some(1))
    ensures To(n, GroupStepped(0, PeerSent(2, BucketFor(A), {K1, K2})), ENTRY1, F5, Some(1), 2, Some(1))
  {
    SecondDrains();
    PlainStage(n, ENTRY1, F4, Some(1), 2, Some(1), PeerSent(2, BucketFor(A), {K1, K2}), F5);
  }

  lemma WaitsStage(n: Net)
    requires Stage(n, ENTRY1, F5, Some(1), 2, Some(1))
    ensures To(n, GroupStepped(0, PeerTurned(2, DetachedReadyToJoin)), ENTRY1, F6, Some(1), 2, Some(1))
  {
    SecondWaits();
    PlainStage(n, ENTRY1, F5, Some(1), 2, Some(1), PeerTurned(2, DetachedReadyToJoin), F6);
  }

  lemma GoesOnStage(n: Net)
    requires Stage(n, ENTRY4, F6, Some(1), 2, Some(1))
    ensures To(n, GroupConsumed(0, [ADDED]), ENTRY4, F7, Some(2), 2, Some(1))
  {
    AddedDue(map[X := ENTRY4]);
    GroupGoesOn();
    ConsumeStage(n, ENTRY4, F6, 1, 2, Some(1), [ADDED], F7);
  }

  const SENDING := UpdateSent(BucketFor(A), {K1, K2, K3}, {}, {})

  lemma MaySend()
    ensures Enabled(F7, SENDING) && Step(F7, SENDING) == F8
  {
    GroupSends();
  }

  lemma StaysSeated(n: Net, g: Group, e: Event, h: Group)
    requires Stage(n, ENTRY4, g, Some(2), 2, Some(1)) && Plain(e) && Enabled(g, e) && Step(g, e) == h
    requires 2 !in g.sync && 2 in g.detached && 2 in h.detached
    ensures To(n, GroupStepped(0, e), ENTRY4, h, Some(2), 2, Some(1))
  {
    PlainStage(n, ENTRY4, g, Some(2), 2, Some(1), e, h);
  }

  lemma SendsStage(n: Net)
    requires Stage(n, ENTRY4, F7, Some(2), 2, Some(1))
    ensures To(n, GroupStepped(0, SENDING), ENTRY4, F8, Some(2), 2, Some(1))
  {
    MaySend();
    StaysSeated(n, F7, SENDING, F8);
  }

  lemma LeftRun() returns (es: seq<NetEvent>, n: Net)
    ensures Reaches(es, n) && Stage(n, ENTRY1, F4, Some(1), 2, Some(1))
  {
    es, n := [], START;
    FirstStage();
    es, n := UpTo(es, n, Published(X, ENTRY1));
    CreatedStage(2);
    es, n := UpTo(es, n, GroupCreated(0, CTL));
    RegisterStage(n, 2);
    es, n := UpTo(es, n, GroupStepped(0, PeerRegistered(1)));
    SecondStage(n);
    es, n := UpTo(es, n, GroupStepped(0, PeerRegistered(2)));
    BothStage(n);
    es, n := UpTo(es, n, GroupDumped(0, CTL, WALK));
    BuildStage(n);
    es, n := UpTo(es, n, GroupStepped(0, BuildStarted));
    LeavesStage(n);
    es, n := UpTo(es, n, GroupStepped(0, PeerDetached(2)));
  }

  /** The peer meets the guard of the shortcut when it turns to waiting. */
  lemma FlaggedRun() returns (es: seq<NetEvent>, n: Net)
    ensures Reaches(es, n) && Stage(n, ENTRY1, F6, Some(1), 2, Some(1))
  {
    es, n := LeftRun();
    DrainsStage(n);
    es, n := UpTo(es, n, GroupStepped(0, PeerSent(2, BucketFor(A), {K1, K2})));
    WaitsStage(n);
    es, n := UpTo(es, n, GroupStepped(0, PeerTurned(2, DetachedReadyToJoin)));
  }

  lemma SentRun() returns (es: seq<NetEvent>, n: Net)
    ensures Reaches(es, n) && Stage(n, ENTRY4, F8, Some(2), 2, Some(1))
  {
    es, n := FlaggedRun();
    FourthFlagged(n.shadow);
    PublishStage(n, ENTRY1, F6, Some(1), 2, Some(1), ENTRY4);
    es, n := UpTo(es, n, Published(X, ENTRY4));
    GoesOnStage(n);
    es, n := UpTo(es, n, GroupConsumed(0, [ADDED]));
    SendsStage(n);
    es, n := UpTo(es, n, GroupStepped(0, SENDING));
  }

  lemma TakenBack()
    ensures MayFastRejoin(F8, 2) && !NothingNewer(FLAGGED, R4)
    ensures
      var h := FastRejoin(F8, 2);
      && 2 in h.sync && 2 in h.peers && Post(h.routes, K3).Some?
      && K3 !in h.peers[2].sent && h.peers[2].inFlight == [] && !Pending(h.packing, K3)
  {
    assert R4[K3].version == 2 && R4[K3].post == Some(A);
  }

  /**
    A run ends in a state in which the source takes a flagged peer back unchecked, although its
    group advertises a route newer than the peer's detach.  Back in sync the peer has that route
    neither received, nor in flight, nor pending.
   */
  lemma TakenBackUntold() returns (es: seq<NetEvent>, n: Net, k: Key)
    ensures NetRuns(START, es) && NetRun(START, es) == n
    ensures 0 in n.groups && MayFastRejoin(n.groups[0], 2) && !NothingNewer(n.groups[0].peers[2], n.groups[0].routes)
    ensures
      var h := FastRejoin(n.groups[0], 2);
      && 2 in h.sync && 2 in h.peers && Post(h.routes, k).Some?
      && k !in h.peers[2].sent && h.peers[2].inFlight == [] && !Pending(h.packing, k)
  {
    es, n := SentRun();
    k := K3;
    TakenBack();
  }
}
