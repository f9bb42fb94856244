/**
  Runs of a small fleet: one add-path group, one prefix.  They reach the states in which a
  rejoin is refused for nothing, a promotion breaks the version order, and a refresh walk
  uncovers an entry of the group.
 */
module Scenarios {
  import opened Types
  import opened PackingList
  import opened Advertised
  import opened GroupState
  import opened GroupInvariant
  import opened Rejoin
  import opened GroupSteps
  import opened FleetRun
  import opened ShadowRib
  import opened ListConsumers
  import opened Net

  // ---------------------------------------------------------------- values

  const X := Prefix(true, 0, 0)
  const K1 := Key(X, 1)
  const K2 := Key(X, 2)

  function Attrs(origin: nat): BgpPath {
    BgpPath(origin, [], 0, None, None, false, 0, [], 0, [], [], 0, None, 0)
  }

  const A := Attrs(0)
  const B := Attrs(1)

  function EntryOf(a: BgpPath, version: nat): Entry {
    Entry(a, Some(a), version, false)
  }

  function BucketFor(a: BgpPath): Bucket {
    Bucket(Some(a), IPv4, false)
  }

  function ChangeTo(k: Key, version: nat, a: BgpPath): Change {
    Announce(k, version, a, Some(a), false, true)
  }

  // ---------------------------------------------------------------- up and dumped

  const G1 := Fresh({IPv4}).(peers := map[1 := FRESH_PEER], sync := {1}, numInSync := 1)

  const R2: Table := map[K1 := EntryOf(A, 1), K2 := EntryOf(A, 1)]
  const L2: Packing := map[BucketFor(A) := {K1, K2}]
  const P2 := FRESH_PEER.(state := JoinedRunning, lastSeen := 1, owes := {IPv4}, debt := {K1, K2}, eorMarked := multiset{IPv4})
  const G2 := G1.(initialized := true, routes := R2, lastSeen := 1, packing := L2, peers := map[1 := P2],
                  eorPeers := {1}, postOut := 2)

  const WALK: seq<Change> := [ChangeTo(K1, 1, A), ChangeTo(K2, 1, A)]

  lemma WalkRoutes(t: Table, pl: Packing)
    requires t == map[K1 := EntryOf(A, 1)] && pl == map[BucketFor(A) := {K1}]
    ensures Process(RibOut(map[], map[]), ChangeTo(K1, 1, A), false) == RibOut(t, pl)
    ensures Process(RibOut(t, pl), ChangeTo(K2, 1, A), false) == RibOut(R2, L2)
  {
    assert {K1} + {K2} == {K1, K2};
    assert t[K2 := EntryOf(A, 1)] == R2;
    assert pl[BucketFor(A) := {K1, K2}] == L2;
  }

  lemma NoneDetached(peers: map<PeerId, Peer>, routes: Table, k: Key)
    ensures LazyClone(peers, {}, routes, k) == peers
  {
  }

  lemma TwoChanges(g: Group, c: Change, d: Change)
    ensures ProcessAll(g, [c, d]) == ProcessForGroup(ProcessForGroup(g, c), d)
  {
    var h := ProcessForGroup(g, c);
    assert [c, d][1..] == [d] && [d][1..] == [];
    assert ProcessAll(h, [d]) == ProcessAll(ProcessForGroup(h, d), []);
  }

  lemma WalkDumps()
    ensures ProcessAll(G1, WALK) == G1.(routes := R2, packing := L2, postOut := 2)
  {
    var t, pl := map[K1 := EntryOf(A, 1)], map[BucketFor(A) := {K1}];
    WalkRoutes(t, pl);
    NoneDetached(G1.peers, map[], K1);
    NoneDetached(G1.peers, t, K2);
    TwoChanges(G1, WALK[0], WALK[1]);
    assert ProcessForGroup(G1, WALK[0]) == G1.(routes := t, packing := pl, postOut := 1);
  }

  lemma MarkedPeer()
    ensures MarkOwed(FRESH_PEER, {IPv4}, PendingKeys(L2)).(lastSeen := 1) == P2
  {
    assert BucketFor(A) in L2 && L2[BucketFor(A)] == {K1, K2};
    assert PendingKeys(L2) == {K1, K2};
    assert {} + {K1, K2} == {K1, K2};
    assert multiset{} + multiset({IPv4}) == multiset{IPv4};
  }

  lemma DumpStep()
    ensures Dump(G1, WALK, 1) == G2
  {
    WalkDumps();
    MarkedPeer();
    var h := Dump(G1, WALK, 1);
    assert h.peers[1] == P2;
    assert h.peers == map[1 := P2];
    assert h.eorPeers == {1};
  }

  // ---------------------------------------------------------------- detached and drained

  const P3 := P2.(state := DetachedRunning, packing := L2, detachVersion := 1, postOut := 2)
  const G3 := G2.(peers := map[1 := P3], sync := {}, detached := {1}, eorPeers := {}, numInSync := 0,
                  numDetachedAfterJoin := 1, packing := map[])
  const P4 := P3.(packing := map[], sent := map[K1 := A, K2 := A], debt := {})
  const G4 := G3.(peers := map[1 := P4])

  lemma DetachStep()
    ensures Detach(G2, 1) == G3
  {
    var h := LeftSync(G2, 1);
    assert h.peers == map[1 := P3];
    assert h.sync == {} && h.detached == {1} && h.eorPeers == {} && h.blocked == {};
  }

  lemma DrainStep()
    ensures PeerSend(G3, 1, BucketFor(A), {K1, K2}) == G4
  {
    assert TakeFrom(L2, BucketFor(A), {K1, K2}) == map[];
    assert Receive(map[], Update(Some(A), {K1, K2})) == P4.sent;
    assert {K1, K2} - {K1, K2} == {};
    assert map[1 := P3][1 := P4] == map[1 := P4];
  }

  // ---------------------------------------------------------------- one path changed by both

  const C5 := ChangeTo(K1, 2, B)
  const R5: Table := map[K1 := EntryOf(B, 2), K2 := EntryOf(A, 1)]
  const P5 := P4.(own := map[K1 := EntryOf(A, 1)])
  const G5 := G4.(routes := R5, lastSeen := 2, peers := map[1 := P5])

  const P6 := P5.(own := map[K1 := EntryOf(B, 2)], packing := map[BucketFor(B) := {K1}], lastSeen := 2)
  const G6 := G5.(peers := map[1 := P6])
  const P7 := P6.(packing := map[], sent := map[K1 := B, K2 := A])
  const G7 := G6.(peers := map[1 := P7])
  const P8 := P7.(state := DetachedReadyToJoin)
  const G8 := G7.(peers := map[1 := P8])

  lemma OneChange(g: Group, c: Change)
    ensures ProcessAll(g, [c]) == ProcessForGroup(g, c)
  {
    assert [c][1..] == [];
  }

  lemma GroupChanges()
    ensures Consume(G4, [C5], 2) == G5
  {
    OneChange(G4, C5);
    assert R2[K1 := EntryOf(B, 2)] == R5;
    assert LazyClone(G4.peers, {1}, R2, K1) == map[1 := P5];
  }

  lemma PeerChanges()
    ensures ProcessForPeer(G5, 1, C5, false) == G6
  {
    assert Repack(map[], K1, Some(A), Some(B), false) == map[BucketFor(B) := {K1}];
    assert P5.own[K1 := EntryOf(B, 2)] == P6.own;
    assert map[1 := P5][1 := P6] == map[1 := P6];
  }

  lemma PeerDrains()
    ensures PeerSend(G6, 1, BucketFor(B), {K1}) == G7
  {
    assert TakeFrom(P6.packing, BucketFor(B), {K1}) == map[];
    assert Receive(P6.sent, Update(Some(B), {K1})) == P7.sent;
    assert {} - {K1} == {};
    assert map[1 := P6][1 := P7] == map[1 := P7];
  }

  lemma PeerWaits()
    ensures PeerTurns(G7, 1, DetachedReadyToJoin) == G8
  {
    assert map[1 := P7][1 := P8] == map[1 := P8];
  }

  lemma ReadyEnabled()
    ensures Enabled(G8, PeersCollapsed({1}))
  {
    assert Candidate(G8, 1);
  }

  lemma ReadyShows()
    ensures TableOf(G8, 1) == R5
  {
    assert View(P8.own, R5, 1) == R5;
  }

  lemma NotAccepted(g: Group, p: PeerId)
    requires p in g.peers && p !in g.sync && Corrections(g.peers[p], g.routes) != map[]
    ensures p !in Accept(g, {p}).sync
  {
  }

  lemma RefusedFor()
    ensures Corrections(P8, R5) != map[]
  {
    assert HasPrefix(P8.own, X) by { assert K1 in P8.own; }
    assert Correction(P8, R5, K2).Some?;
    assert K2 in Corrections(P8, R5);
  }

  // ---------------------------------------------------------------- on the change list

  /** Everything but one origin may be announced, and the policy lets everything through. */
  const CTL := Control(true, {IPv4}, (k: Key, a: BgpPath) => a.origin != 2, (k: Key, a: BgpPath) => Decision(Some(a), false))

  const PATHS1: map<PathId, PathState> := map[1 := PathState(Some(A), 1), 2 := PathState(Some(A), 1)]
  const ENTRY1 := ShadowEntry(1, NO_PATH, PATHS1)
  const PATHS2: map<PathId, PathState> := map[1 := PathState(Some(B), 2), 2 := PathState(Some(A), 1)]
  const ENTRY2 := ShadowEntry(2, NO_PATH, PATHS2)

  /** One group under `CTL`, and where it and one of its peers stand. */
  ghost predicate Stage(n: Net, entry: ShadowEntry, g: Group, at: Option<nat>, p: PeerId, seen: Option<nat>) {
    && n.groups == map[0 := g] && n.shadow == map[X := entry] && n.top == entry.version
    && 0 in n.control && n.control[0] == CTL
    && (0 in n.at <==> at.Some?) && (at.Some? ==> n.at[0] == at.value)
    && (p in n.seen <==> seen.Some?) && (seen.Some? ==> n.seen[p] == seen.value) && p !in n.under
    && OfGroup(0) !in n.joined
  }

  /** The step may be taken, and leads to such a stage. */
  ghost predicate To(n: Net, e: NetEvent, entry: ShadowEntry, g: Group, at: Option<nat>, p: PeerId, seen: Option<nat>) {
    NetEnabled(n, e) && Stage(NetStep(n, e), entry, g, at, p, seen)
  }

  lemma SteppedIs(n: Net, e: Event)
    requires NetEnabled(n, GroupStepped(0, e))
    ensures 0 in n.groups && Enabled(n.groups[0], e) && (e.PeerPromoted? ==> e.p in n.seen)
    ensures NetStep(n, GroupStepped(0, e)) == Stepped(n, 0, e, Step(n.groups[0], e))
  {
  }

  /** Where the peer stands after a step of its group. */
  function SeatAfter(g: Group, e: Event, h: Group, at: Option<nat>, p: PeerId, seen: Option<nat>): Option<nat> {
    if StandsWithGroup(g, e, h, p) then at else if KeepsConsumer(g, h, p) then seen else None
  }

  lemma SteppedStage(n: Net, entry: ShadowEntry, g: Group, at: Option<nat>, p: PeerId, seen: Option<nat>, e: Event, h: Group)
    requires Stage(n, entry, g, at, p, seen) && !e.PeerPromoted?
    ensures Stage(Stepped(n, 0, e, h), entry, h, at, p, SeatAfter(g, e, h, at, p, seen))
  {
    assert map[0 := g][0 := h] == map[0 := h];
  }

  /** A step that has nothing to do with the list. */
  lemma StepStage(n: Net, entry: ShadowEntry, g: Group, at: Option<nat>, p: PeerId, seen: Option<nat>, e: Event, h: Group)
    requires Stage(n, entry, g, at, p, seen) && NetEnabled(n, GroupStepped(0, e)) && Enabled(g, e) && Step(g, e) == h
    requires !e.PeerPromoted?
    ensures To(n, GroupStepped(0, e), entry, h, at, p, SeatAfter(g, e, h, at, p, seen))
  {
    SteppedIs(n, e);
    SteppedStage(n, entry, g, at, p, seen, e, h);
  }

  predicate Plain(e: Event) {
    e.PeerSent? || e.PeerTurned? || e.PeerDetached? || e.PeerUnregistered? || e.BuildStarted? || e.UpdateSent?
  }

  lemma PlainEnabled(n: Net, entry: ShadowEntry, g: Group, at: Option<nat>, p: PeerId, seen: Option<nat>, e: Event)
    requires Stage(n, entry, g, at, p, seen) && Plain(e) && Enabled(g, e)
    ensures NetEnabled(n, GroupStepped(0, e))
  {
  }

  lemma PlainStage(n: Net, entry: ShadowEntry, g: Group, at: Option<nat>, p: PeerId, seen: Option<nat>, e: Event, h: Group)
    requires Stage(n, entry, g, at, p, seen) && Plain(e) && Enabled(g, e) && Step(g, e) == h
    ensures To(n, GroupStepped(0, e), entry, h, at, p, SeatAfter(g, e, h, at, p, seen))
  {
    PlainEnabled(n, entry, g, at, p, seen, e);
    StepStage(n, entry, g, at, p, seen, e, h);
  }

  const N1 := START.(shadow := map[X := ENTRY1], top := 1)

  lemma FirstStage()
    ensures Goes(START, Published(X, ENTRY1), N1)
  {
  }

  lemma CreatedStage(p: PeerId)
    ensures To(N1, GroupCreated(0, CTL), ENTRY1, Fresh({IPv4}), None, p, None)
  {
  }

  lemma RegisterStage(n: Net, p: PeerId)
    requires Stage(n, ENTRY1, Fresh({IPv4}), None, p, None)
    ensures To(n, GroupStepped(0, PeerRegistered(1)), ENTRY1, G1, None, p, None)
  {
    assert !Known(n.groups, 1);
    StepStage(n, ENTRY1, Fresh({IPv4}), None, p, None, PeerRegistered(1), G1);
  }

  lemma DumpedIs(n: Net, ctl: Control, cs: seq<Change>)
    requires CanGroupDump(n, 0, ctl, cs)
    ensures NetEnabled(n, GroupDumped(0, ctl, cs))
    ensures NetStep(n, GroupDumped(0, ctl, cs)) ==
      ToTheEnd(n, 0, Dump(n.groups[0], cs, n.top), ctl, n.groups[0].detached)
  {
  }

  lemma EndStage(n: Net, entry: ShadowEntry, g: Group, at: Option<nat>, p: PeerId, seen: Option<nat>, h: Group,
                 outdated: set<PeerId>)
    requires Stage(n, entry, g, at, p, seen) && p !in outdated
    ensures Stage(ToTheEnd(n, 0, h, CTL, outdated), entry, h, Some(entry.version), p, seen)
  {
    assert map[0 := g][0 := h] == map[0 := h];
  }

  lemma DumpedStage(n: Net, entry: ShadowEntry, g: Group, p: PeerId, cs: seq<Change>, h: Group)
    requires Stage(n, entry, g, None, p, None) && !g.initialized && p !in g.detached
    requires FromShadow(CTL, map[X := entry], cs) && Walks(CTL, map[X := entry], cs) && Dump(g, cs, entry.version) == h
    ensures To(n, GroupDumped(0, CTL, cs), entry, h, Some(entry.version), p, None)
  {
    DumpedIs(n, CTL, cs);
    EndStage(n, entry, g, None, p, None, h, g.detached);
  }

  lemma WalkFromShadow(s: Shadow)
    requires s == map[X := ENTRY1]
    ensures FromShadow(CTL, s, WALK) && Walks(CTL, s, WALK)
  {
    assert WALK[0] == ChangeOf(CTL, s, K1) && WALK[1] == ChangeOf(CTL, s, K2);
    forall k | PathOf(s, true, k).attrs.Some?
      ensures Touches(WALK, k)
    {
      assert k == K1 || k == K2;
      assert WALK[0].key == K1 && WALK[1].key == K2;
    }
  }

  lemma DumpStage(n: Net, p: PeerId)
    requires Stage(n, ENTRY1, G1, None, p, None)
    ensures To(n, GroupDumped(0, CTL, WALK), ENTRY1, G2, Some(1), p, None)
  {
    DumpStep();
    WalkFromShadow(map[X := ENTRY1]);
    DumpedStage(n, ENTRY1, G1, p, WALK, G2);
  }

  lemma DetachStage(n: Net)
    requires Stage(n, ENTRY1, G2, Some(1), 1, None)
    ensures To(n, GroupStepped(0, PeerDetached(1)), ENTRY1, G3, Some(1), 1, Some(1))
  {
    DetachStep();
    PlainStage(n, ENTRY1, G2, Some(1), 1, None, PeerDetached(1), G3);
  }

  lemma DrainStage(n: Net)
    requires Stage(n, ENTRY1, G3, Some(1), 1, Some(1))
    ensures To(n, GroupStepped(0, PeerSent(1, BucketFor(A), {K1, K2})), ENTRY1, G4, Some(1), 1, Some(1))
  {
    var e := PeerSent(1, BucketFor(A), {K1, K2});
    DrainStep();
    PlainStage(n, ENTRY1, G3, Some(1), 1, Some(1), e, G4);
  }

  lemma PublishStage(n: Net, entry: ShadowEntry, g: Group, at: Option<nat>, p: PeerId, seen: Option<nat>, entry': ShadowEntry)
    requires Stage(n, entry, g, at, p, seen) && entry'.version > entry.version
    requires forall id :: Flagged(PathOf(n.shadow, true, Key(X, id)), PathOf(map[X := entry'], true, Key(X, id)), entry'.version)
    requires entry'.best == entry.best
    ensures To(n, Published(X, entry'), entry', g, at, p, seen)
  {
    assert n.shadow[X := entry'] == map[X := entry'];
  }

  lemma ConsumedIs(n: Net, cs: seq<Change>)
    requires CanGroupConsume(n, 0, cs)
    ensures NetEnabled(n, GroupConsumed(0, cs))
    ensures NetStep(n, GroupConsumed(0, cs)) == ToTheEnd(n, 0, Consume(n.groups[0], cs, n.top), n.control[0], {})
  {
  }

  lemma ConsumeStage(n: Net, entry: ShadowEntry, g: Group, v: nat, p: PeerId, seen: Option<nat>, cs: seq<Change>, h: Group)
    requires Stage(n, entry, g, Some(v), p, seen) && g.initialized && Consume(g, cs, entry.version) == h
    requires FromShadow(CTL, map[X := entry], cs) && Covers(CTL, map[X := entry], cs, v, entry.version)
    ensures To(n, GroupConsumed(0, cs), entry, h, Some(entry.version), p, seen)
  {
    ConsumedIs(n, cs);
    EndStage(n, entry, g, Some(v), p, seen, h, {});
  }

  lemma PeerConsumedIs(n: Net, p: PeerId, to: nat, cs: seq<Change>)
    requires CanPeerConsume(n, 0, p, to, cs)
    ensures NetEnabled(n, PeerConsumed(0, p, to, cs))
    ensures NetStep(n, PeerConsumed(0, p, to, cs)) ==
      PeerTo(n, 0, ProcessAllForPeer(n.groups[0], p, cs, false), p, to, false)
  {
  }

  lemma PeerToStage(n: Net, entry: ShadowEntry, g: Group, at: Option<nat>, p: PeerId, seen: Option<nat>, h: Group, done: bool)
    requires Stage(n, entry, g, at, p, seen)
    ensures Stage(PeerTo(n, 0, h, p, entry.version, done), entry, h, at, p, Some(entry.version))
  {
    assert map[0 := g][0 := h] == map[0 := h];
  }

  lemma PeerConsumeStage(n: Net, entry: ShadowEntry, g: Group, p: PeerId, v: nat, cs: seq<Change>, h: Group)
    requires Stage(n, entry, g, Some(entry.version), p, Some(v)) && v <= entry.version
    requires p in g.detached && p in g.peers && !g.peers[p].state.DetachedReadyToJoin?
    requires FromShadow(CTL, map[X := entry], cs) && Covers(CTL, map[X := entry], cs, v, entry.version)
    requires forall c | c in cs :: c.version <= entry.version
    requires ProcessAllForPeer(g, p, cs, false) == h
    ensures To(n, PeerConsumed(0, p, entry.version, cs), entry, h, Some(entry.version), p, Some(entry.version))
  {
    PeerConsumedIs(n, p, entry.version, cs);
    PeerToStage(n, entry, g, Some(entry.version), p, Some(v), h, false);
  }

  lemma SecondFlagged(s: Shadow)
    requires s == map[X := ENTRY1]
    ensures forall id :: Flagged(PathOf(s, true, Key(X, id)), PathOf(map[X := ENTRY2], true, Key(X, id)), 2)
  {
  }

  lemma SecondDue(s: Shadow)
    requires s == map[X := ENTRY2]
    ensures FromShadow(CTL, s, [C5]) && Covers(CTL, s, [C5], 1, 2)
  {
    assert C5 == ChangeOf(CTL, s, K1);
    forall k | !Passed(CTL, s, 1, k) && Passed(CTL, s, 2, k)
      ensures Touches([C5], k)
    {
      assert k == K1;
      assert C5 in [C5];
    }
  }

  lemma ChangedStage(n: Net)
    requires Stage(n, ENTRY2, G4, Some(1), 1, Some(1))
    ensures To(n, GroupConsumed(0, [C5]), ENTRY2, G5, Some(2), 1, Some(1))
  {
    SecondDue(map[X := ENTRY2]);
    GroupChanges();
    ConsumeStage(n, ENTRY2, G4, 1, 1, Some(1), [C5], G5);
  }

  lemma PeerChangedStage(n: Net)
    requires Stage(n, ENTRY2, G5, Some(2), 1, Some(1))
    ensures To(n, PeerConsumed(0, 1, 2, [C5]), ENTRY2, G6, Some(2), 1, Some(2))
  {
    SecondDue(map[X := ENTRY2]);
    PeerChanges();
    assert [C5][1..] == [];
    assert ProcessAllForPeer(G5, 1, [C5], false) == G6;
    PeerConsumeStage(n, ENTRY2, G5, 1, 1, [C5], G6);
  }

  lemma SentStage(n: Net)
    requires Stage(n, ENTRY2, G6, Some(2), 1, Some(2))
    ensures To(n, GroupStepped(0, PeerSent(1, BucketFor(B), {K1})), ENTRY2, G7, Some(2), 1, Some(2))
  {
    PeerDrains();
    PlainStage(n, ENTRY2, G6, Some(2), 1, Some(2), PeerSent(1, BucketFor(B), {K1}), G7);
  }

  lemma ReadyStage(n: Net)
    requires Stage(n, ENTRY2, G7, Some(2), 1, Some(2))
    ensures To(n, GroupStepped(0, PeerTurned(1, DetachedReadyToJoin)), ENTRY2, G8, Some(2), 1, Some(2))
  {
    PeerWaits();
    PlainStage(n, ENTRY2, G7, Some(2), 1, Some(2), PeerTurned(1, DetachedReadyToJoin), G8);
  }

  // ---------------------------------------------------------------- the runs

  ghost predicate Reaches(es: seq<NetEvent>, n: Net) {
    NetRuns(START, es) && NetRun(START, es) == n
  }

  lemma {:induction false} Appended(n: Net, es: seq<NetEvent>, e: NetEvent)
    requires NetRuns(n, es) && NetEnabled(NetRun(n, es), e)
    ensures NetRuns(n, es + [e]) && NetRun(n, es + [e]) == NetStep(NetRun(n, es), e)
    decreases es
  {
    if es == [] {
      assert es + [e] == [e] && [e][1..] == [];
      assert NetRun(NetStep(n, e), []) == NetStep(n, e);
    } else {
      Appended(NetStep(n, es[0]), es[1..], e);
      assert (es + [e])[1..] == es[1..] + [e];
    }
  }

  lemma Next(es: seq<NetEvent>, n: Net, e: NetEvent)
    requires Reaches(es, n) && NetEnabled(n, e)
    ensures Reaches(es + [e], NetStep(n, e))
  {
    Appended(START, es, e);
  }

  lemma DumpedRun(p: PeerId) returns (es: seq<NetEvent>, n: Net)
    ensures Reaches(es, n) && Stage(n, ENTRY1, G2, Some(1), p, None)
  {
    es, n := [], START;
    FirstStage();
    es, n := UpTo(es, n, Published(X, ENTRY1));
    CreatedStage(p);
    es, n := UpTo(es, n, GroupCreated(0, CTL));
    RegisterStage(n, p);
    es, n := UpTo(es, n, GroupStepped(0, PeerRegistered(1)));
    DumpStage(n, p);
    es, n := UpTo(es, n, GroupDumped(0, CTL, WALK));
  }

  lemma DetachedRun() returns (es: seq<NetEvent>, n: Net)
    ensures Reaches(es, n) && Stage(n, ENTRY1, G3, Some(1), 1, Some(1))
  {
    es, n := DumpedRun(1);
    DetachStage(n);
    es, n := UpTo(es, n, GroupStepped(0, PeerDetached(1)));
  }

  lemma UpTo(es: seq<NetEvent>, n: Net, e: NetEvent) returns (fs: seq<NetEvent>, m: Net)
    requires Reaches(es, n) && NetEnabled(n, e)
    ensures fs == es + [e] && m == NetStep(n, e) && Reaches(fs, m)
  {
    fs, m := es + [e], NetStep(n, e);
    Next(es, n, e);
  }

  lemma ReadyRun() returns (es: seq<NetEvent>, n: Net)
    ensures Reaches(es, n) && Stage(n, ENTRY2, G8, Some(2), 1, Some(2))
  {
    es, n := DetachedRun();
    DrainStage(n);
    es, n := UpTo(es, n, GroupStepped(0, PeerSent(1, BucketFor(A), {K1, K2})));
    SecondFlagged(n.shadow);
    PublishStage(n, ENTRY1, G4, Some(1), 1, Some(1), ENTRY2);
    es, n := UpTo(es, n, Published(X, ENTRY2));
    ChangedStage(n);
    es, n := UpTo(es, n, GroupConsumed(0, [C5]));
    PeerChangedStage(n);
    es, n := UpTo(es, n, PeerConsumed(0, 1, 2, [C5]));
    SentStage(n);
    es, n := UpTo(es, n, GroupStepped(0, PeerSent(1, BucketFor(B), {K1})));
    ReadyStage(n);
    es, n := UpTo(es, n, GroupStepped(0, PeerTurned(1, DetachedReadyToJoin)));
  }

  lemma CollapseStage(n: Net, entry: ShadowEntry, g: Group, v: nat, p: PeerId, w: nat)
    requires Stage(n, entry, g, Some(v), p, Some(w)) && Enabled(g, PeersCollapsed({p}))
    requires AtEnd(CTL, map[X := entry], v) && AtEnd(CTL, map[X := entry], w)
    ensures NetEnabled(n, GroupStepped(0, PeersCollapsed({p})))
  {
  }

  lemma SteppedGroups(n: Net, g: Group, e: Event)
    requires n.groups == map[0 := g] && Enabled(g, e) && NetEnabled(n, GroupStepped(0, e))
    ensures NetStep(n, GroupStepped(0, e)).groups == map[0 := Step(g, e)]
  {
    SteppedIs(n, e);
  }

  lemma SecondEnds(s: Shadow)
    requires s == map[X := ENTRY2]
    ensures AtEnd(CTL, s, 2)
  {
  }

  /** A run ends in a state in which a peer that shows exactly its group's routes may rejoin and is sent back. */
  lemma SameButRefused() returns (es: seq<NetEvent>, n: Net)
    ensures NetRuns(START, es) && NetRun(START, es) == n
    ensures 0 in n.groups && 1 in n.groups[0].peers && TableOf(n.groups[0], 1) == n.groups[0].routes
    ensures
      var e := GroupStepped(0, PeersCollapsed({1}));
      NetEnabled(n, e) && 0 in NetStep(n, e).groups && 1 !in NetStep(n, e).groups[0].sync
  {
    es, n := ReadyRun();
    ReadyEnabled();
    ReadyShows();
    RefusedFor();
    NotAccepted(G8, 1);
    SecondEnds(map[X := ENTRY2]);
    CollapseStage(n, ENTRY2, G8, 2, 1, 2);
    SteppedGroups(n, G8, PeersCollapsed({1}));
  }

  // ---------------------------------------------------------------- a refresh walk

  const REFUSED := Attrs(2)
  const PATHS3: map<PathId, PathState> := map[1 := PathState(Some(REFUSED), 2), 2 := PathState(Some(A), 1)]
  const ENTRY3 := ShadowEntry(2, NO_PATH, PATHS3)
  const NOW_REFUSED := Announce(K1, 2, REFUSED, Some(REFUSED), false, false)

  lemma ThirdFlagged(s: Shadow)
    requires s == map[X := ENTRY1]
    ensures forall id :: Flagged(PathOf(s, true, Key(X, id)), PathOf(map[X := ENTRY3], true, Key(X, id)), 2)
  {
  }

  lemma RefreshWalks()
    ensures K1 in TableOf(ProcessForPeer(G3, 1, NOW_REFUSED, true), 1)
    ensures K1 !in Process(RibOut(TableOf(G3, 1), P3.packing), NOW_REFUSED, true).table
  {
    assert View(P3.own, R2, 1) == R2;
    var h := ProcessForPeer(G3, 1, NOW_REFUSED, true);
    assert Writable(P3, R2, K1) == map[K1 := EntryOf(A, 1)];
    assert K1 !in h.peers[1].own;
  }

  /**
    A run ends in a state in which a refresh walk meets a route the checks have come to refuse,
    and the group's entry, which the peer still shares, shows through again.
   */
  lemma RefreshReveals() returns (es: seq<NetEvent>, n: Net, c: Change)
    ensures NetRuns(START, es) && NetRun(START, es) == n
    ensures Consuming(n, 0, 1) && FromShadow(n.control[0], n.shadow, [c])
    ensures c.key in TableOf(ProcessForPeer(n.groups[0], 1, c, true), 1)
    ensures c.key !in Process(RibOut(TableOf(n.groups[0], 1), n.groups[0].peers[1].packing), c, true).table
  {
    es, n := RefusedRun();
    c := NOW_REFUSED;
    RefreshWalks();
    RefusedFromShadow(n.shadow);
  }

  lemma RefusedFromShadow(s: Shadow)
    requires s == map[X := ENTRY3]
    ensures FromShadow(CTL, s, [NOW_REFUSED])
  {
    assert NOW_REFUSED == ChangeOf(CTL, s, K1);
  }

  lemma RefusedRun() returns (es: seq<NetEvent>, n: Net)
    ensures Reaches(es, n) && Stage(n, ENTRY3, G3, Some(1), 1, Some(1))
  {
    es, n := DetachedRun();
    ThirdFlagged(n.shadow);
    PublishStage(n, ENTRY1, G3, Some(1), 1, Some(1), ENTRY3);
    es, n := UpTo(es, n, Published(X, ENTRY3));
  }

  // ---------------------------------------------------------------- a new policy

  /** The policy that lets nothing through. */
  const CLOSED := CTL.(policy := (k: Key, a: BgpPath) => Decision(None, false))
  const DENIED := Announce(K1, 2, B, None, false, true)

  lemma DeniedDue(s: Shadow)
    requires s == map[X := ENTRY2]
    ensures FromShadow(CLOSED, s, [DENIED]) && WalksExactly(CLOSED, s, [DENIED], 1, {})
    ensures Decided(CLOSED, s, K2) == None
  {
    assert DENIED == ChangeOf(CLOSED, s, K1);
    assert !Passed(CLOSED, s, 1, Key(X, 1));
    assert Due(CLOSED, s, 1, X);
    forall k
      ensures Touches([DENIED], k) <==>
        (PathOf(s, true, k).attrs.Some? && !Carries(CLOSED, s, 1, {}, k.prefix)) || !Passed(CLOSED, s, 1, k)
    {
      assert DENIED in [DENIED];
      assert Touches([DENIED], k) <==> k == K1;
    }
  }

  lemma DeniedConsumes()
    ensures Post(Consume(G3, [DENIED], 2).routes, K2) == Some(A)
  {
    OneChange(G3, DENIED);
  }

  /**
    A run ends in a state in which a re-evaluation under a policy that lets nothing through, with
    its walk and its drain, leaves a route advertised.
   */
  lemma HalfDueStays() returns (es: seq<NetEvent>, n: Net, ctl: Control, cs: seq<Change>)
    ensures NetRuns(START, es) && NetRun(START, es) == n
    ensures 0 in n.groups && n.groups[0].initialized && 0 in n.control && 0 in n.at
    ensures ctl == n.control[0].(policy := ctl.policy)
    ensures FromShadow(ctl, n.shadow, cs) && WalksExactly(ctl, n.shadow, cs, n.at[0], JoinedOf(n, OfGroup(0)))
    ensures Decided(ctl, n.shadow, K2) == None && Post(Consume(n.groups[0], cs, n.top).routes, K2) == Some(A)
  {
    es, n := DetachedRun();
    SecondFlagged(n.shadow);
    PublishStage(n, ENTRY1, G3, Some(1), 1, Some(1), ENTRY2);
    es, n := UpTo(es, n, Published(X, ENTRY2));
    ctl, cs := CLOSED, [DENIED];
    DeniedDue(n.shadow);
    DeniedConsumes();
  }

  // ---------------------------------------------------------------- a promotion

  const K3 := Key(X, 3)
  const PATHS4: map<PathId, PathState> :=
    map[1 := PathState(Some(A), 1), 2 := PathState(Some(A), 1), 3 := PathState(Some(A), 2)]
  const ENTRY4 := ShadowEntry(2, NO_PATH, PATHS4)
  const ADDED := ChangeTo(K3, 2, A)

  // A second peer comes up, is dumped and drained; the group goes on, and loses its first peer.
  const Q1 := FRESH_PEER.(state := DetachedInitDump, onRegistration := true)
  const H1 := G2.(peers := map[1 := P2, 2 := Q1], detached := {2})
  const Q2 := Q1.(own := R2, packing := L2, lastSeen := 1, postOut := 2)
  const H2 := H1.(peers := map[1 := P2, 2 := Q2])
  const Q3 := Q2.(packing := map[], sent := map[K1 := A, K2 := A])
  const H3 := H2.(peers := map[1 := P2, 2 := Q3])
  const R4: Table := map[K1 := EntryOf(A, 1), K2 := EntryOf(A, 1), K3 := EntryOf(A, 2)]
  const L4: Packing := map[BucketFor(A) := {K1, K2, K3}]
  const H4 := H3.(routes := R4, lastSeen := 2, packing := L4, postOut := 3)
  const H5 := H4.(peers := map[2 := Q3], sync := {}, eorPeers := {}, numInSync := 0, packing := map[])
  const Q6 := Q3.(state := DetachedReadyToJoin)
  const H6 := H5.(peers := map[2 := Q6])

  // It is promoted, behind what the group saw, and detaches.
  const Q7 := Q6.(state := JoinedRunning, own := map[], onRegistration := false, postOut := 0)
  const H7 := H6.(routes := R2, postOut := 2, peers := map[2 := Q7], sync := {2}, detached := {}, numInSync := 1)
  const Q8 := Q7.(state := DetachedRunning, lastSeen := 2, detachVersion := 2, postOut := 2)
  const H8 := H7.(peers := map[2 := Q8], sync := {}, detached := {2}, numInSync := 0, numDetachedAfterJoin := 1)

  lemma JoinStep()
    ensures Register(G2, 2) == H1
  {
    assert map[1 := P2][2 := Q1] == H1.peers;
    assert {} + {2} == {2};
  }

  lemma TwoOwnChanges(g: Group, p: PeerId, c: Change, d: Change)
    requires p in g.peers
    ensures
      var h := ProcessForPeer(g, p, c, false);
      ProcessAllForPeer(g, p, [c, d], false) == ProcessForPeer(h, p, d, false)
  {
    var h := ProcessForPeer(g, p, c, false);
    assert [c, d][1..] == [d] && [d][1..] == [];
    assert ProcessAllForPeer(h, p, [d], false) == ProcessAllForPeer(ProcessForPeer(h, p, d, false), p, [], false);
  }

  lemma OwnWalk(q: Peer)
    requires q == Q1.(own := map[K1 := EntryOf(A, 1)], packing := map[BucketFor(A) := {K1}], lastSeen := 1, postOut := 1)
    ensures AfterChange(Q1, R2, WALK[0], false) == q && AfterChange(q, R2, WALK[1], false) == Q2
  {
    WalkRoutes(q.own, q.packing);
  }

  lemma PeerDumpStep()
    ensures ProcessAllForPeer(H1, 2, WALK, false) == H2
  {
    var q := Q1.(own := map[K1 := EntryOf(A, 1)], packing := map[BucketFor(A) := {K1}], lastSeen := 1, postOut := 1);
    OwnWalk(q);
    TwoOwnChanges(H1, 2, WALK[0], WALK[1]);
    assert H1.peers[2 := q][2 := Q2] == H2.peers;
  }

  lemma PeerDrainStep()
    ensures PeerSend(H2, 2, BucketFor(A), {K1, K2}) == H3
  {
    assert TakeFrom(L2, BucketFor(A), {K1, K2}) == map[];
    assert Receive(map[], Update(Some(A), {K1, K2})) == Q3.sent;
    assert {} - {K1, K2} == {};
    assert H2.peers[2 := Q3] == H3.peers;
  }

  lemma AddedQueued()
    ensures Process(RibOut(R2, L2), ADDED, false) == RibOut(R4, L4)
  {
    assert R2[K3 := EntryOf(A, 2)] == R4;
    assert {K1, K2} + {K3} == {K1, K2, K3};
    assert L2[BucketFor(A) := {K1, K2, K3}] == L4;
    assert Repack(L2, K3, None, Some(A), false) == L4;
  }

  lemma AddStep()
    ensures Consume(H3, [ADDED], 2) == H4
  {
    OneChange(H3, ADDED);
    AddedQueued();
    assert LazyClone(H3.peers, {2}, R2, K3) == H3.peers;
  }

  lemma LoseStep()
    ensures Unregister(H4, 1) == H5
  {
    var h := Without(H4, 1);
    assert h.peers == map[2 := Q3];
    assert h.sync == {} && h.detached == {2} && h.eorPeers == {} && h.blocked == {};
  }

  lemma WaitStep()
    ensures PeerTurns(H5, 2, DetachedReadyToJoin) == H6
  {
    assert map[2 := Q3][2 := Q6] == map[2 := Q6];
  }

  lemma PromoteStep()
    ensures CanPromote(H6, 2) && Promote(H6, 2) == H7
  {
    assert map[2 := Q6][2 := Q7] == map[2 := Q7];
    assert {} + {2} == {2} && {2} - {2} == {};
  }

  lemma LeaveStep()
    ensures Detach(H7, 2) == H8
  {
    assert map[2 := Q7][2 := Q8] == map[2 := Q8];
    assert {2} - {2} == {} && {} + {2} == {2} && {} - {2} == {};
  }

  lemma ShownUntold()
    ensures K3 !in TableOf(H8, 2)
    ensures 2 in Consume(H8, [ADDED], 2).peers && K3 in TableOf(Consume(H8, [ADDED], 2), 2)
  {
    OneChange(H8, ADDED);
    assert LazyClone(H8.peers, {2}, R2, K3)[2] == Q8;
  }

  lemma JoinStage(n: Net)
    requires Stage(n, ENTRY1, G2, Some(1), 2, None)
    ensures To(n, GroupStepped(0, PeerRegistered(2)), ENTRY1, H1, Some(1), 2, None)
  {
    assert !Known(n.groups, 2);
    JoinStep();
    StepStage(n, ENTRY1, G2, Some(1), 2, None, PeerRegistered(2), H1);
  }

  lemma PeerDumpedStage(n: Net, entry: ShadowEntry, g: Group, at: Option<nat>, p: PeerId, cs: seq<Change>, h: Group)
    requires Stage(n, entry, g, at, p, None)
    requires p in g.detached && p in g.peers && !g.peers[p].state.DetachedReadyToJoin?
    requires FromShadow(CTL, map[X := entry], cs) && Walks(CTL, map[X := entry], cs)
    requires ProcessAllForPeer(g, p, cs, false) == h
    ensures To(n, PeerDumped(0, p, cs), entry, h, at, p, Some(entry.version))
  {
    PeerToStage(n, entry, g, at, p, None, h, true);
  }

  lemma PeerDumpStage(n: Net)
    requires Stage(n, ENTRY1, H1, Some(1), 2, None)
    ensures To(n, PeerDumped(0, 2, WALK), ENTRY1, H2, Some(1), 2, Some(1))
  {
    PeerDumpStep();
    WalkFromShadow(map[X := ENTRY1]);
    PeerDumpedStage(n, ENTRY1, H1, Some(1), 2, WALK, H2);
  }

  lemma PeerDrainStage(n: Net)
    requires Stage(n, ENTRY1, H2, Some(1), 2, Some(1))
    ensures To(n, GroupStepped(0, PeerSent(2, BucketFor(A), {K1, K2})), ENTRY1, H3, Some(1), 2, Some(1))
  {
    PeerDrainStep();
    PlainStage(n, ENTRY1, H2, Some(1), 2, Some(1), PeerSent(2, BucketFor(A), {K1, K2}), H3);
  }

  lemma FourthFlagged(s: Shadow)
    requires s == map[X := ENTRY1]
    ensures forall id :: Flagged(PathOf(s, true, Key(X, id)), PathOf(map[X := ENTRY4], true, Key(X, id)), 2)
  {
  }

  lemma AddedDue(s: Shadow)
    requires s == map[X := ENTRY4]
    ensures FromShadow(CTL, s, [ADDED]) && Covers(CTL, s, [ADDED], 1, 2)
  {
    assert ADDED == ChangeOf(CTL, s, K3);
    forall k | !Passed(CTL, s, 1, k) && Passed(CTL, s, 2, k)
      ensures Touches([ADDED], k)
    {
      assert k == K3;
      assert ADDED in [ADDED];
    }
  }

  lemma AddStage(n: Net)
    requires Stage(n, ENTRY4, H3, Some(1), 2, Some(1))
    ensures To(n, GroupConsumed(0, [ADDED]), ENTRY4, H4, Some(2), 2, Some(1))
  {
    AddedDue(map[X := ENTRY4]);
    AddStep();
    ConsumeStage(n, ENTRY4, H3, 1, 2, Some(1), [ADDED], H4);
  }

  lemma LoseStage(n: Net)
    requires Stage(n, ENTRY4, H4, Some(2), 2, Some(1))
    ensures To(n, GroupStepped(0, PeerUnregistered(1)), ENTRY4, H5, Some(2), 2, Some(1))
  {
    LoseStep();
    PlainStage(n, ENTRY4, H4, Some(2), 2, Some(1), PeerUnregistered(1), H5);
  }

  lemma WaitStage(n: Net)
    requires Stage(n, ENTRY4, H5, Some(2), 2, Some(1))
    ensures To(n, GroupStepped(0, PeerTurned(2, DetachedReadyToJoin)), ENTRY4, H6, Some(2), 2, Some(1))
  {
    WaitStep();
    PlainStage(n, ENTRY4, H5, Some(2), 2, Some(1), PeerTurned(2, DetachedReadyToJoin), H6);
  }

  lemma BehindRun() returns (es: seq<NetEvent>, n: Net)
    ensures Reaches(es, n) && Stage(n, ENTRY4, H6, Some(2), 2, Some(1))
  {
    es, n := DumpedRun(2);
    JoinStage(n);
    es, n := UpTo(es, n, GroupStepped(0, PeerRegistered(2)));
    PeerDumpStage(n);
    es, n := UpTo(es, n, PeerDumped(0, 2, WALK));
    PeerDrainStage(n);
    es, n := UpTo(es, n, GroupStepped(0, PeerSent(2, BucketFor(A), {K1, K2})));
    FourthFlagged(n.shadow);
    PublishStage(n, ENTRY1, H3, Some(1), 2, Some(1), ENTRY4);
    es, n := UpTo(es, n, Published(X, ENTRY4));
    AddStage(n);
    es, n := UpTo(es, n, GroupConsumed(0, [ADDED]));
    LoseStage(n);
    es, n := UpTo(es, n, GroupStepped(0, PeerUnregistered(1)));
    WaitStage(n);
    es, n := UpTo(es, n, GroupStepped(0, PeerTurned(2, DetachedReadyToJoin)));
  }

  lemma PromotedStage(n: Net, entry: ShadowEntry, g: Group, at: Option<nat>, p: PeerId, v: nat, h: Group)
    requires Stage(n, entry, g, at, p, Some(v)) && p !in h.detached && p in h.peers
    ensures Stage(Stepped(n, 0, PeerPromoted(p), h), entry, h, Some(v), p, None)
  {
    assert map[0 := g][0 := h] == map[0 := h];
  }

  lemma DueAgain(n: Net, entry: ShadowEntry, g: Group, v: nat, p: PeerId, seen: Option<nat>, cs: seq<Change>)
    requires Stage(n, entry, g, Some(v), p, seen) && g.initialized
    requires FromShadow(CTL, map[X := entry], cs) && Covers(CTL, map[X := entry], cs, v, entry.version)
    ensures CanGroupConsume(n, 0, cs)
  {
  }

  /**
    A run ends in a state in which a peer that stands behind its group may be promoted.  If it
    is, and detaches, the change its group is due next shows up in a RIB-OUT nobody has told it.
   */
  lemma PromotedBehind() returns (es: seq<NetEvent>, n: Net, m: Net, l: Net, c: Change)
    ensures NetRuns(START, es) && NetRun(START, es) == n
    ensures 0 in n.groups && CanPromote(n.groups[0], 2) && 2 in n.seen && 2 !in n.under
    ensures m == Stepped(n, 0, PeerPromoted(2), Promote(n.groups[0], 2))
    ensures 0 in m.groups && 2 in m.groups[0].peers && 2 in m.groups[0].sync
    ensures l == Stepped(m, 0, PeerDetached(2), Detach(m.groups[0], 2))
    ensures CanGroupConsume(l, 0, [c]) && 2 in l.groups[0].peers && c.key !in TableOf(l.groups[0], 2)
    ensures
      var h := Consume(l.groups[0], [c], l.top);
      2 in h.peers && c.key in TableOf(h, 2)
  {
    es, n := BehindRun();
    PromoteStep();
    m := Stepped(n, 0, PeerPromoted(2), Promote(n.groups[0], 2));
    PromotedStage(n, ENTRY4, H6, Some(2), 2, 1, H7);
    LeaveStep();
    l := Stepped(m, 0, PeerDetached(2), Detach(m.groups[0], 2));
    SteppedStage(m, ENTRY4, H7, Some(1), 2, None, PeerDetached(2), H8);
    c := ADDED;
    AddedDue(map[X := ENTRY4]);
    DueAgain(l, ENTRY4, H8, 1, 2, Some(1), [ADDED]);
    ShownUntold();
  }
}
