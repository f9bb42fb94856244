/**
  A run of a best-path group.  A prefix it has passed is on the change list again for its other
  paths when the group is split, so it carries the bit of the new group.  A re-evaluation of the
  new group neither walks the prefix nor finds anything flagged on it.
 */
module SplitRun {
  import opened Types
  import opened Advertised
  import opened GroupState
  import opened GroupInvariant
  import opened GroupSteps
  import opened FleetRun
  import opened ShadowRib
  import opened Net
  import opened Scenarios

  const Y := Prefix(true, 1, 0)
  const BEST_X := Key(X, DEFAULT_PATH_ID)
  const BEST_Y := Key(Y, DEFAULT_PATH_ID)

  const BEST := CTL.(addPath := false)
  const SHUT := BEST.(policy := (k: Key, a: BgpPath) => Decision(None, false))

  // ---------------------------------------------------------------- the list

  const X1 := ShadowEntry(1, PathState(Some(A), 1), map[1 := PathState(Some(A), 1)])
  const Y2 := ShadowEntry(2, PathState(Some(A), 2), map[])
  // Another path of the first prefix, its best path as before.
  const X3 := ShadowEntry(3, PathState(Some(A), 1), map[1 := PathState(Some(A), 1), 2 := PathState(Some(B), 3)])

  const S1: Shadow := map[X := X1]
  const S2: Shadow := map[X := X1, Y := Y2]
  const S3: Shadow := map[X := X3, Y := Y2]

  const FIRST := ChangeTo(BEST_X, 1, A)
  const SHUT_OUT := Announce(BEST_Y, 2, A, None, false, true)

  lemma FirstWalked()
    ensures FromShadow(BEST, S1, [FIRST]) && Walks(BEST, S1, [FIRST])
  {
    assert FIRST == ChangeOf(BEST, S1, BEST_X);
    forall k | PathOf(S1, false, k).attrs.Some?
      ensures Touches([FIRST], k)
    {
      assert k == BEST_X;
      assert FIRST in [FIRST];
    }
  }

  lemma ShutWalk(k: Key)
    ensures Touches([SHUT_OUT], k) <==> k == BEST_Y
    ensures !Passed(SHUT, S3, 1, k) <==> k == BEST_Y
    ensures PathOf(S3, false, k).attrs.Some? ==> k == BEST_X || k == BEST_Y
  {
    assert SHUT_OUT in [SHUT_OUT];
  }

  /** The walk skips the first prefix for its bit and the second because it is due; the drain finds the second. */
  lemma ShutOut()
    ensures FromShadow(SHUT, S3, [SHUT_OUT]) && WalksExactly(SHUT, S3, [SHUT_OUT], 1, {X})
    ensures AtEnd(SHUT, S3, 3) && Decided(SHUT, S3, BEST_X) == None
  {
    assert SHUT_OUT == ChangeOf(SHUT, S3, BEST_Y);
    assert !Passed(SHUT, S3, 1, Key(Y, DEFAULT_PATH_ID));
    assert Carries(SHUT, S3, 1, {X}, Y) && Carries(SHUT, S3, 1, {X}, X);
    forall k
      ensures Touches([SHUT_OUT], k) <==>
        (PathOf(S3, false, k).attrs.Some? && !Carries(SHUT, S3, 1, {X}, k.prefix)) || !Passed(SHUT, S3, 1, k)
    {
      ShutWalk(k);
    }
  }

  // ---------------------------------------------------------------- the group

  const ROUTES: Table := map[BEST_X := EntryOf(A, 1)]

  lemma FirstDumps()
    ensures Dump(G1, [FIRST], 1).routes == ROUTES && Dump(G1, [FIRST], 1).initialized
    ensures Dump(G1, [FIRST], 1).sync == {1} && 1 in Dump(G1, [FIRST], 1).peers
    ensures Dump(G1, [FIRST], 1).families == {IPv4}
  {
    OneChange(G1, FIRST);
    assert map[][BEST_X := EntryOf(A, 1)] == ROUTES;
  }

  const DUMPED := Dump(G1, [FIRST], 1)

  lemma SplitShows()
    ensures SplitOff(DUMPED, {IPv4}, {1}).routes == ROUTES && SplitOff(DUMPED, {IPv4}, {1}).initialized
    ensures SplitOff(DUMPED, {IPv4}, {1}).families == {IPv4}
  {
    FirstDumps();
  }

  lemma Untouched(g: Group)
    requires g.routes == ROUTES && g.families == {IPv4}
    ensures Post(Consume(g, [SHUT_OUT], 3).routes, BEST_X) == Some(A)
  {
    OneChange(g, SHUT_OUT);
  }

  // ---------------------------------------------------------------- the run

  /** One best-path group, and where it stands. */
  ghost predicate Scene(n: Net, s: Shadow, top: nat, g: Group, at: Option<nat>) {
    && n.groups == map[0 := g] && n.shadow == s && n.top == top
    && 0 in n.control && n.control[0] == BEST
    && (0 in n.at <==> at.Some?) && (at.Some? ==> n.at[0] == at.value)
  }

  ghost predicate ToScene(n: Net, e: NetEvent, s: Shadow, top: nat, g: Group, at: Option<nat>) {
    NetEnabled(n, e) && Scene(NetStep(n, e), s, top, g, at)
  }

  lemma FirstPublished()
    ensures Goes(START, Published(X, X1), START.(shadow := S1, top := 1))
  {
    assert map[][X := X1] == S1;
  }

  lemma BestCreated(n: Net)
    requires n == START.(shadow := S1, top := 1)
    ensures ToScene(n, GroupCreated(0, BEST), S1, 1, Fresh({IPv4}), None)
  {
  }

  lemma Registers()
    ensures Register(Fresh({IPv4}), 1) == G1
  {
    assert map[][1 := FRESH_PEER] == G1.peers;
    assert {} + {1} == {1};
  }

  lemma BestRegistered(n: Net)
    requires Scene(n, S1, 1, Fresh({IPv4}), None)
    ensures ToScene(n, GroupStepped(0, PeerRegistered(1)), S1, 1, G1, None)
  {
    assert !Known(n.groups, 1);
    Registers();
    SteppedIs(n, PeerRegistered(1));
    assert map[0 := Fresh({IPv4})][0 := G1] == map[0 := G1];
  }

  lemma BestDumped(n: Net)
    requires Scene(n, S1, 1, G1, None)
    ensures ToScene(n, GroupDumped(0, BEST, [FIRST]), S1, 1, DUMPED, Some(1))
  {
    FirstWalked();
    DumpedIs(n, BEST, [FIRST]);
    assert map[0 := G1][0 := DUMPED] == map[0 := DUMPED];
  }

  lemma NextPublished(n: Net, s: Shadow, top: nat, g: Group, prefix: Prefix, entry: ShadowEntry, s': Shadow)
    requires Scene(n, s, top, g, Some(1)) && entry.version > top && s' == s[prefix := entry]
    requires forall addPath, id ::
      Flagged(PathOf(s, addPath, Key(prefix, id)), PathOf(s', addPath, Key(prefix, id)), entry.version)
    ensures ToScene(n, Published(prefix, entry), s', entry.version, g, Some(1))
  {
  }

  lemma BothFlagged()
    ensures S2 == S1[Y := Y2] && S3 == S2[X := X3]
    ensures forall addPath, id :: Flagged(PathOf(S1, addPath, Key(Y, id)), PathOf(S2, addPath, Key(Y, id)), 2)
    ensures forall addPath, id :: Flagged(PathOf(S2, addPath, Key(X, id)), PathOf(S3, addPath, Key(X, id)), 3)
  {
  }

  lemma PublishedRun() returns (es: seq<NetEvent>, n: Net)
    ensures Reaches(es, n) && Scene(n, S3, 3, DUMPED, Some(1))
  {
    es, n := [], START;
    FirstPublished();
    es, n := UpTo(es, n, Published(X, X1));
    BestCreated(n);
    es, n := UpTo(es, n, GroupCreated(0, BEST));
    BestRegistered(n);
    es, n := UpTo(es, n, GroupStepped(0, PeerRegistered(1)));
    BestDumped(n);
    es, n := UpTo(es, n, GroupDumped(0, BEST, [FIRST]));
    BothFlagged();
    NextPublished(n, S1, 1, DUMPED, Y, Y2, S2);
    es, n := UpTo(es, n, Published(Y, Y2));
    NextPublished(n, S2, 2, DUMPED, X, X3, S3);
    es, n := UpTo(es, n, Published(X, X3));
  }

  /** The new group stands where the old one does. */
  ghost predicate Halved(n: Net) {
    && 1 in n.groups && n.groups[1] == SplitOff(DUMPED, {IPv4}, {1}) && n.shadow == S3 && n.top == 3
    && 1 in n.control && n.control[1] == BEST && 1 in n.at && n.at[1] == 1
  }

  lemma SplitStage(n: Net)
    requires Scene(n, S3, 3, DUMPED, Some(1))
    ensures NetEnabled(n, GroupSplit(0, 1, {1})) && Halved(NetStep(n, GroupSplit(0, 1, {1})))
    ensures OfGroup(1) !in NetStep(n, GroupSplit(0, 1, {1})).joined
  {
    FirstDumps();
  }

  lemma ListJoins(n: Net, c: Consumer, prefixes: set<Prefix>)
    requires CanJoinList(n, c, prefixes)
    ensures NetEnabled(n, ListJoined(c, prefixes))
    ensures NetStep(n, ListJoined(c, prefixes)) == n.(joined := n.joined[c := JoinedOf(n, c) + prefixes])
  {
  }

  lemma JoinedStage(n: Net)
    requires Halved(n) && OfGroup(1) !in n.joined
    ensures NetEnabled(n, ListJoined(OfGroup(1), {X})) && Halved(NetStep(n, ListJoined(OfGroup(1), {X})))
    ensures JoinedOf(NetStep(n, ListJoined(OfGroup(1), {X})), OfGroup(1)) == {X}
  {
    ListJoins(n, OfGroup(1), {X});
    assert {} + {X} == {X};
  }

  lemma HalvedRun() returns (es: seq<NetEvent>, n: Net)
    ensures Reaches(es, n) && Halved(n) && JoinedOf(n, OfGroup(1)) == {X}
  {
    es, n := PublishedRun();
    SplitStage(n);
    es, n := UpTo(es, n, GroupSplit(0, 1, {1}));
    JoinedStage(n);
    es, n := UpTo(es, n, ListJoined(OfGroup(1), {X}));
  }

  /**
    A run ends in a state in which a best-path group just split off is re-evaluated under a policy
    that lets nothing through, is at the end of the list after it, and still advertises a route.
   */
  lemma SkippedStays() returns (es: seq<NetEvent>, n: Net, ctl: Control, cs: seq<Change>, k: Key)
    ensures NetRuns(START, es) && NetRun(START, es) == n
    ensures 1 in n.groups && n.groups[1].initialized && 1 in n.control && 1 in n.at
    ensures ctl == n.control[1].(policy := ctl.policy) && !ctl.addPath
    ensures FromShadow(ctl, n.shadow, cs) && WalksExactly(ctl, n.shadow, cs, n.at[1], JoinedOf(n, OfGroup(1)))
    ensures AtEnd(ctl, n.shadow, n.top)
    ensures Decided(ctl, n.shadow, k) == None && Post(Consume(n.groups[1], cs, n.top).routes, k) == Some(A)
  {
    es, n := HalvedRun();
    ctl, cs, k := SHUT, [SHUT_OUT], BEST_X;
    ShutOut();
    SplitShows();
    Untouched(n.groups[1]);
  }
}
