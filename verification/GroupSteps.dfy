/**
  The steps of an update group, in any interleaving: the group's processing, its builder, the
  peers' own processing, and peers joining, leaving and coming back.
 */
module GroupSteps {
  import opened Types
  import opened PackingList
  import opened GroupState
  import opened GroupInvariant
  import opened GroupProcessing
  import opened Distribution
  import opened DetachedPeer
  import opened Membership
  import opened Rejoin

  datatype Event =
    | Dumped(cs: seq<Change>, ribVersion: nat)
    | Consumed(cs: seq<Change>, ribVersion: nat)
    | BuildStarted
    | UpdateSent(b: Bucket, keys: set<Key>, stuck: set<PeerId>, slow: set<PeerId>)
    | EndOfRibSent(afi: Afi, stuck: set<PeerId>, slow: set<PeerId>)
    | BuildResumed
    | BuildFinished
    | PushLanded(p: PeerId)
    | PeerDetached(p: PeerId)
    | PeerRegistered(p: PeerId)
    | PeerUnregistered(p: PeerId)
    | PeerChanged(p: PeerId, c: Change, refresh: bool)
    | PeerSent(p: PeerId, b: Bucket, keys: set<Key>)
    | PeerSentEndOfRib(p: PeerId, afi: Afi)
    | PeerOwed(p: PeerId, families: set<Afi>)
    | PeerSaw(p: PeerId, ribVersion: nat)
    | PeerTurned(p: PeerId, state: PeerState)
    | PeersCollapsed(candidates: set<PeerId>)
    | PeerRejoinedFast(p: PeerId)
    | PeerPromoted(p: PeerId)

  ghost predicate Enabled(g: Group, e: Event) {
    match e
    case Dumped(cs, v) => CanDump(g, cs, v)
    case Consumed(cs, v) => g.initialized && Consumable(g, cs, Max(g.lastSeen, v))
    case BuildStarted => g.initialized && g.builder == Idle
    case UpdateSent(b, keys, stuck, slow) => CanSendUpdate(g, b, keys, stuck, slow)
    case EndOfRibSent(afi, stuck, slow) => CanSendEndOfRib(g, afi, stuck, slow)
    case BuildResumed => g.builder.Await? && g.blocked == {}
    case BuildFinished => g.builder.At?
    case PushLanded(p) => p in g.peers && g.peers[p].inFlight != []
    case PeerDetached(p) => p in g.sync && p in g.peers
    case PeerRegistered(p) => p !in g.peers
    case PeerUnregistered(p) => p in g.peers
    case PeerChanged(p, c, _) => CanProcess(g, p, c)
    case PeerSent(p, b, keys) => CanPeerSend(g, p, b, keys)
    case PeerSentEndOfRib(p, afi) => CanPeerSendEndOfRib(g, p, afi)
    case PeerOwed(p, _) => CanOwe(g, p)
    case PeerSaw(p, _) => p in g.detached && p in g.peers
    case PeerTurned(p, s) => CanTurn(g, p, s)
    case PeersCollapsed(candidates) => CanAccept(g, candidates)
    case PeerRejoinedFast(p) => CanFastRejoin(g, p)
    case PeerPromoted(p) => CanPromote(g, p)
  }

  ghost function Step(g: Group, e: Event): Group
    requires Enabled(g, e)
  {
    match e
    case Dumped(cs, v) => Dump(g, cs, v)
    case Consumed(cs, v) => Consume(g, cs, v)
    case BuildStarted => StartBuild(g)
    case UpdateSent(b, keys, stuck, slow) => SendUpdate(g, b, keys, stuck, slow)
    case EndOfRibSent(afi, stuck, slow) => SendEndOfRib(g, afi, stuck, slow)
    case BuildResumed => ResumeBuild(g)
    case BuildFinished => FinishBuild(g)
    case PushLanded(p) => ResolvePush(g, p)
    case PeerDetached(p) => Detach(g, p)
    case PeerRegistered(p) => Register(g, p)
    case PeerUnregistered(p) => Unregister(g, p)
    case PeerChanged(p, c, refresh) => ProcessForPeer(g, p, c, refresh)
    case PeerSent(p, b, keys) => PeerSend(g, p, b, keys)
    case PeerSentEndOfRib(p, afi) => PeerSendEndOfRib(g, p, afi)
    case PeerOwed(p, families) => PeerDumpOwed(g, p, families)
    case PeerSaw(p, v) => PeerSees(g, p, v)
    case PeerTurned(p, s) => PeerTurns(g, p, s)
    case PeersCollapsed(candidates) => Accept(g, candidates)
    case PeerRejoinedFast(p) => FastRejoin(g, p)
    case PeerPromoted(p) => Promote(g, p)
  }

  /** Every step keeps the invariant. */
  lemma StepKeeps(g: Group, e: Event)
    requires Inv(g) && Enabled(g, e)
    ensures Inv(Step(g, e))
  {
    match e
    case Dumped(cs, v) => DumpKeeps(g, cs, v);
    case Consumed(cs, v) => ConsumeKeeps(g, cs, v);
    case BuildStarted => StartBuildKeeps(g);
    case UpdateSent(b, keys, stuck, slow) => SendUpdateKeeps(g, b, keys, stuck, slow);
    case EndOfRibSent(afi, stuck, slow) => SendEndOfRibKeeps(g, afi, stuck, slow);
    case BuildResumed => ResumeBuildKeeps(g);
    case BuildFinished => FinishBuildKeeps(g);
    case PushLanded(p) => ResolvePushKeeps(g, p);
    case PeerDetached(p) => DetachKeeps(g, p);
    case PeerRegistered(p) => RegisterKeeps(g, p);
    case PeerUnregistered(p) => UnregisterKeeps(g, p);
    case PeerChanged(p, c, refresh) => ProcessForPeerKeeps(g, p, c, refresh);
    case PeerSent(p, b, keys) => PeerSendKeeps(g, p, b, keys);
    case PeerSentEndOfRib(p, afi) => PeerSendEndOfRibKeeps(g, p, afi);
    case PeerOwed(p, families) => PeerDumpOwedKeeps(g, p, families);
    case PeerSaw(p, v) => PeerSeesKeeps(g, p, v);
    case PeerTurned(p, s) => PeerTurnsKeeps(g, p, s);
    case PeersCollapsed(candidates) => AcceptKeeps(g, candidates);
    case PeerRejoinedFast(p) => FastRejoinKeeps(g, p);
    case PeerPromoted(p) => PromoteKeeps(g, p);
  }
}
