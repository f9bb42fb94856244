/**
  Sharing is invisible.  The reference machine gives every peer a RIB-OUT of its own; the
  update group, with its shared entries, version gates and lazy clones, follows it step by
  step, and every peer is told exactly its reference RIB-OUT.
 */
module SharingInvisible {
  import opened Types
  import opened PackingList
  import opened Advertised
  import opened GroupState
  import opened GroupInvariant
  import opened PrivateRibOut
  import opened GroupProcessing
  import opened Distribution
  import opened DetachedPeer
  import opened Membership
  import opened Rejoin
  import opened GroupSteps

  // ---------------------------------------------------------------- the reference machine

  /** `shared` is the table a rejoining peer is brought to. */
  datatype Reference = Reference(shared: Table, tables: map<PeerId, Table>)

  function Private(t: Table, cs: seq<Change>, families: set<Afi>): Table {
    PrivateRun(RibOut(t, map[]), cs, families).table
  }

  function RefStep(r: Reference, e: Event, sync: set<PeerId>, families: set<Afi>): Reference {
    match e
    case Dumped(cs, _) => RefConsume(r, cs, sync, families)
    case Consumed(cs, _) => RefConsume(r, cs, sync, families)
    case PeerRegistered(p) => r.(tables := r.tables[p := map[]])
    case PeerUnregistered(p) => r.(tables := r.tables - {p})
    case PeerChanged(p, c, _) =>
      if p in r.tables && AfiOf(c.key.prefix) in families
      then r.(tables := r.tables[p := Process(RibOut(r.tables[p], map[]), c, false).table]) else r
    case PeersCollapsed(ps) => Reference(r.shared, BroughtTo(r.tables, ps, r.shared))
    case PeerPromoted(p) => if p in r.tables then r.(shared := r.tables[p]) else r
    case _ => r
  }

  function BroughtTo(tables: map<PeerId, Table>, ps: set<PeerId>, t: Table): map<PeerId, Table> {
    map p | p in tables :: if p in ps then t else tables[p]
  }

  function RefConsume(r: Reference, cs: seq<Change>, sync: set<PeerId>, families: set<Afi>): Reference {
    Reference(Private(r.shared, cs, families),
              map p | p in r.tables :: if p in sync then Private(r.tables[p], cs, families) else r.tables[p])
  }

  /** The reference state a group stands for. */
  function Abs(g: Group): Reference {
    Reference(g.routes, map p | p in g.peers :: TableOf(g, p))
  }

  lemma AbsIs(h: Group, shared: Table, tables: map<PeerId, Table>)
    requires h.routes == shared && h.peers.Keys == tables.Keys
    requires forall p | p in h.peers :: TableOf(h, p) == tables[p]
    ensures Abs(h) == Reference(shared, tables)
  {
    assert Abs(h).tables == tables;
  }

  lemma SameTables(g: Group, h: Group)
    requires h.peers.Keys == g.peers.Keys && h.routes == g.routes
    requires forall p | p in g.peers :: TableOf(h, p) == TableOf(g, p)
    ensures Abs(h) == Abs(g)
  {
  }

  // ---------------------------------------------------------------- steps that change no table

  lemma PushTables(g: Group, m: Message, targets: set<PeerId>, stuck: set<PeerId>, slow: set<PeerId>, p: PeerId)
    requires SetsOk(g) && RoutesOk(g.routes, g.lastSeen) && PushArgs(g, targets, stuck, slow) && p in g.peers
    requires p in g.sync ==> g.peers[p].own == map[]
    ensures TableOf(Push(g, m, targets, stuck, slow), p) == TableOf(g, p)
  {
    if p in slow { DetachView(g.routes, g.lastSeen); }
  }

  lemma SyncOwnsNothing(g: Group)
    requires PeersOk(g)
    ensures forall p | p in g.sync && p in g.peers :: g.peers[p].own == map[]
  {
    forall p | p in g.sync && p in g.peers
      ensures g.peers[p].own == map[]
    {
      assert SyncOk(g.peers[p], g.routes, g.packing, p in g.blocked, g.initialized);
    }
  }

  lemma SendUpdateTable(g: Group, b: Bucket, keys: set<Key>, stuck: set<PeerId>, slow: set<PeerId>, p: PeerId)
    requires Inv(g) && CanSendUpdate(g, b, keys, stuck, slow) && p in g.peers
    ensures TableOf(SendUpdate(g, b, keys, stuck, slow), p) == TableOf(g, p)
  {
    SyncOwnsNothing(g);
    PushTables(g.(packing := TakeFrom(g.packing, b, keys)), Update(b.attrs, keys), g.sync, stuck, slow, p);
  }

  lemma SendUpdateTables(g: Group, b: Bucket, keys: set<Key>, stuck: set<PeerId>, slow: set<PeerId>)
    requires Inv(g) && CanSendUpdate(g, b, keys, stuck, slow)
    ensures Abs(SendUpdate(g, b, keys, stuck, slow)) == Abs(g)
  {
    var h := SendUpdate(g, b, keys, stuck, slow);
    forall p | p in g.peers
      ensures TableOf(h, p) == TableOf(g, p)
    {
      SendUpdateTable(g, b, keys, stuck, slow, p);
    }
    SameTables(g, h);
  }

  lemma SendEndOfRibTable(g: Group, afi: Afi, stuck: set<PeerId>, slow: set<PeerId>, p: PeerId)
    requires Inv(g) && CanSendEndOfRib(g, afi, stuck, slow) && p in g.peers
    ensures TableOf(SendEndOfRib(g, afi, stuck, slow), p) == TableOf(g, p)
  {
    SyncOwnsNothing(g);
    PushTables(g, EndOfRib(afi), Owing(g, afi), stuck, slow, p);
  }

  lemma SendEndOfRibTables(g: Group, afi: Afi, stuck: set<PeerId>, slow: set<PeerId>)
    requires Inv(g) && CanSendEndOfRib(g, afi, stuck, slow)
    ensures Abs(SendEndOfRib(g, afi, stuck, slow)) == Abs(g)
  {
    var h := SendEndOfRib(g, afi, stuck, slow);
    forall p | p in g.peers
      ensures TableOf(h, p) == TableOf(g, p)
    {
      SendEndOfRibTable(g, afi, stuck, slow, p);
    }
    SameTables(g, h);
  }

  lemma DetachTables(g: Group, p: PeerId)
    requires Inv(g) && p in g.sync
    ensures Abs(Detach(g, p)) == Abs(g)
  {
    SyncOwnsNothing(g);
    DetachFrame(g, p);
    forall r | r in g.peers
      ensures TableOf(Detach(g, p), r) == TableOf(g, r)
    {
      DetachInvisible(g, p, r);
    }
    SameTables(g, Detach(g, p));
  }

  lemma FastRejoinFrame(g: Group, h: Group, p: PeerId)
    requires p in g.detached && p in g.peers && TableOf(g, p) == g.routes
    requires h.peers.Keys == g.peers.Keys && h.routes == g.routes && h.detached == g.detached - {p}
    requires forall r | r in g.peers && r != p :: h.peers[r] == g.peers[r]
    ensures Abs(h) == Abs(g)
  {
    SameTables(g, h);
  }

  lemma FastRejoinTables(g: Group, p: PeerId)
    requires Inv(g) && CanFastRejoin(g, p)
    ensures Abs(FastRejoin(g, p)) == Abs(g)
  {
    UntouchedView(g.peers[p], g.routes);
    FastRejoinFrame(g, FastRejoin(g, p), p);
  }

  // ---------------------------------------------------------------- steps that do

  lemma MarkTables(g: Group)
    requires SetsOk(g)
    ensures Abs(MarkAll(g)) == Abs(g)
  {
    SameTables(g, MarkAll(g));
  }

  lemma ConsumeTables(g: Group, cs: seq<Change>, ribVersion: nat)
    requires SetsOk(g) && Consumable(g, cs, Max(g.lastSeen, ribVersion))
    ensures Abs(Consume(g, cs, ribVersion)) == RefConsume(Abs(g), cs, g.sync, g.families)
  {
    var h := Consume(g, cs, ribVersion);
    ProcessAllFrame(g, cs);
    SharedIsPrivate(g, cs);
    PrivateRunTable(RibOut(g.routes, g.packing), RibOut(g.routes, map[]), cs, g.families);
    forall p | p in g.peers
      ensures p in h.peers
      ensures TableOf(h, p) == if p in g.sync then Private(TableOf(g, p), cs, g.families) else TableOf(g, p)
    {
      if p in g.detached { BatchInvisible(g, cs, Max(g.lastSeen, ribVersion), p); }
    }
  }

  lemma {:induction false} ProcessAllFrame(g: Group, cs: seq<Change>)
    ensures ProcessAll(g, cs).peers.Keys == g.peers.Keys
    ensures ProcessAll(g, cs).sync == g.sync && ProcessAll(g, cs).detached == g.detached
    decreases cs
  {
    if cs != [] { ProcessAllFrame(ProcessForGroup(g, cs[0]), cs[1..]); }
  }

  lemma DumpTables(g: Group, cs: seq<Change>, ribVersion: nat)
    requires Inv(g) && CanDump(g, cs, ribVersion)
    ensures Abs(Dump(g, cs, ribVersion)) == RefConsume(Abs(g), cs, g.sync, g.families)
  {
    ConsumeCore(g, cs, ribVersion);
    ConsumeTables(g, cs, ribVersion);
    MarkTables(Consume(g, cs, ribVersion));
  }

  lemma ProcessForPeerTables(g: Group, p: PeerId, c: Change, refresh: bool)
    requires SetsOk(g) && CanProcess(g, p, c)
    ensures Abs(ProcessForPeer(g, p, c, refresh)) == RefStep(Abs(g), PeerChanged(p, c, refresh), g.sync, g.families)
  {
    if AfiOf(c.key.prefix) in g.families {
      var q := g.peers[p];
      CopyOnWriteViewIff(q, g.routes, c, refresh);
      PrivateTableOnly(RibOut(TableOf(g, p), q.packing), RibOut(TableOf(g, p), map[]), c, refresh);
      OneTable(g, ProcessForPeer(g, p, c, refresh), p);
    }
  }

  lemma OneTable(g: Group, h: Group, p: PeerId)
    requires p in g.peers && p in h.peers && h.peers == g.peers[p := h.peers[p]]
    requires h.routes == g.routes && h.detached == g.detached
    ensures Abs(h) == Abs(g).(tables := Abs(g).tables[p := TableOf(h, p)])
  {
  }

  lemma RegisterTables(g: Group, p: PeerId)
    requires SetsOk(g) && Positive(g.routes) && (!g.initialized ==> g.routes == map[]) && p !in g.peers
    ensures Abs(Register(g, p)) == RefStep(Abs(g), PeerRegistered(p), g.sync, g.families)
  {
    var h := Register(g, p);
    NothingVisible(g.routes);
    forall r | r in h.peers
      ensures TableOf(h, r) == if r == p then map[] else TableOf(g, r)
    {
    }
    AbsIs(h, g.routes, Abs(g).tables[p := map[]]);
  }

  lemma UnregisterTables(g: Group, p: PeerId)
    requires SetsOk(g) && p in g.peers
    ensures Abs(Unregister(g, p)) == RefStep(Abs(g), PeerUnregistered(p), g.sync, g.families)
  {
  }

  lemma CollapseAbs(g: Group, candidates: set<PeerId>, h: Group)
    requires SetsOk(g) && PeersOk(g) && RoutesOk(g.routes, g.lastSeen) && CanAccept(g, candidates)
    requires CollapsedTo(g, candidates, h)
    ensures Abs(h) == Reference(g.routes, BroughtTo(Abs(g).tables, candidates, g.routes))
  {
    forall p | p in h.peers
      ensures TableOf(h, p) == if p in candidates then g.routes else TableOf(g, p)
    {
      CollapseTables(g, candidates, h, p);
    }
    BroughtAbs(g, candidates, h);
  }

  lemma BroughtAbs(g: Group, ps: set<PeerId>, h: Group)
    requires h.peers.Keys == g.peers.Keys && h.routes == g.routes
    requires forall p | p in h.peers :: TableOf(h, p) == if p in ps then g.routes else TableOf(g, p)
    ensures Abs(h) == Reference(g.routes, BroughtTo(Abs(g).tables, ps, g.routes))
  {
    AbsIs(h, g.routes, BroughtTo(Abs(g).tables, ps, g.routes));
  }

  lemma PromoteAbs(g: Group, p: PeerId)
    requires MembersOk(g) && Positive(g.routes) && CanPromote(g, p) && Positive(g.peers[p].own)
    ensures Abs(Promote(g, p)) == Abs(g).(shared := Abs(g).tables[p])
  {
    PromoteTables(g, p);
    PromotedAbs(g, Promote(g, p), p);
  }

  lemma PromotedAbs(g: Group, h: Group, p: PeerId)
    requires p in g.peers && h.peers.Keys == g.peers.Keys && h.routes == TableOf(g, p)
    requires forall r | r in g.peers :: TableOf(h, r) == TableOf(g, r)
    ensures Abs(h) == Abs(g).(shared := Abs(g).tables[p])
  {
    AbsIs(h, TableOf(g, p), Abs(g).tables);
  }

  // ---------------------------------------------------------------- every step

  /** Steps that only move messages and flags of one peer. */
  lemma QuietPeer(g: Group, h: Group, p: PeerId)
    requires p in g.peers && p in h.peers && h.peers == g.peers[p := h.peers[p]]
    requires h.routes == g.routes && h.detached == g.detached
    requires h.peers[p].own == g.peers[p].own && h.peers[p].detachVersion == g.peers[p].detachVersion
    ensures Abs(h) == Abs(g)
  {
    OneTable(g, h, p);
    assert Abs(g).tables[p := TableOf(g, p)] == Abs(g).tables;
  }

  lemma QuietBuilder(g: Group, h: Group)
    requires h.routes == g.routes && h.detached == g.detached && h.peers == g.peers
    ensures Abs(h) == Abs(g)
  {
    SameTables(g, h);
  }

  predicate QuietAtPeer(e: Event) {
    e.PushLanded? || e.PeerSent? || e.PeerSentEndOfRib? || e.PeerOwed? || e.PeerSaw? || e.PeerTurned?
  }

  lemma LandingFollows(g: Group, p: PeerId)
    requires p in g.peers && g.peers[p].inFlight != []
    ensures Abs(ResolvePush(g, p)) == Abs(g)
  {
    QuietPeer(g, ResolvePush(g, p), p);
  }

  lemma PeerSendFollows(g: Group, p: PeerId, b: Bucket, keys: set<Key>)
    requires CanPeerSend(g, p, b, keys)
    ensures Abs(PeerSend(g, p, b, keys)) == Abs(g)
  {
    QuietPeer(g, PeerSend(g, p, b, keys), p);
  }

  lemma SendsFollow(g: Group, e: Event)
    requires Enabled(g, e) && (e.PushLanded? || e.PeerSent? || e.PeerSentEndOfRib?)
    ensures Abs(Step(g, e)) == Abs(g)
  {
    match e
    case PushLanded(p) => LandingFollows(g, p);
    case PeerSent(p, b, keys) => PeerSendFollows(g, p, b, keys);
    case PeerSentEndOfRib(p, afi) => QuietPeer(g, PeerSendEndOfRib(g, p, afi), p);
  }

  lemma FlagsFollow(g: Group, e: Event)
    requires Enabled(g, e) && (e.PeerOwed? || e.PeerSaw? || e.PeerTurned?)
    ensures Abs(Step(g, e)) == Abs(g)
  {
    match e
    case PeerOwed(p, families) => QuietPeer(g, PeerDumpOwed(g, p, families), p);
    case PeerSaw(p, v) => QuietPeer(g, PeerSees(g, p, v), p);
    case PeerTurned(p, s) => QuietPeer(g, PeerTurns(g, p, s), p);
  }

  lemma QuietFollows(g: Group, e: Event)
    requires Enabled(g, e) && (QuietAtPeer(e) || e.BuildStarted? || e.BuildResumed? || e.BuildFinished?)
    ensures Abs(Step(g, e)) == Abs(g)
  {
    if e.PushLanded? || e.PeerSent? || e.PeerSentEndOfRib? {
      SendsFollow(g, e);
    } else if QuietAtPeer(e) {
      FlagsFollow(g, e);
    } else {
      QuietBuilder(g, Step(g, e));
    }
  }

  /** Each step of the group is a step of the reference machine. */
  lemma StepFollows(g: Group, e: Event)
    requires Inv(g) && Enabled(g, e)
    ensures Abs(Step(g, e)) == RefStep(Abs(g), e, g.sync, g.families)
  {
    match e
    case Dumped(cs, v) => DumpTables(g, cs, v);
    case Consumed(cs, v) => ConsumeTables(g, cs, v);
    case UpdateSent(b, keys, stuck, slow) => SendUpdateTables(g, b, keys, stuck, slow);
    case EndOfRibSent(afi, stuck, slow) => SendEndOfRibTables(g, afi, stuck, slow);
    case PeerDetached(p) => DetachTables(g, p);
    case PeerRegistered(p) => RegisterTables(g, p);
    case PeerUnregistered(p) => UnregisterTables(g, p);
    case PeerChanged(p, c, refresh) => ProcessForPeerTables(g, p, c, refresh);
    case PeersCollapsed(candidates) =>
      AcceptIsCollapse(g, candidates);
      CollapseAbs(g, candidates, Accept(g, candidates));
    case PeerRejoinedFast(p) => FastRejoinTables(g, p);
    case PeerPromoted(p) =>
      assert DetachedOk(g.peers[p], g.routes, g.lastSeen);
      PromoteAbs(g, p);
    case _ => QuietFollows(g, e);
  }

  lemma ServedMember(g: Group, p: PeerId)
    requires SetsOk(g) && PeersOk(g) && p in g.peers
    ensures Served(g.peers[p], TableOf(g, p), PackingOf(g, p))
  {
    if p in g.sync {
      assert SyncOk(g.peers[p], g.routes, g.packing, p in g.blocked, g.initialized);
    } else {
      assert DetachedOk(g.peers[p], g.routes, g.lastSeen);
    }
  }

  /** A served peer ends up with exactly its table, whatever order its packing list goes out in. */
  lemma ServedTells(q: Peer, t: Table, pl: Packing, order: seq<Bucket>, k: Key)
    requires Served(q, t, pl)
    requires forall b :: b in order <==> b in pl
    requires forall i, j | 0 <= i < j < |order| :: order[i] != order[j]
    ensures |q.inFlight| <= 1
    ensures Holds(DrainAll(ReceiveAll(q.sent, q.inFlight), pl, order), k) == Post(t, k)
  {
    AnyOrderTells(t, pl, ReceiveAll(q.sent, q.inFlight), order, k);
  }
}
