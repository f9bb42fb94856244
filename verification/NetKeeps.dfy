/** Every step of the fleet on its change list keeps the invariant, and is a run of its groups. */
module NetKeeps {
  import opened Types
  import opened GroupState
  import opened GroupProcessing
  import opened GroupSteps
  import opened FleetRun
  import opened ShadowRib
  import opened ListConsumers
  import opened Net
  import opened NetInvariant
  import opened NetGroups
  import opened NetPeers
  import opened NetSteps
  import opened NetFleet

  // ---------------------------------------------------------------- one step

  lemma {:induction false} FamiliesKept(g: Group, p: PeerId, cs: seq<Change>, refresh: bool)
    requires p in g.peers
    ensures ProcessAllForPeer(g, p, cs, refresh).families == g.families
    decreases cs
  {
    if cs != [] { FamiliesKept(ProcessForPeer(g, p, cs[0], refresh), p, cs[1..], refresh); }
  }

  predicate ByPeer(e: NetEvent) {
    e.PeerDumped? || e.PeerConsumed? || e.PeerReevaluated? || e.PeerRefreshed?
  }

  predicate ByGroup(e: NetEvent) {
    e.GroupDumped? || e.GroupConsumed? || e.GroupReevaluated?
  }

  /** Where a step of its own leaves a detached peer, and whether it is re-evaluated by it. */
  function StandsAt(n: Net, e: NetEvent): nat
    requires ByPeer(e) && (e.PeerRefreshed? ==> e.p in n.seen)
  {
    if e.PeerDumped? then n.top else if e.PeerRefreshed? then n.seen[e.p] else e.to
  }

  predicate Decides(e: NetEvent) {
    e.PeerDumped? || e.PeerReevaluated?
  }

  ghost predicate PeerReady(n: Net, e: NetEvent)
    requires ByPeer(e)
  {
    && e.id in n.groups && e.id in n.control && (e.PeerRefreshed? ==> e.p in n.seen)
    && MayProcess(n.groups[e.id], e.p, n.control[e.id], n.shadow, n.top, e.cs)
    && PeerArrives(n, e.id, e.p, StandsAt(n, e), Decides(e),
                   PrivateRun(RibOut(TableOf(n.groups[e.id], e.p), map[]), e.cs, n.control[e.id].families).table)
  }

  ghost function AfterPeer(n: Net, e: NetEvent): Net
    requires ByPeer(e) && e.id in n.groups && e.p in n.groups[e.id].peers && (e.PeerRefreshed? ==> e.p in n.seen)
  {
    PeerTo(n, e.id, ProcessAllForPeer(n.groups[e.id], e.p, e.cs, e.PeerRefreshed?), e.p, StandsAt(n, e), Decides(e))
  }

  ghost predicate PeerMay(n: Net, e: NetEvent) {
    match e
    case PeerDumped(id, p, cs) => CanPeerDump(n, id, p, cs)
    case PeerConsumed(id, p, to, cs) => CanPeerConsume(n, id, p, to, cs)
    case PeerReevaluated(id, p, to, cs) => CanPeerReevaluate(n, id, p, to, cs)
    case PeerRefreshed(id, p, cs) => CanPeerRefresh(n, id, p, cs)
    case _ => false
  }

  /** A step of a detached peer's own. */
  ghost predicate PeerGoes(n: Net, e: NetEvent, m: Net) {
    PeerMay(n, e) && m == AfterPeer(n, e)
  }

  lemma PeerEventGoes(n: Net, e: NetEvent, m: Net)
    requires ByPeer(e) && Goes(n, e, m)
    ensures PeerGoes(n, e, m)
  {
  }

  lemma DumpReady(n: Net, id: GroupId, p: PeerId, cs: seq<Change>)
    requires NetInv(n) && CanPeerDump(n, id, p, cs)
    ensures PeerReady(n, PeerDumped(id, p, cs))
  {
    PeerDumpReady(n, id, p, cs);
  }

  lemma ConsumeReady(n: Net, id: GroupId, p: PeerId, to: nat, cs: seq<Change>)
    requires NetInv(n) && CanPeerConsume(n, id, p, to, cs)
    ensures PeerReady(n, PeerConsumed(id, p, to, cs))
  {
    PeerConsumeReady(n, id, p, to, cs);
  }

  lemma ReevaluateReady(n: Net, id: GroupId, p: PeerId, to: nat, cs: seq<Change>)
    requires NetInv(n) && CanPeerReevaluate(n, id, p, to, cs)
    ensures PeerReady(n, PeerReevaluated(id, p, to, cs))
  {
    PeerReevaluateReady(n, id, p, to, cs);
  }

  lemma RefreshReady(n: Net, id: GroupId, p: PeerId, cs: seq<Change>)
    requires NetInv(n) && CanPeerRefresh(n, id, p, cs)
    ensures PeerReady(n, PeerRefreshed(id, p, cs))
  {
    PeerRefreshReady(n, id, p, cs);
  }

  lemma PeerEventReady(n: Net, e: NetEvent)
    requires NetInv(n) && PeerMay(n, e)
    ensures ByPeer(e) && PeerReady(n, e)
  {
    match e
    case PeerDumped(id, p, cs) => DumpReady(n, id, p, cs);
    case PeerConsumed(id, p, to, cs) => ConsumeReady(n, id, p, to, cs);
    case PeerReevaluated(id, p, to, cs) => ReevaluateReady(n, id, p, to, cs);
    case PeerRefreshed(id, p, cs) => RefreshReady(n, id, p, cs);
  }

  lemma ReadyKeeps(n: Net, e: NetEvent)
    requires NetInv(n) && ByPeer(e) && PeerReady(n, e)
    ensures NetInv(AfterPeer(n, e))
  {
    FamiliesKept(n.groups[e.id], e.p, e.cs, e.PeerRefreshed?);
    PeerBatchKeeps(n, e.id, e.p, e.cs, e.PeerRefreshed?, StandsAt(n, e), Decides(e),
                   ProcessAllForPeer(n.groups[e.id], e.p, e.cs, e.PeerRefreshed?));
  }

  lemma PeerEventKeeps(n: Net, e: NetEvent, m: Net)
    requires NetInv(n) && PeerGoes(n, e, m)
    ensures NetInv(m)
  {
    PeerEventReady(n, e);
    ReadyKeeps(n, e);
  }

  /** The group after a batch from the list, and the step it takes. */
  ghost function AfterBatch(n: Net, e: NetEvent): Group
    requires ByGroup(e) && e.id in n.groups
  {
    if e.GroupDumped? then Dump(n.groups[e.id], e.cs, n.top) else Consume(n.groups[e.id], e.cs, n.top)
  }

  function BatchEvent(n: Net, e: NetEvent): Event
    requires ByGroup(e)
  {
    if e.GroupDumped? then Dumped(e.cs, n.top) else Consumed(e.cs, n.top)
  }

  ghost predicate GroupMay(n: Net, e: NetEvent) {
    match e
    case GroupDumped(id, ctl, cs) => CanGroupDump(n, id, ctl, cs)
    case GroupConsumed(id, cs) => CanGroupConsume(n, id, cs)
    case GroupReevaluated(id, ctl, cs) => CanGroupReevaluate(n, id, ctl, cs)
    case _ => false
  }

  /** A step of a group along the list. */
  ghost predicate GroupGoes(n: Net, e: NetEvent, m: Net) {
    GroupMay(n, e) && m.groups == n.groups[e.id := AfterBatch(n, e)]
  }

  lemma GroupEventGoes(n: Net, e: NetEvent, m: Net)
    requires ByGroup(e) && Goes(n, e, m)
    ensures GroupGoes(n, e, m)
  {
  }

  lemma DumpGoes(n: Net, id: GroupId, ctl: Control, cs: seq<Change>, m: Net)
    requires Goes(n, GroupDumped(id, ctl, cs), m)
    ensures CanGroupDump(n, id, ctl, cs)
    ensures m == ToTheEnd(n, id, Dump(n.groups[id], cs, n.top), ctl, n.groups[id].detached)
  {
  }

  lemma DumpEventKeeps(n: Net, id: GroupId, ctl: Control, cs: seq<Change>, m: Net)
    requires NetInv(n) && Goes(n, GroupDumped(id, ctl, cs), m)
    ensures NetInv(m)
  {
    DumpGoes(n, id, ctl, cs, m);
    GroupDumpKeeps(n, id, ctl, cs, Dump(n.groups[id], cs, n.top));
  }

  lemma ConsumeGoes(n: Net, id: GroupId, cs: seq<Change>, m: Net)
    requires Goes(n, GroupConsumed(id, cs), m)
    ensures CanGroupConsume(n, id, cs)
    ensures m == ToTheEnd(n, id, Consume(n.groups[id], cs, n.top), n.control[id], {})
  {
  }

  lemma ConsumeEventKeeps(n: Net, id: GroupId, cs: seq<Change>, m: Net)
    requires NetInv(n) && Goes(n, GroupConsumed(id, cs), m)
    ensures NetInv(m)
  {
    ConsumeGoes(n, id, cs, m);
    GroupConsumeKeeps(n, id, cs, Consume(n.groups[id], cs, n.top));
  }

  lemma ReevaluateGoes(n: Net, id: GroupId, ctl: Control, cs: seq<Change>, m: Net)
    requires Goes(n, GroupReevaluated(id, ctl, cs), m)
    ensures CanGroupReevaluate(n, id, ctl, cs)
    ensures m == ToTheEnd(n, id, Consume(n.groups[id], cs, n.top), ctl, n.groups[id].detached)
  {
  }

  lemma ReevaluateEventKeeps(n: Net, id: GroupId, ctl: Control, cs: seq<Change>, m: Net)
    requires NetInv(n) && Goes(n, GroupReevaluated(id, ctl, cs), m)
    ensures NetInv(m)
  {
    ReevaluateGoes(n, id, ctl, cs, m);
    GroupReevaluateKeeps(n, id, ctl, cs, Consume(n.groups[id], cs, n.top));
  }

  lemma GroupEventKeeps(n: Net, e: NetEvent, m: Net)
    requires NetInv(n) && ByGroup(e) && Goes(n, e, m)
    ensures NetInv(m)
  {
    match e
    case GroupDumped(id, ctl, cs) => DumpEventKeeps(n, id, ctl, cs, m);
    case GroupConsumed(id, cs) => ConsumeEventKeeps(n, id, cs, m);
    case GroupReevaluated(id, ctl, cs) => ReevaluateEventKeeps(n, id, ctl, cs, m);
  }

  lemma SplitIs(n: Net, src: GroupId, dst: GroupId, ps: set<PeerId>, m: Net)
    requires Goes(n, GroupSplit(src, dst, ps), m)
    ensures IsSplit(n, m, src, dst, ps)
  {
  }

  lemma MoveIs(n: Net, src: GroupId, dst: GroupId, ps: set<PeerId>, m: Net)
    requires Goes(n, PeersMoved(src, dst, ps), m)
    ensures IsMove(n, m, src, dst, ps)
  {
  }

  /** Groups come, go, or exchange members. */
  predicate ByFleet(e: NetEvent) {
    e.GroupCreated? || e.GroupDestroyed? || e.GroupSplit? || e.PeersMoved?
  }

  lemma FleetEventKeeps(n: Net, e: NetEvent, m: Net)
    requires NetInv(n) && ByFleet(e) && Goes(n, e, m)
    ensures NetInv(m)
  {
    match e
    case GroupCreated(id, ctl) => CreateKeeps(n, id, ctl);
    case GroupDestroyed(id) => DestroyKeeps(n, id);
    case GroupSplit(src, dst, ps) => SplitIs(n, src, dst, ps, m); SplitNetKeeps(n, m, src, dst, ps);
    case PeersMoved(src, dst, ps) => MoveIs(n, src, dst, ps, m); MoveNetKeeps(n, m, src, dst, ps);
  }

  lemma OtherEventKeeps(n: Net, e: NetEvent, m: Net)
    requires NetInv(n) && !ByPeer(e) && !ByGroup(e) && !ByFleet(e) && Goes(n, e, m)
    ensures NetInv(m)
  {
    match e
    case Published(prefix, entry) => PublishKeeps(n, prefix, entry);
    case Forgotten(prefix) => ForgetKeeps(n, prefix);
    case ListJoined(_, _) => JoinKeeps(n, m.joined);
    case GroupStepped(id, l) => GroupStepKeeps(n, id, l, Step(n.groups[id], l));
  }

  /** Every step of the fleet on its change list keeps the invariant. */
  lemma NetStepKeeps(n: Net, e: NetEvent, m: Net)
    requires NetInv(n) && Goes(n, e, m)
    ensures NetInv(m)
  {
    if ByPeer(e) {
      PeerEventGoes(n, e, m);
      PeerEventKeeps(n, e, m);
    } else if ByGroup(e) {
      GroupEventKeeps(n, e, m);
    } else if ByFleet(e) {
      FleetEventKeeps(n, e, m);
    } else {
      OtherEventKeeps(n, e, m);
    }
  }

  // ---------------------------------------------------------------- as steps of the groups

  /** What the groups do in a step. */
  ghost function Trace(n: Net, e: NetEvent): seq<WorldEvent> {
    match e
    case Published(_, _) => []
    case Forgotten(_) => []
    case ListJoined(_, _) => []
    case GroupCreated(id, ctl) => [Created(id, ctl.families)]
    case GroupDestroyed(id) => [Destroyed(id)]
    case GroupDumped(id, _, cs) => [Local(id, Dumped(cs, n.top))]
    case GroupConsumed(id, cs) => [Local(id, Consumed(cs, n.top))]
    case GroupReevaluated(id, _, cs) => [Local(id, Consumed(cs, n.top))]
    case PeerDumped(id, p, cs) => PeerTrace(id, p, cs, false)
    case PeerConsumed(id, p, _, cs) => PeerTrace(id, p, cs, false)
    case PeerReevaluated(id, p, _, cs) => PeerTrace(id, p, cs, false)
    case PeerRefreshed(id, p, cs) => PeerTrace(id, p, cs, true)
    case GroupStepped(id, e) => [Local(id, e)]
    case GroupSplit(src, dst, ps) => if src in n.control then [Split(src, dst, n.control[src].families, ps)] else []
    case PeersMoved(src, dst, ps) => [Moved(src, dst, ps)]
  }

  /** The groups can do this, and end up there. */
  ghost predicate Leads(w: World, es: seq<WorldEvent>, w': World) {
    WorldRuns(w, es) && WorldRun(w, es) == w'
  }

  ghost predicate LeadsInOne(w: World, e: WorldEvent, w': World) {
    WorldEnabled(w, e) && WorldStep(w, e) == w'
  }

  lemma SingleLeads(w: World, es: seq<WorldEvent>, w': World)
    requires |es| == 1 && LeadsInOne(w, es[0], w')
    ensures Leads(w, es, w')
  {
    RunsCons(w, es[0], [], w');
    assert [es[0]] + [] == es;
  }

  lemma OneLeads(w: World, es: seq<WorldEvent>, e: WorldEvent, w': World)
    requires es == [e] && LeadsInOne(w, e, w')
    ensures Leads(w, es, w')
  {
    SingleLeads(w, es, w');
  }

  lemma PeerTraceIs(n: Net, e: NetEvent)
    requires ByPeer(e)
    ensures Trace(n, e) == PeerTrace(e.id, e.p, e.cs, e.PeerRefreshed?)
  {
  }

  lemma ReadyLeads(n: Net, e: NetEvent)
    requires ByPeer(e) && PeerReady(n, e)
    ensures Leads(n.groups, PeerTrace(e.id, e.p, e.cs, e.PeerRefreshed?), AfterPeer(n, e).groups)
  {
    PeerTraceRuns(n.groups, e.id, e.p, n.control[e.id], n.shadow, n.top, e.cs, e.PeerRefreshed?);
  }

  lemma PeerLeads(n: Net, e: NetEvent, m: Net)
    requires NetInv(n) && PeerGoes(n, e, m)
    ensures Leads(n.groups, Trace(n, e), m.groups)
  {
    PeerTraceIs(n, e);
    PeerEventReady(n, e);
    ReadyLeads(n, e);
  }

  /** The batch is one the group can take, and no detached peer notices it. */
  ghost predicate Takes(n: Net, e: NetEvent) {
    && ByGroup(e) && e.id in n.groups && WorldEnabled(n.groups, Local(e.id, BatchEvent(n, e)))
    && Batched(n.groups[e.id], AfterBatch(n, e), e.cs, n.top)
  }

  lemma TakesIf(n: Net, e: NetEvent, id: GroupId, l: Event, h: Group)
    requires id in n.groups && ByGroup(e) && e.id == id && BatchEvent(n, e) == l && AfterBatch(n, e) == h
    requires WorldEnabled(n.groups, Local(id, l)) && Batched(n.groups[id], h, e.cs, n.top)
    ensures Takes(n, e)
  {
  }

  lemma ConsumeBatch(n: Net, id: GroupId, cs: seq<Change>)
    requires id in n.groups
    ensures BatchEvent(n, GroupConsumed(id, cs)) == Consumed(cs, n.top)
    ensures AfterBatch(n, GroupConsumed(id, cs)) == Consume(n.groups[id], cs, n.top)
  {
  }

  lemma DumpTakes(n: Net, id: GroupId, ctl: Control, cs: seq<Change>)
    requires NetInv(n) && CanGroupDump(n, id, ctl, cs)
    ensures Takes(n, GroupDumped(id, ctl, cs))
  {
    GroupDumpEnabled(n, id, ctl, cs);
  }

  lemma ConsumeTakes(n: Net, id: GroupId, cs: seq<Change>)
    requires NetInv(n) && CanGroupConsume(n, id, cs)
    ensures Takes(n, GroupConsumed(id, cs))
  {
    GroupConsumeEnabled(n, id, n.control[id], cs);
    ConsumeBatch(n, id, cs);
    TakesIf(n, GroupConsumed(id, cs), id, Consumed(cs, n.top), Consume(n.groups[id], cs, n.top));
  }

  lemma ReevaluateTakes(n: Net, id: GroupId, ctl: Control, cs: seq<Change>)
    requires NetInv(n) && CanGroupReevaluate(n, id, ctl, cs)
    ensures Takes(n, GroupReevaluated(id, ctl, cs))
  {
    GroupConsumeEnabled(n, id, ctl, cs);
  }

  lemma GroupBatched(n: Net, e: NetEvent)
    requires NetInv(n) && GroupMay(n, e)
    ensures Takes(n, e)
  {
    match e
    case GroupDumped(id, ctl, cs) => DumpTakes(n, id, ctl, cs);
    case GroupConsumed(id, cs) => ConsumeTakes(n, id, cs);
    case GroupReevaluated(id, ctl, cs) => ReevaluateTakes(n, id, ctl, cs);
  }

  lemma BatchLeads(n: Net, e: NetEvent)
    requires ByGroup(e) && e.id in n.groups && WorldEnabled(n.groups, Local(e.id, BatchEvent(n, e)))
    ensures LeadsInOne(n.groups, Local(e.id, BatchEvent(n, e)), n.groups[e.id := AfterBatch(n, e)])
    ensures Trace(n, e) == [Local(e.id, BatchEvent(n, e))]
  {
  }

  lemma GroupLeads(n: Net, e: NetEvent, m: Net)
    requires NetInv(n) && GroupGoes(n, e, m)
    ensures Leads(n.groups, Trace(n, e), m.groups)
  {
    GroupBatched(n, e);
    BatchLeads(n, e);
    SingleLeads(n.groups, Trace(n, e), m.groups);
  }

  lemma SteppedTo(n: Net, id: GroupId, e: Event, m: Net)
    requires Goes(n, GroupStepped(id, e), m)
    ensures CanStep(n, id, e) && m.groups == n.groups[id := Step(n.groups[id], e)]
  {
  }

  lemma LocalInOne(w: World, id: GroupId, e: Event)
    requires id in w && Enabled(w[id], e) && (e.PeerRegistered? ==> !Known(w, e.p))
    ensures LeadsInOne(w, Local(id, e), w[id := Step(w[id], e)])
  {
  }

  lemma StepTrace(n: Net, id: GroupId, e: Event)
    ensures Trace(n, GroupStepped(id, e)) == [Local(id, e)]
  {
  }

  lemma SteppedLeads(n: Net, e: NetEvent, m: Net)
    requires Goes(n, e, m) && e.GroupStepped?
    ensures Leads(n.groups, Trace(n, e), m.groups)
  {
    SteppedTo(n, e.id, e.e, m);
    LocalInOne(n.groups, e.id, e.e);
    StepTrace(n, e.id, e.e);
    OneLeads(n.groups, Trace(n, e), Local(e.id, e.e), m.groups);
  }

  lemma FleetInOne(n: Net, e: NetEvent, m: Net)
    requires Goes(n, e, m) && (e.GroupCreated? || e.GroupDestroyed?)
    ensures |Trace(n, e)| == 1 && LeadsInOne(n.groups, Trace(n, e)[0], m.groups)
  {
  }

  lemma FleetLeads(n: Net, e: NetEvent, m: Net)
    requires Goes(n, e, m) && (e.GroupCreated? || e.GroupDestroyed?)
    ensures Leads(n.groups, Trace(n, e), m.groups)
  {
    FleetInOne(n, e, m);
    SingleLeads(n.groups, Trace(n, e), m.groups);
  }

  lemma SplitInOne(n: Net, src: GroupId, dst: GroupId, ps: set<PeerId>, m: Net)
    requires Goes(n, GroupSplit(src, dst, ps), m)
    ensures src in n.control && LeadsInOne(n.groups, Split(src, dst, n.control[src].families, ps), m.groups)
  {
  }

  lemma SplitTrace(n: Net, src: GroupId, dst: GroupId, ps: set<PeerId>)
    requires src in n.control
    ensures Trace(n, GroupSplit(src, dst, ps)) == [Split(src, dst, n.control[src].families, ps)]
  {
  }

  lemma SplitLeads(n: Net, e: NetEvent, m: Net)
    requires Goes(n, e, m) && e.GroupSplit?
    ensures Leads(n.groups, Trace(n, e), m.groups)
  {
    SplitInOne(n, e.src, e.dst, e.ps, m);
    SplitTrace(n, e.src, e.dst, e.ps);
    OneLeads(n.groups, Trace(n, e), Split(e.src, e.dst, n.control[e.src].families, e.ps), m.groups);
  }

  lemma MoveInOne(n: Net, src: GroupId, dst: GroupId, ps: set<PeerId>, m: Net)
    requires Goes(n, PeersMoved(src, dst, ps), m)
    ensures LeadsInOne(n.groups, Moved(src, dst, ps), m.groups)
  {
  }

  lemma MoveTrace(n: Net, src: GroupId, dst: GroupId, ps: set<PeerId>)
    ensures Trace(n, PeersMoved(src, dst, ps)) == [Moved(src, dst, ps)]
  {
  }

  lemma MoveLeads(n: Net, e: NetEvent, m: Net)
    requires Goes(n, e, m) && e.PeersMoved?
    ensures Leads(n.groups, Trace(n, e), m.groups)
  {
    MoveInOne(n, e.src, e.dst, e.ps, m);
    MoveTrace(n, e.src, e.dst, e.ps);
    OneLeads(n.groups, Trace(n, e), Moved(e.src, e.dst, e.ps), m.groups);
  }

  lemma ShadowLeads(n: Net, e: NetEvent, m: Net)
    requires Goes(n, e, m) && (e.Published? || e.Forgotten? || e.ListJoined?)
    ensures Leads(n.groups, Trace(n, e), m.groups)
  {
  }

  lemma FleetEventLeads(n: Net, e: NetEvent, m: Net)
    requires Goes(n, e, m) && ByFleet(e)
    ensures Leads(n.groups, Trace(n, e), m.groups)
  {
    if e.GroupSplit? {
      SplitLeads(n, e, m);
    } else if e.PeersMoved? {
      MoveLeads(n, e, m);
    } else {
      FleetLeads(n, e, m);
    }
  }

  lemma OtherLeads(n: Net, e: NetEvent, m: Net)
    requires Goes(n, e, m) && !ByPeer(e) && !ByGroup(e) && !ByFleet(e)
    ensures Leads(n.groups, Trace(n, e), m.groups)
  {
    if e.GroupStepped? { SteppedLeads(n, e, m); } else { ShadowLeads(n, e, m); }
  }

  /** No step of the fleet asks of its groups what the list does not let them do. */
  lemma StepIsRun(n: Net, e: NetEvent, m: Net)
    requires NetInv(n) && Goes(n, e, m)
    ensures Leads(n.groups, Trace(n, e), m.groups)
  {
    if ByPeer(e) {
      PeerEventGoes(n, e, m);
      PeerLeads(n, e, m);
    } else if ByGroup(e) {
      GroupEventGoes(n, e, m);
      GroupLeads(n, e, m);
    } else if ByFleet(e) {
      FleetEventLeads(n, e, m);
    } else {
      OtherLeads(n, e, m);
    }
  }

  // ---------------------------------------------------------------- runs

  lemma {:induction false} NetRunKeeps(n: Net, es: seq<NetEvent>)
    requires NetInv(n) && NetRuns(n, es)
    ensures NetInv(NetRun(n, es))
    decreases es
  {
    if es != [] {
      NetStepKeeps(n, es[0], NetStep(n, es[0]));
      NetRunKeeps(NetStep(n, es[0]), es[1..]);
    }
  }

  ghost function RunTrace(n: Net, es: seq<NetEvent>): seq<WorldEvent>
    requires NetRuns(n, es)
    decreases es
  {
    if es == [] then [] else Trace(n, es[0]) + RunTrace(NetStep(n, es[0]), es[1..])
  }

  lemma {:induction false} LeadsOn(w: World, a: seq<WorldEvent>, w1: World, b: seq<WorldEvent>, w2: World)
    requires Leads(w, a, w1) && Leads(w1, b, w2)
    ensures Leads(w, a + b, w2)
    decreases a
  {
    if a == [] {
      assert a + b == b;
    } else {
      LeadsOn(WorldStep(w, a[0]), a[1..], w1, b, w2);
      assert (a + b)[1..] == a[1..] + b;
    }
  }

  /** A run on the change list is a run of the groups in which every change is one nobody else notices. */
  lemma {:induction false} NetIsRun(n: Net, es: seq<NetEvent>)
    requires NetInv(n) && NetRuns(n, es)
    ensures Leads(n.groups, RunTrace(n, es), NetRun(n, es).groups)
    decreases es
  {
    if es != [] {
      var m := NetStep(n, es[0]);
      StepIsRun(n, es[0], m);
      NetStepKeeps(n, es[0], m);
      NetIsRun(m, es[1..]);
      LeadsOn(n.groups, Trace(n, es[0]), m.groups, RunTrace(m, es[1..]), NetRun(m, es[1..]).groups);
    }
  }
}
