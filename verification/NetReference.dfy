/**
  The reference of the fleet on its change list: a private RIB-OUT per peer that is handed what
  the peer's consumer is handed, and knows nothing of groups, versions, clones, rejoining,
  promoting or re-homing.
 */
module NetReference {
  import opened Types
  import opened PackingList
  import opened Advertised
  import opened GroupState
  import opened GroupInvariant
  import opened PrivateRibOut
  import opened Distribution
  import opened Rejoin
  import opened GroupSteps
  import opened SharingInvisible
  import opened Fleet
  import opened FleetRun
  import opened ShadowRib
  import opened ListConsumers
  import opened Net
  import opened NetInvariant
  import opened NetGroups
  import opened NetPeers
  import opened NetSteps
  import opened NetKeeps

  type Refs = map<PeerId, Table>

  function Handed(refs: Refs, ps: set<PeerId>, cs: seq<Change>, families: set<Afi>): Refs {
    map p | p in refs :: if p in ps then Private(refs[p], cs, families) else refs[p]
  }

  function Joined(refs: Refs, e: Event): Refs {
    if e.PeerRegistered? then refs[e.p := map[]] else if e.PeerUnregistered? then refs - {e.p} else refs
  }

  /** Members in sync are handed what their group consumes, detached ones what they consume. */
  ghost function RefNet(refs: Refs, n: Net, e: NetEvent): Refs {
    if ByGroup(e) && e.id in n.groups then Handed(refs, n.groups[e.id].sync, e.cs, n.groups[e.id].families)
    else if ByPeer(e) && e.id in n.control then Handed(refs, {e.p}, e.cs, n.control[e.id].families)
    else if e.GroupStepped? then Joined(refs, e.e)
    else refs
  }

  // ---------------------------------------------------------------- advertising the same

  lemma ProcessSame(t: Table, u: Table, c: Change)
    requires SamePosts(t, u)
    ensures SamePosts(Process(RibOut(t, map[]), c, false).table, Process(RibOut(u, map[]), c, false).table)
  {
    ProcessTable(RibOut(t, map[]), c, false);
    ProcessTable(RibOut(u, map[]), c, false);
  }

  lemma {:induction false} PrivateSame(t: Table, u: Table, cs: seq<Change>, families: set<Afi>)
    requires SamePosts(t, u)
    ensures SamePosts(Private(t, cs, families), Private(u, cs, families))
    decreases cs
  {
    if cs != [] {
      PrivateRunHead(t, cs, families);
      PrivateRunHead(u, cs, families);
      if AfiOf(cs[0].key.prefix) in families {
        ProcessSame(t, u, cs[0]);
        PrivateSame(Process(RibOut(t, map[]), cs[0], false).table, Process(RibOut(u, map[]), cs[0], false).table,
                    cs[1..], families);
      } else {
        PrivateSame(t, u, cs[1..], families);
      }
    }
  }

  /** Two tables that are right up to the end of the list advertise the same. */
  lemma EndsAgree(ctl: Control, s: Shadow, t: Table, u: Table, pos: nat, pos': nat)
    requires RightUpTo(ctl, s, pos, t) && RightUpTo(ctl, s, pos', u) && AtEnd(ctl, s, pos) && AtEnd(ctl, s, pos')
    ensures SamePosts(t, u)
  {
    forall k
      ensures Post(t, k) == Post(u, k)
    {
      assert Passed(ctl, s, pos, k) && Passed(ctl, s, pos', k);
      RightMeansDecided(ctl, s, t, k);
      RightMeansDecided(ctl, s, u, k);
    }
  }

  /** A peer that may rejoin, with its group, has nothing left to consume. */
  ghost predicate MayRejoin(n: Net, id: GroupId, p: PeerId) {
    && id in n.groups && id in n.control && p in n.groups[id].detached && p in n.seen && p !in n.under && id in n.at
    && AtEnd(n.control[id], n.shadow, n.at[id]) && AtEnd(n.control[id], n.shadow, n.seen[p])
  }

  lemma CandidateMayRejoin(n: Net, id: GroupId, candidates: set<PeerId>, p: PeerId)
    requires CanStep(n, id, PeersCollapsed(candidates)) && p in candidates
    ensures MayRejoin(n, id, p)
  {
    assert Candidate(n.groups[id], p);
  }

  /**
    Rejoining is invisible: a peer that may rejoin advertises what its group advertises, so
    bringing it to the group's table changes nothing it is told.
   */
  lemma RejoinChangesNothing(n: Net, id: GroupId, p: PeerId)
    requires NetInv(n) && MayRejoin(n, id, p)
    ensures p in n.groups[id].peers && SamePosts(TableOf(n.groups[id], p), n.groups[id].routes)
  {
    PeerFacts(n, id, p);
    EndsAgree(n.control[id], n.shadow, TableOf(n.groups[id], p), n.groups[id].routes, n.seen[p], n.at[id]);
  }

  lemma BestPathKey(ctl: Control, s: Shadow, t: Table, k: Key)
    requires !ctl.addPath && RightAt(ctl, s, t, k) && k in t
    ensures k.pathId == DEFAULT_PATH_ID
  {
  }

  lemma NothingToCorrect(ctl: Control, s: Shadow, q: Peer, routes: Table, k: Key)
    requires !ctl.addPath && (q.onRegistration ==> q.detachVersion == 0) && Positive(routes)
    requires forall j :: RightAt(ctl, s, View(q.own, routes, q.detachVersion), j) && RightAt(ctl, s, routes, j)
    ensures Correction(q, routes, k).None?
  {
    var t := View(q.own, routes, q.detachVersion);
    assert RightAt(ctl, s, t, k) && RightAt(ctl, s, routes, k);
    if k !in q.own && k in routes {
      BestPathKey(ctl, s, routes, k);
      forall j | j in q.own
        ensures j.prefix != k.prefix
      {
        assert RightAt(ctl, s, t, j);
        BestPathKey(ctl, s, t, j);
      }
    }
  }

  /** Without add-path a peer that may rejoin is never sent back. */
  lemma BestPathNeverRefused(n: Net, id: GroupId, p: PeerId)
    requires NetInv(n) && MayRejoin(n, id, p) && !n.control[id].addPath
    ensures p in n.groups[id].peers && Corrections(n.groups[id].peers[p], n.groups[id].routes) == map[]
  {
    RejoinerRight(n, id, p);
    NoCorrections(n.control[id], n.shadow, n.groups[id].peers[p], n.groups[id].routes);
  }

  lemma RejoinerRight(n: Net, id: GroupId, p: PeerId)
    requires NetInv(n) && MayRejoin(n, id, p)
    ensures p in n.groups[id].peers && Positive(n.groups[id].routes)
    ensures
      var g, q := n.groups[id], n.groups[id].peers[p];
      && (q.onRegistration ==> q.detachVersion == 0)
      && forall j :: RightAt(n.control[id], n.shadow, View(q.own, g.routes, q.detachVersion), j)
                     && RightAt(n.control[id], n.shadow, g.routes, j)
  {
    PeerFacts(n, id, p);
    var ctl, g, q := n.control[id], n.groups[id], n.groups[id].peers[p];
    assert DetachedOk(q, g.routes, g.lastSeen);
    forall j
      ensures RightAt(ctl, n.shadow, View(q.own, g.routes, q.detachVersion), j) && RightAt(ctl, n.shadow, g.routes, j)
    {
      assert Passed(ctl, n.shadow, n.seen[p], j) && Passed(ctl, n.shadow, n.at[id], j);
    }
  }

  lemma NoCorrections(ctl: Control, s: Shadow, q: Peer, routes: Table)
    requires !ctl.addPath && (q.onRegistration ==> q.detachVersion == 0) && Positive(routes)
    requires forall j :: RightAt(ctl, s, View(q.own, routes, q.detachVersion), j) && RightAt(ctl, s, routes, j)
    ensures Corrections(q, routes) == map[]
  {
    forall k
      ensures k !in Corrections(q, routes)
    {
      NothingToCorrect(ctl, s, q, routes, k);
    }
  }

  // ---------------------------------------------------------------- following

  ghost predicate Follows(refs: Refs, g: Group) {
    forall p | p in g.peers :: p in refs && SamePosts(refs[p], TableOf(g, p))
  }

  ghost predicate NetMatches(w: World, refs: Refs) {
    forall id | id in w :: Follows(refs, w[id])
  }

  /** The references of the members of the other groups stay. */
  ghost predicate OthersStay(w: World, id: GroupId, refs: Refs, refs': Refs) {
    forall j, p | j in w && j != id && p in w[j].peers && p in refs :: p in refs' && refs'[p] == refs[p]
  }

  lemma OneFollows(w: World, refs: Refs, id: GroupId, h: Group, refs': Refs)
    requires NetMatches(w, refs) && Follows(refs', h) && OthersStay(w, id, refs, refs')
    ensures NetMatches(w[id := h], refs')
  {
    var w' := w[id := h];
    forall j | j in w'
      ensures Follows(refs', w'[j])
    {
      if j != id { assert Follows(refs, w[j]); }
    }
  }

  lemma HandedOthers(w: World, id: GroupId, refs: Refs, ps: set<PeerId>, cs: seq<Change>, families: set<Afi>)
    requires Apart(w) && id in w && ps <= w[id].peers.Keys
    ensures OthersStay(w, id, refs, Handed(refs, ps, cs, families))
  {
    forall j, p | j in w && j != id && p in w[j].peers
      ensures p !in ps
    {
    }
  }

  lemma BatchFollows(g: Group, h: Group, refs: Refs, cs: seq<Change>, top: nat)
    requires Batched(g, h, cs, top) && Follows(refs, g) && SetsOk(g)
    ensures Follows(Handed(refs, g.sync, cs, g.families), h)
  {
    forall p | p in h.peers
      ensures p in refs && SamePosts(Handed(refs, g.sync, cs, g.families)[p], TableOf(h, p))
    {
      assert p in g.peers;
      if p in g.sync {
        PrivateSame(refs[p], TableOf(g, p), cs, g.families);
      } else {
        assert Unnoticed(g, h, p);
      }
    }
  }

  lemma PeerFollows(g: Group, h: Group, p: PeerId, refs: Refs, cs: seq<Change>, families: set<Afi>)
    requires OnlyPeer(g, h, p) && Follows(refs, g) && TableOf(h, p) == Private(TableOf(g, p), cs, families)
    ensures Follows(Handed(refs, {p}, cs, families), h)
  {
    forall r | r in h.peers
      ensures r in refs && SamePosts(Handed(refs, {p}, cs, families)[r], TableOf(h, r))
    {
      if r == p {
        PrivateSame(refs[p], TableOf(g, p), cs, families);
      } else {
        OnlyPeerTable(g, h, p, r);
      }
    }
  }

  lemma StepTableFollows(n: Net, refs: Refs, id: GroupId, e: Event, h: Group, p: PeerId)
    requires NetInv(n) && CanStep(n, id, e) && TablesKept(n.groups[id], e, h)
    requires p in h.peers && p in n.groups[id].peers && p in refs && SamePosts(refs[p], TableOf(n.groups[id], p))
    ensures SamePosts(refs[p], TableOf(h, p))
  {
    if Rejoins(e, p) {
      CandidateMayRejoin(n, id, e.candidates, p);
      RejoinChangesNothing(n, id, p);
    }
  }

  lemma RegisteredEmpty(g: Group, p: PeerId)
    requires Inv(g) && p !in g.peers
    ensures p in Register(g, p).peers && TableOf(Register(g, p), p) == map[]
  {
    RegisterTables(g, p);
    AbsTables(Register(g, p));
  }

  lemma NobodyLeft(g: Group, e: Event, h: Group, p: PeerId)
    requires Enabled(g, e) && h == Step(g, e) && p in h.peers
    ensures e != PeerUnregistered(p)
    ensures e == PeerRegistered(p) ==> p !in g.peers && h == Register(g, p)
  {
  }

  lemma StepPeerFollows(n: Net, refs: Refs, id: GroupId, e: Event, h: Group, p: PeerId)
    requires NetInv(n) && CanStep(n, id, e) && TablesKept(n.groups[id], e, h)
    requires p in h.peers && e != PeerUnregistered(p) && (p in n.groups[id].peers || e == PeerRegistered(p))
    requires p in n.groups[id].peers ==> p in refs && SamePosts(refs[p], TableOf(n.groups[id], p))
    requires e == PeerRegistered(p) ==> TableOf(h, p) == map[]
    ensures p in Joined(refs, e) && SamePosts(Joined(refs, e)[p], TableOf(h, p))
  {
    JoinedAt(refs, e, p);
    if e != PeerRegistered(p) { StepTableFollows(n, refs, id, e, h, p); }
  }

  lemma JoinedAt(refs: Refs, e: Event, p: PeerId)
    ensures e == PeerRegistered(p) ==> p in Joined(refs, e) && Joined(refs, e)[p] == map[]
    ensures p in refs && e != PeerRegistered(p) && e != PeerUnregistered(p) ==>
      p in Joined(refs, e) && Joined(refs, e)[p] == refs[p]
  {
  }

  lemma StepGroupFollows(n: Net, refs: Refs, id: GroupId, e: Event, h: Group)
    requires NetInv(n) && CanStep(n, id, e) && h == Step(n.groups[id], e) && Follows(refs, n.groups[id])
    ensures Follows(Joined(refs, e), h)
  {
    GroupInv(n, id);
    StepTablesKept(n.groups[id], e, h);
    forall p | p in h.peers
      ensures p in Joined(refs, e) && SamePosts(Joined(refs, e)[p], TableOf(h, p))
    {
      StepPeers(n.groups[id], e, p);
      NobodyLeft(n.groups[id], e, h, p);
      if e == PeerRegistered(p) { RegisteredEmpty(n.groups[id], p); }
      StepPeerFollows(n, refs, id, e, h, p);
    }
  }

  lemma GroupInv(n: Net, id: GroupId)
    requires NetInv(n) && id in n.groups
    ensures Inv(n.groups[id]) && SetsOk(n.groups[id]) && GroupOk(n, id) && Apart(n.groups)
  {
  }

  lemma JoinedOthers(w: World, refs: Refs, id: GroupId, e: Event)
    requires Apart(w) && id in w && (e.PeerRegistered? ==> !Known(w, e.p))
    requires e.PeerUnregistered? ==> e.p in w[id].peers
    ensures OthersStay(w, id, refs, Joined(refs, e))
  {
  }

  // ---------------------------------------------------------------- every step

  lemma BatchMatches(w: World, refs: Refs, id: GroupId, h: Group, cs: seq<Change>, top: nat)
    requires Apart(w) && NetMatches(w, refs) && id in w && SetsOk(w[id]) && Batched(w[id], h, cs, top)
    ensures NetMatches(w[id := h], Handed(refs, w[id].sync, cs, w[id].families))
  {
    var g := w[id];
    BatchFollows(g, h, refs, cs, top);
    HandedOthers(w, id, refs, g.sync, cs, g.families);
    OneFollows(w, refs, id, h, Handed(refs, g.sync, cs, g.families));
  }

  lemma GroupEventFollows(n: Net, refs: Refs, e: NetEvent, m: Net)
    requires NetInv(n) && NetMatches(n.groups, refs) && GroupGoes(n, e, m)
    ensures NetMatches(m.groups, RefNet(refs, n, e))
  {
    GroupBatched(n, e);
    GroupInv(n, e.id);
    BatchMatches(n.groups, refs, e.id, AfterBatch(n, e), e.cs, n.top);
  }

  lemma PeerMatches(w: World, refs: Refs, id: GroupId, p: PeerId, h: Group, cs: seq<Change>, families: set<Afi>)
    requires Apart(w) && NetMatches(w, refs) && id in w && OnlyPeer(w[id], h, p)
    requires TableOf(h, p) == Private(TableOf(w[id], p), cs, families)
    ensures NetMatches(w[id := h], Handed(refs, {p}, cs, families))
  {
    PeerFollows(w[id], h, p, refs, cs, families);
    HandedOthers(w, id, refs, {p}, cs, families);
    OneFollows(w, refs, id, h, Handed(refs, {p}, cs, families));
  }

  lemma ReadyMatches(n: Net, refs: Refs, e: NetEvent)
    requires Apart(n.groups) && NetMatches(n.groups, refs) && ByPeer(e) && PeerReady(n, e)
    ensures NetMatches(AfterPeer(n, e).groups, Handed(refs, {e.p}, e.cs, n.control[e.id].families))
  {
    var h := ProcessAllForPeer(n.groups[e.id], e.p, e.cs, e.PeerRefreshed?);
    PeerBatchMoves(n.groups[e.id], e.p, n.control[e.id], n.shadow, n.top, e.cs, e.PeerRefreshed?);
    PeerMatches(n.groups, refs, e.id, e.p, h, e.cs, n.control[e.id].families);
  }

  lemma StepEventFollows(n: Net, refs: Refs, id: GroupId, e: Event, h: Group)
    requires NetInv(n) && NetMatches(n.groups, refs) && CanStep(n, id, e) && h == Step(n.groups[id], e)
    ensures NetMatches(n.groups[id := h], Joined(refs, e))
  {
    StepGroupFollows(n, refs, id, e, h);
    GroupInv(n, id);
    EventPeers(n.groups[id], e);
    JoinedOthers(n.groups, refs, id, e);
    OneFollows(n.groups, refs, id, h, Joined(refs, e));
  }

  /** Both groups of a re-homing hold the tables their members had. */
  lemma TwoFollow(w: World, refs: Refs, src: GroupId, dst: GroupId, h: Group, rest: Group)
    requires NetMatches(w, refs) && src in w && src != dst
    requires forall p | p in rest.peers :: p in w[src].peers && TableOf(rest, p) == TableOf(w[src], p)
    requires forall p | p in h.peers ::
      || (p in w[src].peers && TableOf(h, p) == TableOf(w[src], p))
      || (dst in w && p in w[dst].peers && TableOf(h, p) == TableOf(w[dst], p))
    ensures NetMatches(w[dst := h][src := rest], refs)
  {
    assert Follows(refs, w[src]);
    assert dst in w ==> Follows(refs, w[dst]);
  }

  lemma SplitFollows(w: World, refs: Refs, src: GroupId, dst: GroupId, families: set<Afi>, ps: set<PeerId>)
    requires NetMatches(w, refs) && src in w && dst !in w
    ensures NetMatches(SplitWorld(w, src, dst, families, ps), refs)
  {
    var g := w[src];
    var h, rest := SplitOff(g, families, ps), Remainder(g, ps);
    SplitFrame(g, families, ps);
    forall p
      ensures p in h.peers ==> p in g.peers && TableOf(h, p) == TableOf(g, p)
      ensures p in rest.peers ==> p in g.peers && TableOf(rest, p) == TableOf(g, p)
    {
      CarriedTable(g, ps, p, h);
      LeftTable(g, ps, p, rest);
    }
    TwoFollow(w, refs, src, dst, h, rest);
  }

  lemma MoveFollows(w: World, refs: Refs, src: GroupId, dst: GroupId, ps: set<PeerId>)
    requires WorldInv(w) && NetMatches(w, refs) && src in w && dst in w && src != dst && ps <= w[src].detached
    ensures NetMatches(MoveWorld(w, src, dst, ps), refs)
  {
    var h, rest := MoveInto(w[dst], w[src], ps), Remainder(w[src], ps);
    MovedDisjoint(w, src, dst, ps);
    MovedTables(w[src], w[dst], ps, h, rest);
    TwoFollow(w, refs, src, dst, h, rest);
  }

  lemma CreatedFollows(w: World, refs: Refs, id: GroupId, families: set<Afi>)
    requires NetMatches(w, refs)
    ensures NetMatches(w[id := Fresh(families)], refs) && NetMatches(w - {id}, refs)
  {
  }

  lemma FleetEventFollows(n: Net, refs: Refs, e: NetEvent, m: Net)
    requires WorldInv(n.groups) && NetMatches(n.groups, refs) && Goes(n, e, m)
    requires !ByPeer(e) && !ByGroup(e) && !e.GroupStepped?
    ensures NetMatches(m.groups, refs)
  {
    match e
    case Published(_, _) =>
    case Forgotten(_) =>
    case ListJoined(_, _) =>
    case GroupCreated(id, ctl) => CreatedFollows(n.groups, refs, id, ctl.families);
    case GroupDestroyed(id) => CreatedFollows(n.groups, refs, id, {});
    case GroupSplit(src, dst, ps) => SplitFollows(n.groups, refs, src, dst, n.control[src].families, ps);
    case PeersMoved(src, dst, ps) => MoveFollows(n.groups, refs, src, dst, ps);
  }

  lemma RefNetPeer(refs: Refs, n: Net, e: NetEvent)
    requires ByPeer(e) && e.id in n.control
    ensures RefNet(refs, n, e) == Handed(refs, {e.p}, e.cs, n.control[e.id].families)
  {
  }

  lemma PeerEventFollows(n: Net, refs: Refs, e: NetEvent, m: Net)
    requires Apart(n.groups) && NetMatches(n.groups, refs) && ByPeer(e) && PeerReady(n, e) && m == AfterPeer(n, e)
    ensures NetMatches(m.groups, RefNet(refs, n, e))
  {
    RefNetPeer(refs, n, e);
    ReadyMatches(n, refs, e);
  }

  /** Each step of the fleet is a step of its reference. */
  lemma NetStepFollows(n: Net, refs: Refs, e: NetEvent, m: Net)
    requires NetInv(n) && NetMatches(n.groups, refs) && Goes(n, e, m)
    ensures NetMatches(m.groups, RefNet(refs, n, e))
  {
    if ByPeer(e) {
      PeerEventGoes(n, e, m);
      PeerEventReady(n, e);
      PeerEventFollows(n, refs, e, m);
    } else if ByGroup(e) {
      GroupEventGoes(n, e, m);
      GroupEventFollows(n, refs, e, m);
    } else if e.GroupStepped? {
      SteppedTo(n, e.id, e.e, m);
      StepEventFollows(n, refs, e.id, e.e, Step(n.groups[e.id], e.e));
    } else {
      FleetEventFollows(n, refs, e, m);
    }
  }

  // ---------------------------------------------------------------- runs

  ghost function RefRun(refs: Refs, n: Net, es: seq<NetEvent>): Refs
    requires NetRuns(n, es)
    decreases es
  {
    if es == [] then refs else RefRun(RefNet(refs, n, es[0]), NetStep(n, es[0]), es[1..])
  }

  lemma {:induction false} NetRunFollows(n: Net, refs: Refs, es: seq<NetEvent>)
    requires NetInv(n) && NetMatches(n.groups, refs) && NetRuns(n, es)
    ensures NetInv(NetRun(n, es)) && NetMatches(NetRun(n, es).groups, RefRun(refs, n, es))
    decreases es
  {
    if es != [] {
      var m := NetStep(n, es[0]);
      NetStepKeeps(n, es[0], m);
      NetStepFollows(n, refs, es[0], m);
      NetRunFollows(m, RefNet(refs, n, es[0]), es[1..]);
    }
  }

  /** A member of a group the run reaches, and an order its packing list can go out in. */
  ghost predicate Reached(es: seq<NetEvent>, id: GroupId, p: PeerId, order: seq<Bucket>) {
    && NetRuns(START, es)
    && var w := NetRun(START, es).groups;
       && id in w && p in w[id].peers
       && (forall b :: b in order <==> b in PackingOf(w[id], p))
       && (forall i, j | 0 <= i < j < |order| :: order[i] != order[j])
  }

  /** The route a member holds once everything pushed, deferred or packed for it has arrived. */
  ghost function ToldAt(g: Group, p: PeerId, order: seq<Bucket>, k: Key): Option<BgpPath>
    requires p in g.peers && forall b | b in order :: b in PackingOf(g, p)
  {
    Holds(DrainAll(ReceiveAll(g.peers[p].sent, g.peers[p].inFlight), PackingOf(g, p), order), k)
  }

  lemma ReachedTold(es: seq<NetEvent>, id: GroupId, p: PeerId, order: seq<Bucket>, k: Key)
    requires Reached(es, id, p, order)
    ensures NetInv(NetRun(START, es)) && NetMatches(NetRun(START, es).groups, RefRun(map[], START, es))
    ensures
      var g := NetRun(START, es).groups[id];
      |g.peers[p].inFlight| <= 1 && ToldAt(g, p, order, k) == Post(TableOf(g, p), k)
  {
    var w := NetRun(START, es).groups;
    StartInv();
    NetRunFollows(START, map[], es);
    ServedMember(w[id], p);
    ServedTells(w[id].peers[p], TableOf(w[id], p), PackingOf(w[id], p), order, k);
  }

  /**
    The main theorem: after any run from nothing, every member of every group is told exactly
    the RIB-OUT it would have kept for itself from what its consumer was handed.
   */
  lemma FleetIsTold(es: seq<NetEvent>, id: GroupId, p: PeerId, order: seq<Bucket>, k: Key)
    requires Reached(es, id, p, order)
    ensures
      var g, refs := NetRun(START, es).groups[id], RefRun(map[], START, es);
      p in refs && |g.peers[p].inFlight| <= 1 && ToldAt(g, p, order, k) == Post(refs[p], k)
  {
    ReachedTold(es, id, p, order, k);
    var w, refs := NetRun(START, es).groups, RefRun(map[], START, es);
    assert Follows(refs, w[id]);
    assert SamePosts(refs[p], TableOf(w[id], p));
  }

  /** Nothing about the route is due to the member, and it does not wait for a re-evaluation. */
  ghost predicate UpToDate(n: Net, id: GroupId, p: PeerId, k: Key) {
    && id in n.groups && id in n.control
    && if p in n.groups[id].sync then id in n.at && Passed(n.control[id], n.shadow, n.at[id], k)
       else p in n.seen && p !in n.under && Passed(n.control[id], n.shadow, n.seen[p], k)
  }

  lemma UpToDateRight(n: Net, id: GroupId, p: PeerId, k: Key)
    requires NetInv(n) && UpToDate(n, id, p, k) && p in n.groups[id].peers
    ensures Post(TableOf(n.groups[id], p), k) == Decided(n.control[id], n.shadow, k)
  {
    GroupInv(n, id);
    if p !in n.groups[id].sync {
      assert PeerOk(n, id, p);
    }
    RightMeansDecided(n.control[id], n.shadow, TableOf(n.groups[id], p), k);
  }

  /**
    After any run from nothing, every member with nothing due to it about a route is told exactly
    what its group's checks and policy make of the path the RIB holds now.
   */
  lemma FleetConverges(es: seq<NetEvent>, id: GroupId, p: PeerId, order: seq<Bucket>, k: Key)
    requires Reached(es, id, p, order) && UpToDate(NetRun(START, es), id, p, k)
    ensures
      var n := NetRun(START, es);
      ToldAt(n.groups[id], p, order, k) == Decided(n.control[id], n.shadow, k)
  {
    ReachedTold(es, id, p, order, k);
    UpToDateRight(NetRun(START, es), id, p, k);
  }

  /** After any run: the members, bitmaps and counters of every group agree. */
  lemma FleetMembers(es: seq<NetEvent>, id: GroupId)
    requires NetRuns(START, es) && id in NetRun(START, es).groups
    ensures MembersOk(NetRun(START, es).groups[id])
  {
    StartInv();
    NetRunKeeps(START, es);
    GroupInv(NetRun(START, es), id);
  }

  lemma SendsBuilding(n: Net, id: GroupId, e: Event)
    requires NetEnabled(n, GroupStepped(id, e)) && (e.UpdateSent? || e.EndOfRibSent?)
    ensures id in n.groups && n.groups[id].builder.At?
  {
  }

  /** After any run: nothing is pushed to a peer that still has a deferred message. */
  lemma FleetOrdering(es: seq<NetEvent>, id: GroupId, e: Event, p: PeerId)
    requires NetRuns(START, es) && NetEnabled(NetRun(START, es), GroupStepped(id, e))
    requires (e.UpdateSent? || e.EndOfRibSent?) && id in NetRun(START, es).groups && p in NetRun(START, es).groups[id].sync
    ensures p in NetRun(START, es).groups[id].peers && NetRun(START, es).groups[id].peers[p].inFlight == []
  {
    var n := NetRun(START, es);
    StartInv();
    NetRunKeeps(START, es);
    SendsBuilding(n, id, e);
    OrderedPush(n, id, p);
  }

  lemma OrderedPush(n: Net, id: GroupId, p: PeerId)
    requires NetInv(n) && id in n.groups && n.groups[id].builder.At? && p in n.groups[id].sync
    ensures p in n.groups[id].peers && n.groups[id].peers[p].inFlight == []
  {
    GroupInv(n, id);
    NothingOvertakes(n.groups[id], p);
  }

  /** After any run: markers sent and still owed never exceed the markings, family by family. */
  lemma FleetMarks(es: seq<NetEvent>, id: GroupId, p: PeerId, a: Afi)
    requires NetRuns(START, es) && id in NetRun(START, es).groups && p in NetRun(START, es).groups[id].peers
    ensures
      var q := NetRun(START, es).groups[id].peers[p];
      q.eorSent[a] + (if a in q.owes then 1 else 0) <= q.eorMarked[a]
  {
    StartInv();
    NetRunKeeps(START, es);
    GroupInv(NetRun(START, es), id);
    ServedMember(NetRun(START, es).groups[id], p);
  }
}
