/** Conservation of the global sent-prefix total over runs of the whole fleet. */
module FleetCounts {
  import opened Types
  import opened Sums
  import opened GroupState
  import opened GroupInvariant
  import opened Rejoin
  import opened GroupSteps
  import opened Fleet
  import opened FleetRun
  import opened Counts
  import opened Net
  import opened NetInvariant
  import opened NetPeers
  import opened NetKeeps
  import opened NetReference

  // ---------------------------------------------------------------- re-homing

  /** A group that loses `ps` and one that carries them share the counts between them. */
  lemma SplitSums(g: Group, ps: set<PeerId>, h: Group, rest: Group)
    requires Carries(g, ps, h) && Leaves(g, ps, rest)
    ensures Sum(DetachedCounts(g)) == Sum(DetachedCounts(h)) + Sum(DetachedCounts(rest))
  {
    var m, a, b := DetachedCounts(g), DetachedCounts(h), DetachedCounts(rest);
    forall p
      ensures p in a <==> p in m && p in ps
      ensures p in b <==> p in m && p !in ps
    {
    }
    SumSplit(m, a, b);
  }

  lemma CardSplit<T>(s: set<T>, ps: set<T>)
    ensures |s| == |s * ps| + |s - ps|
  {
    assert s == (s * ps) + (s - ps);
  }

  lemma SplitConserves(g: Group, families: set<Afi>, ps: set<PeerId>)
    ensures Contribution(SplitOff(g, families, ps)) + Contribution(Remainder(g, ps)) == Contribution(g)
  {
    SplitFrame(g, families, ps);
    SplitSync(g, families, ps);
    SplitShares(g, ps, SplitOff(g, families, ps), Remainder(g, ps));
  }

  lemma SplitSync(g: Group, families: set<Afi>, ps: set<PeerId>)
    ensures SplitOff(g, families, ps).sync == g.sync * ps && Remainder(g, ps).sync == g.sync - ps
    ensures SplitOff(g, families, ps).postOut == g.postOut && Remainder(g, ps).postOut == g.postOut
  {
  }

  lemma SplitShares(g: Group, ps: set<PeerId>, h: Group, rest: Group)
    requires Carries(g, ps, h) && Leaves(g, ps, rest) && h.postOut == g.postOut && rest.postOut == g.postOut
    requires h.sync == g.sync * ps && rest.sync == g.sync - ps
    ensures Contribution(h) + Contribution(rest) == Contribution(g)
  {
    SplitSums(g, ps, h, rest);
    CardSplit(g.sync, ps);
    Distribute(|g.sync * ps|, |g.sync - ps|, g.postOut);
  }

  lemma SplitCounts(g: Group, families: set<Afi>, ps: set<PeerId>, h: Group, rest: Group)
    requires CountsOk(g) && Carries(g, ps, h) && Leaves(g, ps, rest) && h.postOut == g.postOut && rest.postOut == g.postOut
    ensures CountsOk(h) && CountsOk(rest)
  {
    forall p
      ensures p in h.peers ==> p in g.peers && TableOf(h, p) == TableOf(g, p)
      ensures p in rest.peers ==> p in g.peers && TableOf(rest, p) == TableOf(g, p)
    {
      CarriedTable(g, ps, p, h);
      LeftTable(g, ps, p, rest);
    }
  }

  function Moving(g: Group, ps: set<PeerId>): map<nat, nat> {
    map p | p in ps && p in g.peers :: g.peers[p].postOut
  }

  lemma MoveSumTarget(target: Group, g: Group, ps: set<PeerId>, h: Group)
    requires SetsOk(target) && SetsOk(g) && CanMove(g, target, ps) && h == MoveInto(target, g, ps)
    ensures Sum(DetachedCounts(h)) == Sum(DetachedCounts(target)) + Sum(Moving(g, ps))
  {
    forall p
      ensures Part(DetachedCounts(h), DetachedCounts(target), Moving(g, ps), p)
    {
      MoveSumAt(target, g, ps, h, p);
    }
    SumParts(DetachedCounts(h), DetachedCounts(target), Moving(g, ps));
  }

  lemma MoveSumAt(target: Group, g: Group, ps: set<PeerId>, h: Group, p: PeerId)
    requires SetsOk(target) && SetsOk(g) && CanMove(g, target, ps) && h == MoveInto(target, g, ps)
    ensures Part(DetachedCounts(h), DetachedCounts(target), Moving(g, ps), p)
  {
    MoveFrame(target, g, ps, p);
  }

  lemma MoveSumSource(g: Group, ps: set<PeerId>, rest: Group)
    requires SetsOk(g) && ps <= g.detached && Leaves(g, ps, rest)
    ensures Sum(DetachedCounts(g)) == Sum(Moving(g, ps)) + Sum(DetachedCounts(rest))
  {
    SumSplit(DetachedCounts(g), Moving(g, ps), DetachedCounts(rest));
  }

  lemma MoveFields(target: Group, g: Group, ps: set<PeerId>)
    requires SetsOk(g) && ps <= g.detached
    ensures MoveInto(target, g, ps).sync == target.sync && MoveInto(target, g, ps).postOut == target.postOut
    ensures Remainder(g, ps).sync == g.sync && Remainder(g, ps).postOut == g.postOut
  {
    assert g.sync - ps == g.sync;
  }

  lemma MoveConserves(target: Group, g: Group, ps: set<PeerId>, h: Group, rest: Group)
    requires SetsOk(target) && SetsOk(g) && CanMove(g, target, ps)
    requires h == MoveInto(target, g, ps) && rest == Remainder(g, ps)
    ensures Contribution(h) + Contribution(rest) == Contribution(target) + Contribution(g)
  {
    SplitFrame(g, {}, ps);
    MoveSumTarget(target, g, ps, h);
    MoveSumSource(g, ps, rest);
    MoveFields(target, g, ps);
  }

  lemma MoveCounts(target: Group, g: Group, ps: set<PeerId>, h: Group)
    requires SetsOk(target) && Positive(target.routes) && CountsOk(target) && CountsOk(g)
    requires SetsOk(g) && PeersOk(g) && Positive(g.routes) && CanMove(g, target, ps)
    requires h == MoveInto(target, g, ps)
    ensures CountsOk(h)
  {
    forall p | p in h.detached && p in h.peers
      ensures h.peers[p].postOut == |Adv(TableOf(h, p))|
    {
      MoveTables(target, g, ps, p, h);
      MoveFrame(target, g, ps, p);
    }
  }

  // ---------------------------------------------------------------- runs

  ghost function Shares(w: World): map<nat, nat> {
    map id | id in w :: Contribution(w[id])
  }

  ghost predicate AllCounts(w: World) {
    forall id | id in w :: CountsOk(w[id])
  }

  ghost predicate WorldNoFailedRejoin(w: World, e: WorldEvent) {
    e.Local? && e.id in w ==> NoFailedRejoin(w[e.id], e.e)
  }

  /** What the steps do to the global total: re-homing leaves it alone. */
  ghost function WorldNextTotal(total: nat, w: World, e: WorldEvent): nat
    requires WorldEnabled(w, e)
  {
    if e.Local? then NextTotal(total, w[e.id], e.e) else total
  }

  lemma OneCounts(w: World, id: GroupId, h: Group)
    requires AllCounts(w) && CountsOk(h)
    ensures AllCounts(w[id := h])
  {
  }

  lemma SharesAt(w: World, id: GroupId)
    requires id in w
    ensures Sum(Shares(w)) == Sum(Shares(w) - {id}) + Contribution(w[id])
  {
    SumRemove(Shares(w), id);
  }

  lemma LocalConserves(w: World, id: GroupId, e: Event)
    requires id in w && AllCounts(w) && Inv(w[id]) && Enabled(w[id], e) && NoFailedRejoin(w[id], e)
    ensures AllCounts(w[id := Step(w[id], e)])
    ensures NextTotal(Sum(Shares(w)), w[id], e) == Sum(Shares(w[id := Step(w[id], e)]))
  {
    SharesAt(w, id);
    StepConserves(w[id], e, Sum(Shares(w) - {id}), Sum(Shares(w)));
    SharesUpdate(w, id, Step(w[id], e));
    OneCounts(w, id, Step(w[id], e));
  }

  lemma SharesUpdate(w: World, id: GroupId, h: Group)
    requires id in w
    ensures Sum(Shares(w[id := h])) == Sum(Shares(w) - {id}) + Contribution(h)
  {
    SumRemove(Shares(w[id := h]), id);
    assert Shares(w[id := h]) - {id} == Shares(w) - {id};
  }

  lemma SharesAdd(w: World, id: GroupId, h: Group)
    requires id !in w
    ensures Sum(Shares(w[id := h])) == Sum(Shares(w)) + Contribution(h)
  {
    assert Shares(w[id := h]) == Shares(w)[id := Contribution(h)];
    SumAdd(Shares(w), id, Contribution(h));
  }

  lemma SharesSet(w: World, id: GroupId, h: Group)
    requires id in w
    ensures Sum(Shares(w[id := h])) + Contribution(w[id]) == Sum(Shares(w)) + Contribution(h)
  {
    SharesUpdate(w, id, h);
    SumRemove(Shares(w), id);
  }

  lemma SplitWorldConserves(w: World, src: GroupId, dst: GroupId, families: set<Afi>, ps: set<PeerId>)
    requires AllCounts(w) && src in w && dst !in w
    ensures AllCounts(SplitWorld(w, src, dst, families, ps))
    ensures Sum(Shares(SplitWorld(w, src, dst, families, ps))) == Sum(Shares(w))
  {
    var h, rest := SplitOff(w[src], families, ps), Remainder(w[src], ps);
    SplitFrame(w[src], families, ps);
    SplitCounts(w[src], families, ps, h, rest);
    SplitConserves(w[src], families, ps);
    SharesAdd(w, dst, h);
    SharesSet(w[dst := h], src, rest);
  }

  lemma TwoConserve(w: World, src: GroupId, dst: GroupId, h: Group, rest: Group)
    requires AllCounts(w) && src in w && dst in w && src != dst && CountsOk(h) && CountsOk(rest)
    requires Contribution(h) + Contribution(rest) == Contribution(w[dst]) + Contribution(w[src])
    ensures AllCounts(w[dst := h][src := rest]) && Sum(Shares(w[dst := h][src := rest])) == Sum(Shares(w))
  {
    OneCounts(w, dst, h);
    OneCounts(w[dst := h], src, rest);
    SharesSet(w, dst, h);
    SharesSet(w[dst := h], src, rest);
  }

  lemma MoveWorldConserves(w: World, src: GroupId, dst: GroupId, ps: set<PeerId>)
    requires WorldInv(w) && AllCounts(w) && src in w && dst in w && src != dst && ps <= w[src].detached
    ensures AllCounts(MoveWorld(w, src, dst, ps))
    ensures Sum(Shares(MoveWorld(w, src, dst, ps))) == Sum(Shares(w))
  {
    MovedDisjoint(w, src, dst, ps);
    MoveCounts(w[dst], w[src], ps, MoveInto(w[dst], w[src], ps));
    RemainderCounts(w[src], ps);
    MoveConserves(w[dst], w[src], ps, MoveInto(w[dst], w[src], ps), Remainder(w[src], ps));
    TwoConserve(w, src, dst, MoveInto(w[dst], w[src], ps), Remainder(w[src], ps));
  }

  lemma RemainderCounts(g: Group, ps: set<PeerId>)
    requires CountsOk(g)
    ensures CountsOk(Remainder(g, ps))
  {
    SplitFrame(g, {}, ps);
    SplitCounts(g, {}, ps, SplitOff(g, {}, ps), Remainder(g, ps));
  }

  lemma CreatedConserves(w: World, id: GroupId, families: set<Afi>)
    requires AllCounts(w) && id !in w
    ensures AllCounts(w[id := Fresh(families)]) && Sum(Shares(w[id := Fresh(families)])) == Sum(Shares(w))
  {
    SharesAdd(w, id, Fresh(families));
    assert Adv(map[]) == {} && DetachedCounts(Fresh(families)) == map[];
  }

  lemma EmptyShare(g: Group)
    requires g.peers == map[] && SetsOk(g)
    ensures Contribution(g) == 0
  {
    assert g.sync == {};
    assert DetachedCounts(g) == map[];
  }

  lemma SharesWithout(w: World, id: GroupId)
    requires id in w
    ensures id in Shares(w) && Shares(w)[id] == Contribution(w[id]) && Shares(w - {id}) == Shares(w) - {id}
  {
  }

  lemma CountsWithoutGroup(w: World, id: GroupId)
    requires AllCounts(w)
    ensures AllCounts(w - {id})
  {
  }

  lemma EmptyRemoved(m: map<GroupId, nat>, id: GroupId)
    requires id in m && m[id] == 0
    ensures Sum(m - {id}) == Sum(m)
  {
    SumRemove(m, id);
  }

  lemma DestroyedConserves(w: World, id: GroupId)
    requires AllCounts(w) && id in w && w[id].peers == map[] && SetsOk(w[id])
    ensures AllCounts(w - {id}) && Sum(Shares(w - {id})) == Sum(Shares(w))
  {
    EmptyShare(w[id]);
    SharesWithout(w, id);
    CountsWithoutGroup(w, id);
    EmptyRemoved(Shares(w), id);
  }

  lemma WorldStepConserves(w: World, e: WorldEvent)
    requires WorldInv(w) && AllCounts(w) && WorldEnabled(w, e) && WorldNoFailedRejoin(w, e)
    ensures AllCounts(WorldStep(w, e))
    ensures WorldNextTotal(Sum(Shares(w)), w, e) == Sum(Shares(WorldStep(w, e)))
  {
    match e
    case Created(id, families) => CreatedConserves(w, id, families);
    case Destroyed(id) => DestroyedConserves(w, id);
    case Local(id, e) => LocalConserves(w, id, e);
    case Split(src, dst, families, ps) => SplitWorldConserves(w, src, dst, families, ps);
    case Moved(src, dst, ps) => MoveWorldConserves(w, src, dst, ps);
  }

  ghost predicate NoFailedRejoins(w: World, es: seq<WorldEvent>)
    requires WorldRuns(w, es)
    decreases es
  {
    es == [] || (WorldNoFailedRejoin(w, es[0]) && NoFailedRejoins(WorldStep(w, es[0]), es[1..]))
  }

  ghost function TotalRun(total: nat, w: World, es: seq<WorldEvent>): nat
    requires WorldRuns(w, es)
    decreases es
  {
    if es == [] then total else TotalRun(WorldNextTotal(total, w, es[0]), WorldStep(w, es[0]), es[1..])
  }

  lemma {:induction false} RunConserves(w: World, es: seq<WorldEvent>)
    requires WorldInv(w) && AllCounts(w) && WorldRuns(w, es) && NoFailedRejoins(w, es)
    ensures AllCounts(WorldRun(w, es)) && TotalRun(Sum(Shares(w)), w, es) == Sum(Shares(WorldRun(w, es)))
    decreases es
  {
    if es != [] {
      WorldStepKeeps(w, es[0]);
      WorldStepConserves(w, es[0]);
      RunConserves(WorldStep(w, es[0]), es[1..]);
    }
  }

  /**
    Over any run from nothing without a failed rejoin, every counter equals the routes it
    counts, and the global total is, summed over the groups, in-sync peers times the group's
    count plus the detached peers' counts.
   */
  lemma FleetConserves(es: seq<NetEvent>)
    requires NetRuns(START, es)
    ensures
      var trace, w := RunTrace(START, es), NetRun(START, es).groups;
      && WorldRuns(map[], trace)
      && (NoFailedRejoins(map[], trace) ==> AllCounts(w) && TotalRun(0, map[], trace) == Sum(Shares(w)))
  {
    StartInv();
    NetIsRun(START, es);
    assert Shares(map[]) == map[];
    if NoFailedRejoins(map[], RunTrace(START, es)) {
      RunConserves(map[], RunTrace(START, es));
    }
  }

  // ---------------------------------------------------------------- without add-path

  ghost predicate BestPathOnly(n: Net) {
    forall id | id in n.control :: !n.control[id].addPath
  }

  predicate BestPathEvent(e: NetEvent) {
    e.GroupCreated? ==> !e.ctl.addPath
  }

  lemma BestPathStep(n: Net, e: NetEvent, m: Net)
    requires BestPathOnly(n) && BestPathEvent(e) && Goes(n, e, m)
    ensures BestPathOnly(m)
  {
  }

  ghost predicate Unrefused(w: World, es: seq<WorldEvent>) {
    WorldRuns(w, es) && NoFailedRejoins(w, es)
  }

  lemma {:induction false} UnrefusedOn(w: World, a: seq<WorldEvent>, w1: World, b: seq<WorldEvent>)
    requires Leads(w, a, w1) && Unrefused(w, a) && Unrefused(w1, b)
    ensures Unrefused(w, a + b)
    decreases a
  {
    if a == [] {
      assert a + b == b;
    } else {
      UnrefusedOn(WorldStep(w, a[0]), a[1..], w1, b);
      assert (a + b)[1..] == a[1..] + b;
    }
  }

  predicate NoCollapse(e: WorldEvent) {
    !(e.Local? && e.e.PeersCollapsed?)
  }

  lemma {:induction false} NoCollapseUnrefused(w: World, es: seq<WorldEvent>)
    requires WorldRuns(w, es) && forall e | e in es :: NoCollapse(e)
    ensures Unrefused(w, es)
    decreases es
  {
    if es != [] {
      assert NoCollapse(es[0]);
      NoCollapseUnrefused(WorldStep(w, es[0]), es[1..]);
    }
  }

  lemma {:induction false} PeerTraceNoCollapse(id: GroupId, p: PeerId, cs: seq<Change>, refresh: bool)
    ensures forall e | e in PeerTrace(id, p, cs, refresh) :: NoCollapse(e)
    decreases cs
  {
    if cs != [] { PeerTraceNoCollapse(id, p, cs[1..], refresh); }
  }

  lemma TraceNoCollapse(n: Net, e: NetEvent)
    requires !(e.GroupStepped? && e.e.PeersCollapsed?)
    ensures forall w | w in Trace(n, e) :: NoCollapse(w)
  {
    if ByPeer(e) {
      PeerTraceIs(n, e);
      PeerTraceNoCollapse(e.id, e.p, e.cs, e.PeerRefreshed?);
    }
  }

  lemma AllAccepted(n: Net, id: GroupId, candidates: set<PeerId>)
    requires NetInv(n) && CanStep(n, id, PeersCollapsed(candidates)) && !n.control[id].addPath
    ensures Accepted(n.groups[id], candidates) == candidates
  {
    forall p | p in candidates
      ensures p in n.groups[id].peers && Corrections(n.groups[id].peers[p], n.groups[id].routes) == map[]
    {
      CandidateMayRejoin(n, id, candidates, p);
      BestPathNeverRefused(n, id, p);
    }
  }

  lemma OneUnrefused(w: World, e: WorldEvent)
    requires WorldRuns(w, [e]) && WorldNoFailedRejoin(w, e)
    ensures Unrefused(w, [e])
  {
    assert [e][1..] == [];
  }

  lemma CollapseStep(n: Net, id: GroupId, candidates: set<PeerId>, m: Net)
    requires Goes(n, GroupStepped(id, PeersCollapsed(candidates)), m)
    ensures CanStep(n, id, PeersCollapsed(candidates)) && id in n.control
  {
  }

  lemma CollapseUnrefused(n: Net, id: GroupId, candidates: set<PeerId>, m: Net)
    requires NetInv(n) && BestPathOnly(n) && Goes(n, GroupStepped(id, PeersCollapsed(candidates)), m)
    ensures Unrefused(n.groups, [Local(id, PeersCollapsed(candidates))])
  {
    SteppedLeads(n, GroupStepped(id, PeersCollapsed(candidates)), m);
    CollapseStep(n, id, candidates, m);
    AllAccepted(n, id, candidates);
    OneUnrefused(n.groups, Local(id, PeersCollapsed(candidates)));
  }

  lemma StepUnrefused(n: Net, e: NetEvent, m: Net)
    requires NetInv(n) && BestPathOnly(n) && Goes(n, e, m) && Leads(n.groups, Trace(n, e), m.groups)
    ensures Unrefused(n.groups, Trace(n, e))
  {
    if e.GroupStepped? && e.e.PeersCollapsed? {
      CollapseUnrefused(n, e.id, e.e.candidates, m);
    } else {
      TraceNoCollapse(n, e);
      NoCollapseUnrefused(n.groups, Trace(n, e));
    }
  }

  lemma {:induction false} RunUnrefused(n: Net, es: seq<NetEvent>)
    requires NetInv(n) && BestPathOnly(n) && NetRuns(n, es) && forall e | e in es :: BestPathEvent(e)
    ensures Unrefused(n.groups, RunTrace(n, es))
    decreases es
  {
    if es != [] {
      var m := NetStep(n, es[0]);
      StepIsRun(n, es[0], m);
      NetStepKeeps(n, es[0], m);
      BestPathStep(n, es[0], m);
      StepUnrefused(n, es[0], m);
      RunUnrefused(m, es[1..]);
      UnrefusedOn(n.groups, Trace(n, es[0]), m.groups, RunTrace(m, es[1..]));
    }
  }

  /** Over any run from nothing of groups without add-path, the total is conserved: no rejoin fails. */
  lemma BestPathConserves(es: seq<NetEvent>)
    requires NetRuns(START, es) && forall e | e in es :: BestPathEvent(e)
    ensures
      var trace, w := RunTrace(START, es), NetRun(START, es).groups;
      WorldRuns(map[], trace) && AllCounts(w) && TotalRun(0, map[], trace) == Sum(Shares(w))
  {
    StartInv();
    RunUnrefused(START, es);
    FleetConserves(es);
  }
}
