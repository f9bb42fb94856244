/** Runs of all update groups together. */
module FleetRun {
  import opened Types
  import opened GroupState
  import opened GroupInvariant
  import opened Rejoin
  import opened GroupSteps
  import opened SharingInvisible
  import opened Fleet

  type GroupId = nat

  type World = map<GroupId, Group>

  datatype WorldEvent =
    | Created(id: GroupId, families: set<Afi>)
    | Destroyed(id: GroupId)
    | Local(id: GroupId, e: Event)
    | Split(src: GroupId, dst: GroupId, families: set<Afi>, ps: set<PeerId>)
    | Moved(src: GroupId, dst: GroupId, ps: set<PeerId>)

  ghost predicate Known(w: World, p: PeerId) {
    exists id | id in w :: p in w[id].peers
  }

  ghost predicate WorldEnabled(w: World, e: WorldEvent) {
    match e
    case Created(id, _) => id !in w
    case Destroyed(id) => id in w && w[id].peers == map[]
    case Local(id, e) => id in w && Enabled(w[id], e) && (e.PeerRegistered? ==> !Known(w, e.p))
    case Split(src, dst, _, ps) => src in w && dst !in w && ps <= w[src].peers.Keys
    case Moved(src, dst, ps) => src in w && dst in w && src != dst && ps <= w[src].detached
  }

  function SplitWorld(w: World, src: GroupId, dst: GroupId, families: set<Afi>, ps: set<PeerId>): World
    requires src in w
  {
    w[dst := SplitOff(w[src], families, ps)][src := Remainder(w[src], ps)]
  }

  function MoveWorld(w: World, src: GroupId, dst: GroupId, ps: set<PeerId>): World
    requires src in w && dst in w
  {
    w[dst := MoveInto(w[dst], w[src], ps)][src := Remainder(w[src], ps)]
  }

  ghost function WorldStep(w: World, e: WorldEvent): World
    requires WorldEnabled(w, e)
  {
    match e
    case Created(id, families) => w[id := Fresh(families)]
    case Destroyed(id) => w - {id}
    case Local(id, e) => w[id := Step(w[id], e)]
    case Split(src, dst, families, ps) => SplitWorld(w, src, dst, families, ps)
    case Moved(src, dst, ps) => MoveWorld(w, src, dst, ps)
  }

  /** No peer is in two groups, and every group keeps its invariant. */
  ghost predicate Apart(w: World) {
    forall i, j, p | i in w && j in w && p in w[i].peers && p in w[j].peers :: i == j
  }

  ghost predicate WorldInv(w: World) {
    Apart(w) && AllInv(w)
  }

  /** The peers of a group after a step are those before it, but for the one that registers. */
  lemma {:induction false} StepPeers(g: Group, e: Event, p: PeerId)
    requires SetsOk(g) && Enabled(g, e) && p in Step(g, e).peers
    ensures p in g.peers || e == PeerRegistered(p)
  {
    match e
    case Dumped(cs, _) => ProcessAllFrame(g, cs);
    case Consumed(cs, _) => ProcessAllFrame(g, cs);
    case _ =>
  }

  lemma OneApart(w: World, id: GroupId, h: Group)
    requires Apart(w) && id in w
    requires forall p | p in h.peers :: p in w[id].peers || !Known(w, p)
    ensures Apart(w[id := h])
  {
  }

  lemma TwoApart(w: World, src: GroupId, dst: GroupId, h: Group, rest: Group)
    requires Apart(w) && src in w && src != dst
    requires forall p | p in rest.peers :: p in w[src].peers
    requires forall p | p in h.peers ::
      (p in w[src].peers && p !in rest.peers) || (dst in w && p in w[dst].peers)
    ensures Apart(w[dst := h][src := rest])
  {
  }

  ghost predicate AllInv(w: World) {
    forall id | id in w :: Inv(w[id])
  }

  lemma OneInv(w: World, id: GroupId, h: Group)
    requires AllInv(w) && Inv(h)
    ensures AllInv(w[id := h])
  {
  }

  lemma LocalKeeps(w: World, id: GroupId, e: Event)
    requires WorldInv(w) && id in w && Enabled(w[id], e) && (e.PeerRegistered? ==> !Known(w, e.p))
    ensures WorldInv(w[id := Step(w[id], e)])
  {
    var g, h := w[id], Step(w[id], e);
    StepKeeps(g, e);
    forall p | p in h.peers
      ensures p in g.peers || !Known(w, p)
    {
      StepPeers(g, e, p);
    }
    OneApart(w, id, h);
    OneInv(w, id, h);
  }

  lemma SplitKeeps(w: World, src: GroupId, dst: GroupId, families: set<Afi>, ps: set<PeerId>)
    requires WorldInv(w) && src in w && dst !in w
    ensures WorldInv(SplitWorld(w, src, dst, families, ps))
  {
    var h, rest := SplitOff(w[src], families, ps), Remainder(w[src], ps);
    SplitOffKeeps(w[src], families, ps);
    RemainderKeeps(w[src], ps);
    forall p
      ensures p in h.peers ==> p in w[src].peers && p !in rest.peers
      ensures p in rest.peers ==> p in w[src].peers
    {
      SplitPeers(w[src], families, ps, p);
    }
    TwoApart(w, src, dst, h, rest);
    OneInv(w, dst, h);
    OneInv(w[dst := h], src, rest);
  }

  lemma SplitPeers(g: Group, families: set<Afi>, ps: set<PeerId>, p: PeerId)
    ensures p in SplitOff(g, families, ps).peers <==> p in g.peers && p in ps
    ensures p in Remainder(g, ps).peers <==> p in g.peers && p !in ps
  {
  }

  lemma MovedDisjoint(w: World, src: GroupId, dst: GroupId, ps: set<PeerId>)
    requires Apart(w) && src in w && dst in w && src != dst && SetsOk(w[src]) && ps <= w[src].detached
    ensures CanMove(w[src], w[dst], ps)
  {
    forall p | p in ps
      ensures p in w[src].peers && p !in w[dst].peers
    {
    }
  }

  lemma MovedKeeps(w: World, src: GroupId, dst: GroupId, ps: set<PeerId>)
    requires WorldInv(w) && src in w && dst in w && src != dst && ps <= w[src].detached
    ensures WorldInv(MoveWorld(w, src, dst, ps))
  {
    var h, rest := MoveInto(w[dst], w[src], ps), Remainder(w[src], ps);
    MovedDisjoint(w, src, dst, ps);
    MoveIntoKeeps(w[dst], w[src], ps);
    RemainderKeeps(w[src], ps);
    MovedPeersApart(w, src, dst, ps, h, rest);
    OneInv(w, dst, h);
    OneInv(w[dst := h], src, rest);
  }

  lemma MovedPeersApart(w: World, src: GroupId, dst: GroupId, ps: set<PeerId>, h: Group, rest: Group)
    requires Apart(w) && src in w && dst in w && src != dst && SetsOk(w[src]) && SetsOk(w[dst])
    requires CanMove(w[src], w[dst], ps)
    requires h == MoveInto(w[dst], w[src], ps) && rest == Remainder(w[src], ps)
    ensures Apart(w[dst := h][src := rest])
  {
    forall p
      ensures p in h.peers ==> (p in w[src].peers && p !in rest.peers) || p in w[dst].peers
      ensures p in rest.peers ==> p in w[src].peers
    {
      SplitPeers(w[src], {}, ps, p);
      MoveFrame(w[dst], w[src], ps, p);
    }
    TwoApart(w, src, dst, h, rest);
  }

  /** Every step of the fleet keeps every group's invariant and the peers apart. */
  lemma WorldStepKeeps(w: World, e: WorldEvent)
    requires WorldInv(w) && WorldEnabled(w, e)
    ensures WorldInv(WorldStep(w, e))
  {
    match e
    case Created(id, families) => FreshInv(families); OneInv(w, id, Fresh(families));
    case Destroyed(id) =>
    case Local(id, e) => LocalKeeps(w, id, e);
    case Split(src, dst, families, ps) => SplitKeeps(w, src, dst, families, ps);
    case Moved(src, dst, ps) => MovedKeeps(w, src, dst, ps);
  }

  // ---------------------------------------------------------------- tables

  lemma EventPeers(g: Group, e: Event)
    requires SetsOk(g) && Enabled(g, e)
    ensures e.PeerPromoted? || e.PeerChanged? || e.PeerUnregistered? ==> e.p in g.peers
    ensures e.PeersCollapsed? ==> forall p | p in e.candidates :: p in g.peers
    ensures forall p | p in g.sync :: p in g.peers
  {
    if e.PeersCollapsed? {
      forall p | p in e.candidates ensures p in g.peers { assert Candidate(g, p); }
    }
  }

  lemma AbsTables(h: Group)
    ensures Abs(h).shared == h.routes
    ensures forall p | p in h.peers :: p in Abs(h).tables && Abs(h).tables[p] == TableOf(h, p)
  {
  }

  lemma MovedTables(g: Group, target: Group, ps: set<PeerId>, h: Group, rest: Group)
    requires SetsOk(target) && Positive(target.routes)
    requires SetsOk(g) && PeersOk(g) && Positive(g.routes) && CanMove(g, target, ps)
    requires h == MoveInto(target, g, ps) && rest == Remainder(g, ps)
    ensures h.routes == target.routes && rest.routes == g.routes
    ensures forall p | p in rest.peers :: p in g.peers && TableOf(rest, p) == TableOf(g, p)
    ensures forall p | p in h.peers ::
      (p in g.peers && TableOf(h, p) == TableOf(g, p)) || (p in target.peers && TableOf(h, p) == TableOf(target, p))
  {
    SplitFrame(g, {}, ps);
    forall p | p in rest.peers
      ensures p in g.peers && TableOf(rest, p) == TableOf(g, p)
    {
      LeftTable(g, ps, p, rest);
    }
    forall p | p in h.peers
      ensures
        (p in g.peers && TableOf(h, p) == TableOf(g, p)) || (p in target.peers && TableOf(h, p) == TableOf(target, p))
    {
      MoveTables(target, g, ps, p, h);
    }
  }

  // ---------------------------------------------------------------- runs

  ghost predicate WorldRuns(w: World, es: seq<WorldEvent>)
    decreases es
  {
    es == [] || (WorldEnabled(w, es[0]) && WorldRuns(WorldStep(w, es[0]), es[1..]))
  }

  ghost function WorldRun(w: World, es: seq<WorldEvent>): World
    requires WorldRuns(w, es)
    decreases es
  {
    if es == [] then w else WorldRun(WorldStep(w, es[0]), es[1..])
  }
}
