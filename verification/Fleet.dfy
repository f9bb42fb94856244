/**
  All update groups together.  Peers are split off into new groups and moved between
  groups while every group keeps running; no peer's RIB-OUT changes by being re-homed.
 */
module Fleet {
  import opened Types
  import opened Advertised
  import opened GroupState
  import opened GroupInvariant
  import opened Membership
  import opened Rejoin

  // ---------------------------------------------------------------- splitting a group

  lemma SplitMembers(g: Group, families: set<Afi>, ps: set<PeerId>)
    requires MembersOk(g)
    ensures MembersOk(Copied(g, families, ps))
  {
    var h := Copied(g, families, ps);
    forall p
      ensures p in Versioned(h, h.detached) <==> p in Versioned(g, g.detached * ps)
    {
    }
    assert Versioned(h, h.detached) == Versioned(g, g.detached * ps);
  }

  /** Members kept with the same routes and packing list stay served. */
  lemma SubsetPeersOk(g: Group, h: Group)
    requires SetsOk(g) && PeersOk(g)
    requires h.routes == g.routes && h.packing == g.packing && h.lastSeen == g.lastSeen && h.initialized == g.initialized
    requires forall p | p in h.peers :: p in g.peers && h.peers[p] == g.peers[p]
    requires forall p | p in h.peers ::
      (p in h.sync ==> p in g.sync) && (p in h.detached ==> p in g.detached) && (p in h.blocked <==> p in g.blocked)
    ensures PeersOk(h)
  {
    OtherPeersOk(g, h, {});
  }

  /** The new group of a split keeps the invariant. */
  lemma SplitOffKeeps(g: Group, families: set<Afi>, ps: set<PeerId>)
    requires Inv(g)
    ensures Inv(SplitOff(g, families, ps))
  {
    var h := Copied(g, families, ps);
    SplitMembers(g, families, ps);
    SubsetPeersOk(g, h);
    SplitBuilder(g, families, ps);
    ClearKeeps(h);
  }

  lemma SplitBuilder(g: Group, families: set<Afi>, ps: set<PeerId>)
    requires BuilderOk(g) && EorPeersOk(g)
    ensures BuilderOk(Copied(g, families, ps))
  {
    var h := Copied(g, families, ps);
    if !g.initialized {
      assert g.blocked * ps == {};
      forall p | p in h.eorPeers ensures p in g.eorPeers { }
      assert h.eorPeers == {};
    }
  }

  lemma RemainderCounters(g: Group, ps: set<PeerId>)
    requires MembersOk(g) && forall p | p in g.sync :: g.peers[p].detachVersion == 0
    ensures CountersOk(Removed(g, ps))
  {
    var h := Removed(g, ps);
    var was, left := Versioned(g, g.detached), Versioned(g, ps);
    forall p
      ensures p in left ==> p in was
      ensures p in Versioned(h, h.detached) <==> (p in was && p !in left) || p in {}
    {
    }
    CardSwap(was, left, {}, Versioned(h, h.detached));
    CardSwap(g.sync, g.sync * ps, {}, h.sync);
  }

  lemma RemainderMembers(g: Group, ps: set<PeerId>)
    requires MembersOk(g) && forall p | p in g.sync :: g.peers[p].detachVersion == 0
    ensures MembersOk(Removed(g, ps))
  {
    RemainderCounters(g, ps);
  }

  lemma SyncVersionZero(g: Group)
    requires PeersOk(g)
    ensures forall p | p in g.sync && p in g.peers :: g.peers[p].detachVersion == 0
  {
    forall p | p in g.sync && p in g.peers
      ensures g.peers[p].detachVersion == 0
    {
      assert SyncOk(g.peers[p], g.routes, g.packing, p in g.blocked, g.initialized);
    }
  }

  /** What is left of a group keeps the invariant, whoever leaves. */
  lemma RemainderKeeps(g: Group, ps: set<PeerId>)
    requires Inv(g)
    ensures Inv(Remainder(g, ps))
  {
    SyncVersionZero(g);
    RemainderMembers(g, ps);
    SubsetPeersOk(g, Removed(g, ps));
    assert BuilderOk(Removed(g, ps));
    ClearKeeps(Removed(g, ps));
  }

  /** How the two sides of a group that loses `ps` look. */
  predicate Leaves(g: Group, ps: set<PeerId>, rest: Group) {
    rest.routes == g.routes && rest.detached == g.detached - ps && rest.peers == g.peers - ps
  }

  predicate Carries(g: Group, ps: set<PeerId>, h: Group) {
    h.routes == g.routes && h.detached == g.detached * ps && h.peers == map p | p in g.peers && p in ps :: g.peers[p]
  }

  lemma SplitFrame(g: Group, families: set<Afi>, ps: set<PeerId>)
    ensures Carries(g, ps, SplitOff(g, families, ps))
    ensures Leaves(g, ps, Remainder(g, ps))
  {
  }

  /** A split changes no RIB-OUT on either side, and both sides hold the same group entries. */
  lemma SplitTables(g: Group, families: set<Afi>, ps: set<PeerId>, p: PeerId, h: Group, rest: Group)
    requires p in g.peers && h == SplitOff(g, families, ps) && rest == Remainder(g, ps)
    ensures h.routes == g.routes && rest.routes == g.routes
    ensures p in ps ==> p in h.peers && p !in rest.peers && TableOf(h, p) == TableOf(g, p)
    ensures p !in ps ==> p !in h.peers && p in rest.peers && TableOf(rest, p) == TableOf(g, p)
  {
    SplitFrame(g, families, ps);
    CarriedTable(g, ps, p, h);
    LeftTable(g, ps, p, rest);
  }

  lemma CarriedTable(g: Group, ps: set<PeerId>, p: PeerId, h: Group)
    requires Carries(g, ps, h)
    ensures p in h.peers <==> p in g.peers && p in ps
    ensures p in h.peers ==> TableOf(h, p) == TableOf(g, p)
  {
  }

  lemma LeftTable(g: Group, ps: set<PeerId>, p: PeerId, rest: Group)
    requires Leaves(g, ps, rest)
    ensures p in rest.peers <==> p in g.peers && p !in ps
    ensures p in rest.peers ==> TableOf(rest, p) == TableOf(g, p)
  {
  }

  // ---------------------------------------------------------------- moving peers

  lemma MaterializedOk(g: Group, q: Peer, routes: Table, lastSeen: nat)
    requires DetachedOk(q, g.routes, g.lastSeen) && Positive(g.routes) && Positive(routes)
    ensures DetachedOk(Materialized(g, q), routes, lastSeen)
    ensures View(Materialized(g, q).own, routes, 0) == View(q.own, g.routes, q.detachVersion)
  {
    var view := View(q.own, g.routes, q.detachVersion);
    OwnViewOnly(view, routes);
    forall k | k in view
      ensures 0 < view[k].version <= q.lastSeen
    {
    }
  }

  ghost predicate CanMove(g: Group, target: Group, ps: set<PeerId>) {
    ps <= g.detached && ps !! target.peers.Keys
  }

  lemma MoveMembers(target: Group, g: Group, ps: set<PeerId>)
    requires MembersOk(target) && SetsOk(g) && CanMove(g, target, ps)
    ensures MembersOk(MoveInto(target, g, ps))
  {
    var h := MoveInto(target, g, ps);
    forall p
      ensures p in Versioned(h, h.detached) <==> p in Versioned(target, target.detached)
    {
      if p in ps { assert h.peers[p].detachVersion == 0; }
    }
    assert Versioned(h, h.detached) == Versioned(target, target.detached);
  }

  lemma MovePeersOk(target: Group, g: Group, ps: set<PeerId>)
    requires SetsOk(target) && PeersOk(target) && Positive(target.routes)
    requires SetsOk(g) && PeersOk(g) && Positive(g.routes) && CanMove(g, target, ps)
    ensures PeersOk(MoveInto(target, g, ps))
  {
    var h := MoveInto(target, g, ps);
    forall p | p in ps
      ensures p in h.peers && p !in h.sync && DetachedOk(h.peers[p], h.routes, h.lastSeen)
    {
      assert DetachedOk(g.peers[p], g.routes, g.lastSeen);
      MaterializedOk(g, g.peers[p], target.routes, target.lastSeen);
    }
    OtherPeersOk(target, h, ps);
  }

  /** The group peers are moved into keeps the invariant. */
  lemma MoveIntoKeeps(target: Group, g: Group, ps: set<PeerId>)
    requires Inv(target) && Inv(g) && CanMove(g, target, ps)
    ensures Inv(MoveInto(target, g, ps))
  {
    MoveMembers(target, g, ps);
    MovePeersOk(target, g, ps);
    MoveBuilder(target, g, ps);
  }

  lemma MoveBuilder(target: Group, g: Group, ps: set<PeerId>)
    requires BuilderOk(target) && SetsOk(target) && CanMove(g, target, ps)
    ensures BuilderOk(MoveInto(target, g, ps))
  {
    BuilderFrame(target, MoveInto(target, g, ps));
  }

  lemma MoveFrame(target: Group, g: Group, ps: set<PeerId>, p: PeerId)
    requires SetsOk(target) && SetsOk(g) && CanMove(g, target, ps)
    ensures
      var h := MoveInto(target, g, ps);
      && h.routes == target.routes
      && (p in h.peers <==> p in ps || p in target.peers)
      && (p in ps ==> h.peers[p] == Materialized(g, g.peers[p]))
      && (p in target.peers ==> h.peers[p] == target.peers[p])
      && (p in h.detached <==> p in target.detached || p in ps)
  {
  }

  /** A moved peer keeps its RIB-OUT, its packing list and its deferred push; nobody else changes. */
  lemma MoveTables(target: Group, g: Group, ps: set<PeerId>, p: PeerId, h: Group)
    requires SetsOk(target) && Positive(target.routes)
    requires SetsOk(g) && PeersOk(g) && Positive(g.routes) && CanMove(g, target, ps)
    requires h == MoveInto(target, g, ps)
    ensures h.routes == target.routes
    ensures p in h.peers <==> p in ps || p in target.peers
    ensures p in ps ==> TableOf(h, p) == TableOf(g, p) && PackingOf(h, p) == PackingOf(g, p)
    ensures p in target.peers ==> TableOf(h, p) == TableOf(target, p)
  {
    MoveFrame(target, g, ps, p);
    if p in ps {
      assert DetachedOk(g.peers[p], g.routes, g.lastSeen);
      MaterializedOk(g, g.peers[p], target.routes, target.lastSeen);
    }
  }
}
