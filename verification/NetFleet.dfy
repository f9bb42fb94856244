/** Creating, destroying, splitting and moving on the change list, and every step of the fleet put together. */
module NetFleet {
  import opened Types
  import opened GroupState
  import opened GroupInvariant
  import opened Rejoin
  import opened Fleet
  import opened FleetRun
  import opened ShadowRib
  import opened Net
  import opened NetInvariant
  import opened NetGroups

  // ---------------------------------------------------------------- creating and destroying

  lemma CreatedInv(w: World, id: GroupId, families: set<Afi>)
    requires WorldInv(w) && id !in w
    ensures WorldInv(w[id := Fresh(families)])
  {
    FreshInv(families);
    OneInv(w, id, Fresh(families));
  }

  lemma DestroyedInv(w: World, id: GroupId)
    requires WorldInv(w)
    ensures WorldInv(w - {id})
  {
  }

  lemma CreatedOnly(n: Net, m: Net, id: GroupId, ctl: Control)
    requires m == n.(groups := n.groups[id := Fresh(ctl.families)], control := n.control[id := ctl], at := n.at - {id},
                      joined := n.joined - {OfGroup(id)})
    ensures OnlyGroup(n, m, id)
  {
    forall j, p | j in m.groups && j != id && p in m.groups[j].peers
      ensures SameSeat(n, m, p)
    {
    }
  }

  lemma CreateKeeps(n: Net, id: GroupId, ctl: Control)
    requires NetInv(n) && id !in n.groups
    ensures NetInv(n.(groups := n.groups[id := Fresh(ctl.families)], control := n.control[id := ctl], at := n.at - {id},
                      joined := n.joined - {OfGroup(id)}))
  {
    var m := n.(groups := n.groups[id := Fresh(ctl.families)], control := n.control[id := ctl], at := n.at - {id},
                      joined := n.joined - {OfGroup(id)});
    CreatedInv(n.groups, id, ctl.families);
    CreatedOnly(n, m, id, ctl);
    OnlyGroupOk(n, m, id);
  }

  lemma DestroyedOnly(n: Net, m: Net, id: GroupId)
    requires m == n.(groups := n.groups - {id}, control := n.control - {id}, at := n.at - {id},
                      joined := n.joined - {OfGroup(id)})
    ensures OnlyGroup(n, m, id)
  {
    forall j, p | j in m.groups && j != id && p in m.groups[j].peers
      ensures SameSeat(n, m, p)
    {
    }
  }

  lemma DestroyKeeps(n: Net, id: GroupId)
    requires NetInv(n)
    ensures NetInv(n.(groups := n.groups - {id}, control := n.control - {id}, at := n.at - {id},
                      joined := n.joined - {OfGroup(id)}))
  {
    var m := n.(groups := n.groups - {id}, control := n.control - {id}, at := n.at - {id},
                      joined := n.joined - {OfGroup(id)});
    DestroyedInv(n.groups, id);
    DestroyedOnly(n, m, id);
    OnlyGroupOk(n, m, id);
  }

  // ---------------------------------------------------------------- two groups

  ghost predicate OnlyTwo(n: Net, m: Net, src: GroupId, dst: GroupId) {
    && m.shadow == n.shadow && m.top == n.top && m.seen == n.seen
    && (forall j | j in m.groups && j != src && j != dst ::
          && j in n.groups && m.groups[j] == n.groups[j]
          && (j in m.control <==> j in n.control) && (j in n.control ==> m.control[j] == n.control[j])
          && (j in m.at <==> j in n.at) && (j in n.at ==> m.at[j] == n.at[j]))
    && (forall j, p | j in m.groups && j != src && j != dst && p in m.groups[j].peers :: SameSeat(n, m, p))
  }

  lemma TwoReplaced(n: Net, m: Net, src: GroupId, dst: GroupId, h: Group, rest: Group)
    requires m.groups == n.groups[dst := h][src := rest]
    requires m.shadow == n.shadow && m.top == n.top && m.seen == n.seen
    requires forall j | j != src && j != dst ::
      && (j in m.control <==> j in n.control) && (j in n.control ==> m.control[j] == n.control[j])
      && (j in m.at <==> j in n.at) && (j in n.at ==> m.at[j] == n.at[j])
    requires forall j, p | j in n.groups && j != src && j != dst && p in n.groups[j].peers ::
      (p in m.under <==> p in n.under) && (p in n.under ==> m.under[p] == n.under[p])
    ensures OnlyTwo(n, m, src, dst)
  {
    forall j, p | j in m.groups && j != src && j != dst && p in m.groups[j].peers
      ensures SameSeat(n, m, p)
    {
      assert j in n.groups && p in n.groups[j].peers;
    }
  }

  lemma UntouchedOk(n: Net, m: Net, src: GroupId, dst: GroupId, j: GroupId)
    requires ConsumersOk(n) && OnlyTwo(n, m, src, dst) && j in m.groups && j != src && j != dst
    ensures GroupOk(m, j) && forall p | p in m.groups[j].peers :: PeerOk(m, j, p)
  {
    assert GroupOk(n, j);
    forall p | p in m.groups[j].peers
      ensures PeerOk(m, j, p)
    {
      assert SameSeat(n, m, p) && PeerOk(n, j, p);
    }
  }

  lemma TwoGroupsOk(n: Net, m: Net, src: GroupId, dst: GroupId)
    requires ConsumersOk(n) && OnlyTwo(n, m, src, dst)
    requires forall j | j in m.groups && (j == src || j == dst) ::
      GroupOk(m, j) && forall p | p in m.groups[j].peers :: PeerOk(m, j, p)
    ensures ConsumersOk(m)
  {
    forall j | j in m.groups
      ensures GroupOk(m, j) && forall p | p in m.groups[j].peers :: PeerOk(m, j, p)
    {
      if j != src && j != dst { UntouchedOk(n, m, src, dst, j); }
    }
  }

  /** A member with the record, the RIB-OUT and the seat it had, in a group under the same control at the same marker. */
  lemma Rehomed(n: Net, i: GroupId, m: Net, j: GroupId, p: PeerId)
    requires i in n.groups && j in m.groups && p in n.groups[i].peers && p in m.groups[j].peers && PeerOk(n, i, p)
    requires m.shadow == n.shadow && m.top == n.top && SameSeat(n, m, p)
    requires m.groups[j].peers[p] == n.groups[i].peers[p] && (p in m.groups[j].detached ==> p in n.groups[i].detached)
    requires TableOf(m.groups[j], p) == TableOf(n.groups[i], p)
    requires i in n.control && j in m.control && m.control[j] == n.control[i]
    requires i in n.at ==> j in m.at && m.at[j] == n.at[i]
    ensures PeerOk(m, j, p)
  {
  }

  lemma SameGroupOk(n: Net, i: GroupId, m: Net, j: GroupId)
    requires i in n.groups && j in m.groups && GroupOk(n, i) && m.shadow == n.shadow && m.top == n.top
    requires m.groups[j].routes == n.groups[i].routes && m.groups[j].families == n.groups[i].families
    requires m.groups[j].lastSeen == n.groups[i].lastSeen && m.groups[j].initialized == n.groups[i].initialized
    requires j in m.control && m.control[j] == n.control[i]
    requires (i in n.at <==> j in m.at) && (i in n.at ==> m.at[j] == n.at[i])
    ensures GroupOk(m, j)
  {
  }

  // ---------------------------------------------------------------- splitting

  ghost predicate IsSplit(n: Net, m: Net, src: GroupId, dst: GroupId, ps: set<PeerId>) {
    && src in n.groups && src in n.control && dst !in n.groups
    && m.groups == SplitWorld(n.groups, src, dst, n.control[src].families, ps)
    && m.control == n.control[dst := n.control[src]]
    && m.at == (if src in n.at then n.at[dst := n.at[src]] else n.at - {dst})
    && m.shadow == n.shadow && m.top == n.top && m.seen == n.seen && m.under == n.under
  }

  ghost predicate SameHead(g: Group, h: Group) {
    h.lastSeen == g.lastSeen && h.initialized == g.initialized && h.routes == g.routes
  }

  lemma RecoverHead(g: Group)
    ensures SameHead(g, RecoverIfNoSync(g)) && RecoverIfNoSync(g).families == g.families
  {
  }

  lemma SplitHead(g: Group, families: set<Afi>, ps: set<PeerId>)
    ensures SameHead(g, SplitOff(g, families, ps)) && SplitOff(g, families, ps).families == families
  {
    RecoverHead(Copied(g, families, ps));
  }

  lemma RemainderHead(g: Group, ps: set<PeerId>)
    ensures SameHead(g, Remainder(g, ps)) && Remainder(g, ps).families == g.families
  {
    RecoverHead(Removed(g, ps));
  }

  lemma SplitSides(n: Net, m: Net, src: GroupId, dst: GroupId, ps: set<PeerId>)
    requires IsSplit(n, m, src, dst, ps) && GroupOk(n, src)
    ensures GroupOk(m, src) && GroupOk(m, dst)
  {
    SplitHead(n.groups[src], n.control[src].families, ps);
    RemainderHead(n.groups[src], ps);
    SameGroupOk(n, src, m, src);
    SameGroupOk(n, src, m, dst);
  }

  lemma SplitMember(n: Net, m: Net, src: GroupId, dst: GroupId, ps: set<PeerId>, j: GroupId, p: PeerId)
    requires IsSplit(n, m, src, dst, ps) && GroupOk(n, src) && (j == src || j == dst) && p in m.groups[j].peers
    requires forall r | r in n.groups[src].peers :: PeerOk(n, src, r)
    ensures PeerOk(m, j, p)
  {
    var g := n.groups[src];
    SplitFrame(g, n.control[src].families, ps);
    CarriedTable(g, ps, p, m.groups[dst]);
    LeftTable(g, ps, p, m.groups[src]);
    Rehomed(n, src, m, j, p);
  }

  lemma SplitOnlyTwo(n: Net, m: Net, src: GroupId, dst: GroupId, ps: set<PeerId>)
    requires IsSplit(n, m, src, dst, ps)
    ensures OnlyTwo(n, m, src, dst)
  {
    TwoReplaced(n, m, src, dst, SplitOff(n.groups[src], n.control[src].families, ps), Remainder(n.groups[src], ps));
  }

  lemma SplitNetKeeps(n: Net, m: Net, src: GroupId, dst: GroupId, ps: set<PeerId>)
    requires NetInv(n) && IsSplit(n, m, src, dst, ps)
    ensures NetInv(m)
  {
    FleetRun.SplitKeeps(n.groups, src, dst, n.control[src].families, ps);
    assert GroupOk(n, src);
    SplitSides(n, m, src, dst, ps);
    forall j, p | j in m.groups && (j == src || j == dst) && p in m.groups[j].peers
      ensures PeerOk(m, j, p)
    {
      SplitMember(n, m, src, dst, ps, j, p);
    }
    SplitOnlyTwo(n, m, src, dst, ps);
    TwoGroupsOk(n, m, src, dst);
  }

  // ---------------------------------------------------------------- moving

  ghost predicate IsMove(n: Net, m: Net, src: GroupId, dst: GroupId, ps: set<PeerId>) {
    && src in n.groups && dst in n.groups && src != dst && ps <= n.groups[src].detached
    && src in n.control && dst in n.control
    && n.control[src].addPath == n.control[dst].addPath && n.control[src].families == n.control[dst].families
    && m == n.(groups := MoveWorld(n.groups, src, dst, ps),
               under := if n.control[src] == n.control[dst] then n.under else Outdated(n, src, ps))
  }

  lemma MoveHead(target: Group, g: Group, ps: set<PeerId>)
    ensures SameHead(target, MoveInto(target, g, ps)) && MoveInto(target, g, ps).families == target.families
  {
  }

  lemma MoveSides(n: Net, m: Net, src: GroupId, dst: GroupId, ps: set<PeerId>)
    requires IsMove(n, m, src, dst, ps) && GroupOk(n, src) && GroupOk(n, dst)
    ensures GroupOk(m, src) && GroupOk(m, dst)
  {
    MoveHead(n.groups[dst], n.groups[src], ps);
    RemainderHead(n.groups[src], ps);
    SameGroupOk(n, src, m, src);
    SameGroupOk(n, dst, m, dst);
  }

  lemma MovedSeat(n: Net, m: Net, src: GroupId, dst: GroupId, ps: set<PeerId>, p: PeerId)
    requires IsMove(n, m, src, dst, ps) && p !in ps
    ensures SameSeat(n, m, p)
  {
  }

  lemma MoveStays(n: Net, m: Net, src: GroupId, dst: GroupId, ps: set<PeerId>, p: PeerId)
    requires IsMove(n, m, src, dst, ps) && GroupOk(n, src) && p in m.groups[src].peers
    requires p in n.groups[src].peers ==> PeerOk(n, src, p)
    ensures PeerOk(m, src, p)
  {
    SplitFrame(n.groups[src], {}, ps);
    LeftTable(n.groups[src], ps, p, m.groups[src]);
    MovedSeat(n, m, src, dst, ps, p);
    Rehomed(n, src, m, src, p);
  }

  /** What the target of a move does for one of its own members and for one that arrives. */
  ghost predicate Hosts(g: Group, target: Group, ps: set<PeerId>, h: Group, p: PeerId)
    requires ps <= g.peers.Keys
  {
    && p in h.peers
    && (p in target.peers ==>
          && p !in ps && h.peers[p] == target.peers[p] && TableOf(h, p) == TableOf(target, p)
          && (p in h.detached ==> p in target.detached))
    && (p in ps ==> h.peers[p] == Materialized(g, g.peers[p]) && TableOf(h, p) == TableOf(g, p))
  }

  lemma MoveHosts(target: Group, g: Group, ps: set<PeerId>, p: PeerId, h: Group)
    requires Inv(g) && Inv(target) && CanMove(g, target, ps) && h == MoveInto(target, g, ps)
    requires p in target.peers || p in ps
    ensures ps <= g.peers.Keys && Hosts(g, target, ps, h, p)
  {
    PositiveRoutes(g);
    PositiveRoutes(target);
    MoveFrame(target, g, ps, p);
    MoveTables(target, g, ps, p, h);
  }

  lemma HostedOk(n: Net, m: Net, src: GroupId, dst: GroupId, ps: set<PeerId>, p: PeerId)
    requires IsMove(n, m, src, dst, ps) && ps <= n.groups[src].peers.Keys && p in n.groups[dst].peers
    requires Hosts(n.groups[src], n.groups[dst], ps, m.groups[dst], p) && PeerOk(n, dst, p)
    ensures PeerOk(m, dst, p)
  {
    MovedSeat(n, m, src, dst, ps, p);
    Rehomed(n, dst, m, dst, p);
  }

  lemma MaterializedFields(g: Group, q: Peer)
    ensures Materialized(g, q).detachVersion == 0 && Materialized(g, q).lastSeen == q.lastSeen
    ensures Positive(g.routes) && q.own == map[] && q.detachVersion == 0 ==> Materialized(g, q).own == map[]
  {
    if Positive(g.routes) { OwnViewOnly(map[], g.routes); }
  }

  /** A moved peer arrives with its RIB-OUT and its seat, sharing nothing. */
  lemma ArrivedOk(n: Net, m: Net, src: GroupId, dst: GroupId, ps: set<PeerId>, p: PeerId)
    requires IsMove(n, m, src, dst, ps) && ps <= n.groups[src].peers.Keys && p in ps && Positive(n.groups[src].routes)
    requires Hosts(n.groups[src], n.groups[dst], ps, m.groups[dst], p) && PeerOk(n, src, p)
    ensures PeerOk(m, dst, p)
  {
    MaterializedFields(n.groups[src], n.groups[src].peers[p]);
    ArrivedRight(n, m, src, dst, ps, p);
  }

  /** What it shows was decided under the control it had, and counts as that. */
  lemma ArrivedRight(n: Net, m: Net, src: GroupId, dst: GroupId, ps: set<PeerId>, p: PeerId)
    requires IsMove(n, m, src, dst, ps) && p in ps
    ensures ControlOf(m, dst, p) == ControlOf(n, src, p)
  {
  }

  lemma MoveOnlyTwo(n: Net, m: Net, src: GroupId, dst: GroupId, ps: set<PeerId>)
    requires IsMove(n, m, src, dst, ps) && Apart(n.groups) && SetsOk(n.groups[src])
    ensures OnlyTwo(n, m, src, dst)
  {
    forall j, p | j in n.groups && j != src && j != dst && p in n.groups[j].peers
      ensures (p in m.under <==> p in n.under) && (p in n.under ==> m.under[p] == n.under[p])
    {
      assert p !in n.groups[src].peers;
    }
    TwoReplaced(n, m, src, dst, MoveInto(n.groups[dst], n.groups[src], ps), Remainder(n.groups[src], ps));
  }

  lemma HostMember(n: Net, m: Net, src: GroupId, dst: GroupId, ps: set<PeerId>, p: PeerId)
    requires IsMove(n, m, src, dst, ps) && CanMove(n.groups[src], n.groups[dst], ps)
    requires Inv(n.groups[src]) && Inv(n.groups[dst]) && p in m.groups[dst].peers
    requires p in n.groups[src].peers ==> PeerOk(n, src, p)
    requires p in n.groups[dst].peers ==> PeerOk(n, dst, p)
    ensures PeerOk(m, dst, p)
  {
    PositiveRoutes(n.groups[src]);
    PositiveRoutes(n.groups[dst]);
    MoveFrame(n.groups[dst], n.groups[src], ps, p);
    MoveHosts(n.groups[dst], n.groups[src], ps, p, m.groups[dst]);
    if p in ps {
      ArrivedOk(n, m, src, dst, ps, p);
    } else {
      HostedOk(n, m, src, dst, ps, p);
    }
  }

  lemma MoveMember(n: Net, m: Net, src: GroupId, dst: GroupId, ps: set<PeerId>, j: GroupId, p: PeerId)
    requires NetInv(n) && IsMove(n, m, src, dst, ps) && CanMove(n.groups[src], n.groups[dst], ps)
    requires (j == src || j == dst) && p in m.groups[j].peers
    ensures PeerOk(m, j, p)
  {
    assert GroupOk(n, src) && GroupOk(n, dst);
    assert p in n.groups[src].peers ==> PeerOk(n, src, p);
    assert p in n.groups[dst].peers ==> PeerOk(n, dst, p);
    if j == src {
      MoveStays(n, m, src, dst, ps, p);
    } else {
      HostMember(n, m, src, dst, ps, p);
    }
  }

  lemma MoveNetKeeps(n: Net, m: Net, src: GroupId, dst: GroupId, ps: set<PeerId>)
    requires NetInv(n) && IsMove(n, m, src, dst, ps)
    ensures NetInv(m)
  {
    MovedKeeps(n.groups, src, dst, ps);
    MovedDisjoint(n.groups, src, dst, ps);
    assert GroupOk(n, src) && GroupOk(n, dst);
    MoveSides(n, m, src, dst, ps);
    forall j, p | j in m.groups && (j == src || j == dst) && p in m.groups[j].peers
      ensures PeerOk(m, j, p)
    {
      MoveMember(n, m, src, dst, ps, j, p);
    }
    MoveOnlyTwo(n, m, src, dst, ps);
    TwoGroupsOk(n, m, src, dst);
  }
}
