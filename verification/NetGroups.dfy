/** Group-side steps on the change list: the dump, consuming, and the re-evaluation of the policy. */
module NetGroups {
  import opened Types
  import opened Advertised
  import opened GroupState
  import opened GroupInvariant
  import opened GroupProcessing
  import opened Rejoin
  import opened GroupSteps
  import opened SharingInvisible
  import opened FleetRun
  import opened ShadowRib
  import opened ListConsumers
  import opened Net
  import opened NetInvariant

  // ---------------------------------------------------------------- one group at a time

  /** A peer stands where it stood. */
  ghost predicate SameSeat(n: Net, m: Net, p: PeerId) {
    (p in m.seen <==> p in n.seen) && (p in n.seen ==> m.seen[p] == n.seen[p])
    && (p in m.under <==> p in n.under) && (p in n.under ==> m.under[p] == n.under[p])
  }

  /** The two nets differ in one group and its members only. */
  ghost predicate OnlyGroup(n: Net, m: Net, id: GroupId) {
    && m.shadow == n.shadow && m.top == n.top
    && (forall j | j in m.groups && j != id :: j in n.groups && m.groups[j] == n.groups[j])
    && (forall j | j in m.groups && j != id ::
          && (j in m.control <==> j in n.control) && (j in n.control ==> m.control[j] == n.control[j])
          && (j in m.at <==> j in n.at) && (j in n.at ==> m.at[j] == n.at[j]))
    && (forall j, p | j in m.groups && j != id && p in m.groups[j].peers :: SameSeat(n, m, p))
  }

  lemma OtherOk(n: Net, m: Net, id: GroupId, j: GroupId, p: PeerId)
    requires ConsumersOk(n) && OnlyGroup(n, m, id) && j in m.groups && j != id && p in m.groups[j].peers
    ensures PeerOk(m, j, p)
  {
    assert SameSeat(n, m, p);
    assert PeerOk(n, j, p);
  }

  lemma OnlyGroupOk(n: Net, m: Net, id: GroupId)
    requires ConsumersOk(n) && OnlyGroup(n, m, id)
    requires id in m.groups ==> GroupOk(m, id) && forall p | p in m.groups[id].peers :: PeerOk(m, id, p)
    ensures ConsumersOk(m)
  {
    forall j | j in m.groups
      ensures GroupOk(m, j)
    {
      if j != id { assert GroupOk(n, j); }
    }
    forall j, p | j in m.groups && p in m.groups[j].peers
      ensures PeerOk(m, j, p)
    {
      if j != id { OtherOk(n, m, id, j, p); }
    }
  }

  // ---------------------------------------------------------------- a batch

  /** Of a member, a batch touches the own entries only, and those only if it shares. */
  ghost predicate OwnOnly(q: Peer, r: Peer) {
    r == q.(own := r.own) && (q.detachVersion == 0 ==> r.own == q.own)
  }

  lemma ProcessOwn(g: Group, c: Change, p: PeerId)
    requires p in g.peers && Positive(g.routes)
    ensures p in ProcessForGroup(g, c).peers && OwnOnly(g.peers[p], ProcessForGroup(g, c).peers[p])
  {
  }

  lemma {:induction false} ProcessAllOwn(g: Group, cs: seq<Change>, p: PeerId)
    requires p in g.peers && Positive(g.routes) && forall c | c in cs :: 0 < c.version
    ensures p in ProcessAll(g, cs).peers && OwnOnly(g.peers[p], ProcessAll(g, cs).peers[p])
    decreases cs
  {
    if cs != [] {
      ProcessOwn(g, cs[0], p);
      ProcessPositive(g, cs[0]);
      ProcessAllOwn(ProcessForGroup(g, cs[0]), cs[1..], p);
    }
  }

  lemma ProcessPositive(g: Group, c: Change)
    requires Positive(g.routes) && 0 < c.version
    ensures Positive(ProcessForGroup(g, c).routes)
  {
  }

  /** What a batch makes of a group: its routes move, no detached peer notices. */
  ghost predicate Batched(g: Group, h: Group, cs: seq<Change>, top: nat) {
    && h.routes == PrivateRun(RibOut(g.routes, map[]), cs, g.families).table
    && h.families == g.families && h.detached == g.detached && h.sync == g.sync && h.lastSeen == top
    && h.peers.Keys == g.peers.Keys
    && (forall p | p in g.peers :: h.peers[p].lastSeen <= Max(g.peers[p].lastSeen, top))
    && (forall p | p in g.peers && p in g.detached :: Unnoticed(g, h, p))
  }

  ghost predicate Unnoticed(g: Group, h: Group, p: PeerId)
    requires p in g.peers
  {
    && p in h.peers && TableOf(h, p) == TableOf(g, p) && h.peers[p].detachVersion == g.peers[p].detachVersion
    && (g.peers[p].detachVersion == 0 ==> h.peers[p].own == g.peers[p].own)
  }

  lemma ConsumeBatched(g: Group, cs: seq<Change>, top: nat)
    requires SetsOk(g) && Positive(g.routes) && g.lastSeen <= top && Consumable(g, cs, top)
    requires forall c | c in cs :: 0 < c.version
    ensures Batched(g, Consume(g, cs, top), cs, top)
  {
    var h := Consume(g, cs, top);
    ProcessAllFrame(g, cs);
    ProcessAllInitialized(g, cs);
    SharedIsPrivate(g, cs);
    PrivateRunTable(RibOut(g.routes, g.packing), RibOut(g.routes, map[]), cs, g.families);
    forall p | p in g.peers
      ensures h.peers[p].lastSeen <= Max(g.peers[p].lastSeen, top)
      ensures p in g.detached ==> Unnoticed(g, h, p)
    {
      ProcessAllOwn(g, cs, p);
      if p in g.detached {
        BatchInvisible(g, cs, top, p);
      }
    }
  }

  /** Booking the End-of-RIBs touches no detached peer and no table. */
  ghost predicate Marked(i: Group, h: Group) {
    && h.routes == i.routes && h.families == i.families && h.lastSeen == i.lastSeen
    && h.detached == i.detached && h.sync == i.sync && h.peers.Keys == i.peers.Keys
    && (forall p | p in i.peers :: h.peers[p].lastSeen <= Max(i.peers[p].lastSeen, i.lastSeen))
    && (forall p | p in i.peers && p in i.detached :: h.peers[p] == i.peers[p])
  }

  lemma MarkAllMarks(i: Group)
    requires SetsOk(i)
    ensures Marked(i, MarkAll(i))
  {
  }

  lemma MarkedBatched(g: Group, i: Group, h: Group, cs: seq<Change>, top: nat)
    requires Batched(g, i, cs, top) && Marked(i, h)
    ensures Batched(g, h, cs, top)
  {
    forall p | p in g.peers && p in g.detached
      ensures Unnoticed(g, h, p)
    {
      assert Unnoticed(g, i, p) && h.peers[p] == i.peers[p];
    }
  }

  lemma DumpBatched(g: Group, cs: seq<Change>, top: nat)
    requires SetsOk(g) && Positive(g.routes) && g.lastSeen <= top && Consumable(g, cs, top)
    requires forall c | c in cs :: 0 < c.version
    ensures Batched(g, Dump(g, cs, top), cs, top)
  {
    ConsumeBatched(g, cs, top);
    ProcessAllInitialized(g, cs);
    BatchedSets(g, Consume(g, cs, top), cs, top);
    MarkAllMarks(Consume(g, cs, top));
    MarkedBatched(g, Consume(g, cs, top), Dump(g, cs, top), cs, top);
  }

  lemma BatchedSets(g: Group, h: Group, cs: seq<Change>, top: nat)
    requires Batched(g, h, cs, top) && SetsOk(g) && h.blocked == g.blocked
    ensures SetsOk(h)
  {
    forall p ensures p in h.peers <==> p in h.peers.Keys { }
  }

  lemma StampedChange(ctl: Control, s: Shadow, cs: seq<Change>, top: nat)
    requires Stamped(s, top) && FromShadow(ctl, s, cs)
    ensures forall c | c in cs :: 0 < c.version <= top
  {
  }

  // ---------------------------------------------------------------- what a batch keeps

  lemma TopIsEnd(ctl: Control, s: Shadow, top: nat)
    requires Stamped(s, top)
    ensures AtEnd(ctl, s, top)
  {
    forall k
      ensures Passed(ctl, s, top, k)
    {
      assert PathOf(s, ctl.addPath, k).since <= VersionOf(s, k.prefix);
    }
  }

  /** The net after a batch that brought the group to the end of the list, under a control of the same kind. */
  ghost predicate ToEnd(n: Net, m: Net, id: GroupId, cs: seq<Change>) {
    && id in n.groups && id in n.control && id in m.groups && id in m.control
    && m.groups == n.groups[id := m.groups[id]] && Batched(n.groups[id], m.groups[id], cs, n.top)
    && m.groups[id].initialized
    && m.control == n.control[id := m.control[id]] && m.at == n.at[id := n.top]
    && m.shadow == n.shadow && m.top == n.top && m.seen == n.seen
    && m.control[id] == n.control[id].(policy := m.control[id].policy)
    && (forall p | p in n.groups[id].detached :: ControlOf(m, id, p) == ControlOf(n, id, p))
    && (forall p | p !in n.groups[id].detached ::
          (p in m.under <==> p in n.under) && (p in n.under ==> m.under[p] == n.under[p]))
  }

  lemma ToEndPeer(n: Net, m: Net, id: GroupId, cs: seq<Change>, p: PeerId)
    requires ToEnd(n, m, id, cs) && p in n.groups[id].peers && PeerOk(n, id, p)
    ensures p in m.groups[id].peers && PeerOk(m, id, p)
  {
    var g, h := n.groups[id], m.groups[id];
    if p in g.detached {
      assert Unnoticed(g, h, p);
    }
  }

  lemma ToEndGroup(n: Net, m: Net, id: GroupId, cs: seq<Change>)
    requires ToEnd(n, m, id, cs) && GroupOk(n, id) && Stamped(n.shadow, n.top)
    requires RightUpTo(m.control[id], n.shadow, n.top, m.groups[id].routes)
    requires InFamilies(m.groups[id].routes, m.control[id].families)
    ensures GroupOk(m, id)
  {
    TopIsEnd(m.control[id], n.shadow, n.top);
  }

  lemma ToEndOthers(n: Net, m: Net, id: GroupId, cs: seq<Change>)
    requires ToEnd(n, m, id, cs) && Apart(n.groups) && SetsOk(n.groups[id])
    ensures OnlyGroup(n, m, id)
  {
    forall j, p | j in m.groups && j != id && p in m.groups[j].peers
      ensures SameSeat(n, m, p)
    {
      assert p !in n.groups[id].peers;
    }
  }

  lemma ToEndKeeps(n: Net, m: Net, id: GroupId, cs: seq<Change>)
    requires NetInv(n) && ToEnd(n, m, id, cs) && WorldInv(m.groups)
    requires RightUpTo(m.control[id], n.shadow, n.top, m.groups[id].routes)
    requires InFamilies(m.groups[id].routes, m.control[id].families)
    ensures NetInv(m)
  {
    ToEndOthers(n, m, id, cs);
    ToEndGroup(n, m, id, cs);
    forall p | p in m.groups[id].peers
      ensures PeerOk(m, id, p)
    {
      ToEndPeer(n, m, id, cs, p);
    }
    OnlyGroupOk(n, m, id);
  }

  /** So is the net with the group at the end, its detached peers outdated if the control is another. */
  lemma AtTheEnd(n: Net, id: GroupId, h: Group, ctl: Control, outdated: set<PeerId>, cs: seq<Change>)
    requires id in n.groups && id in n.control && Batched(n.groups[id], h, cs, n.top) && h.initialized
    requires ctl == n.control[id].(policy := ctl.policy)
    requires outdated == n.groups[id].detached || (outdated == {} && ctl == n.control[id])
    ensures ToEnd(n, ToTheEnd(n, id, h, ctl, outdated), id, cs)
  {
  }

  // ---------------------------------------------------------------- the three steps

  lemma PositiveRoutes(g: Group)
    requires Inv(g)
    ensures Positive(g.routes) && SetsOk(g) && PeersOk(g)
  {
  }

  lemma HeldAnyPolicy(ctl: Control, ctl': Control, s: Shadow, pos: nat, t: Table, limit: nat)
    requires Held(ctl, s, pos, t) && Ahead(ctl, s, pos, limit) && ctl' == ctl.(policy := ctl'.policy)
    ensures Held(ctl', s, pos, t) && Ahead(ctl', s, pos, limit)
  {
    forall k | Passed(ctl', s, pos, k) && Entered(ctl', s, k)
      ensures k in t && t[k].version <= VersionOf(s, k.prefix)
    {
      assert Passed(ctl, s, pos, k) && Entered(ctl, s, k);
    }
    forall k | !Passed(ctl', s, pos, k)
      ensures PathOf(s, ctl'.addPath, k).since > limit
    {
      assert !Passed(ctl, s, pos, k);
    }
  }

  /** What a group may consume under its own control, or under a new policy, is consumable. */
  lemma ListConsumable(g: Group, ctl: Control, ctl': Control, s: Shadow, pos: nat, top: nat, cs: seq<Change>)
    requires PeersOk(g) && g.families == ctl.families && GroupRight(ctl, s, pos, g)
    requires ctl' == ctl.(policy := ctl'.policy) && Stamped(s, top) && FromShadow(ctl', s, cs)
    ensures Consumable(g, cs, top)
  {
    DetachedByLastSeen(g);
    RightIsHeld(ctl, s, pos, g.routes);
    HeldAnyPolicy(ctl, ctl', s, pos, g.routes, g.lastSeen);
    BatchConsumable(g, ctl', s, pos, g.lastSeen, top, top, cs);
  }

  lemma GroupConsumeEnabled(n: Net, id: GroupId, ctl: Control, cs: seq<Change>)
    requires NetInv(n) && id in n.groups && n.groups[id].initialized && id in n.control
    requires ctl == n.control[id].(policy := ctl.policy) && FromShadow(ctl, n.shadow, cs)
    ensures Consumable(n.groups[id], cs, n.top)
    ensures WorldEnabled(n.groups, Local(id, Consumed(cs, n.top)))
    ensures Batched(n.groups[id], Consume(n.groups[id], cs, n.top), cs, n.top)
    ensures Consume(n.groups[id], cs, n.top).initialized
  {
    var g := n.groups[id];
    assert GroupOk(n, id);
    PositiveRoutes(g);
    StampedChange(ctl, n.shadow, cs, n.top);
    ListConsumable(g, n.control[id], ctl, n.shadow, n.at[id], n.top, cs);
    ConsumeBatched(g, cs, n.top);
    ProcessAllInitialized(g, cs);
  }

  lemma GroupConsumeKeeps(n: Net, id: GroupId, cs: seq<Change>, h: Group)
    requires NetInv(n) && CanGroupConsume(n, id, cs) && h == Consume(n.groups[id], cs, n.top)
    ensures WorldEnabled(n.groups, Local(id, Consumed(cs, n.top)))
    ensures NetInv(ToTheEnd(n, id, h, n.control[id], {}))
  {
    var g, ctl := n.groups[id], n.control[id];
    GroupConsumeEnabled(n, id, ctl, cs);
    LocalKeeps(n.groups, id, Consumed(cs, n.top));
    assert GroupOk(n, id);
    ConsumeRight(ctl, n.shadow, RibOut(g.routes, map[]), cs, n.at[id], n.top);
    AtTheEnd(n, id, h, ctl, {}, cs);
    ToEndKeeps(n, ToTheEnd(n, id, h, ctl, {}), id, cs);
  }

  lemma GroupReevaluateKeeps(n: Net, id: GroupId, ctl: Control, cs: seq<Change>, h: Group)
    requires NetInv(n) && CanGroupReevaluate(n, id, ctl, cs) && h == Consume(n.groups[id], cs, n.top)
    ensures WorldEnabled(n.groups, Local(id, Consumed(cs, n.top)))
    ensures NetInv(ToTheEnd(n, id, h, ctl, n.groups[id].detached))
  {
    var g := n.groups[id];
    GroupConsumeEnabled(n, id, ctl, cs);
    LocalKeeps(n.groups, id, Consumed(cs, n.top));
    assert GroupOk(n, id);
    ReevaluateRight(ctl, n.control[id], n.shadow, RibOut(g.routes, map[]), cs, n.at[id], JoinedOf(n, OfGroup(id)), n.top);
    AtTheEnd(n, id, h, ctl, g.detached, cs);
    ToEndKeeps(n, ToTheEnd(n, id, h, ctl, g.detached), id, cs);
  }

  /** A walk over the whole shadow RIB into an empty table puts everything right. */
  lemma DumpRight(ctl: Control, s: Shadow, cs: seq<Change>, pos: nat)
    requires FromShadow(ctl, s, cs) && Walks(ctl, s, cs)
    ensures RightUpTo(ctl, s, pos, PrivateRun(RibOut(map[], map[]), cs, ctl.families).table)
    ensures InFamilies(PrivateRun(RibOut(map[], map[]), cs, ctl.families).table, ctl.families)
  {
    var t := PrivateRun(RibOut(map[], map[]), cs, ctl.families).table;
    forall k
      ensures RightAt(ctl, s, t, k)
      ensures k in t ==> AfiOf(k.prefix) in ctl.families
    {
      RunRight(ctl, s, RibOut(map[], map[]), cs, k);
    }
  }

  lemma GroupDumpEnabled(n: Net, id: GroupId, ctl: Control, cs: seq<Change>)
    requires NetInv(n) && CanGroupDump(n, id, ctl, cs)
    ensures WorldEnabled(n.groups, Local(id, Dumped(cs, n.top)))
    ensures Batched(n.groups[id], Dump(n.groups[id], cs, n.top), cs, n.top) && n.groups[id].routes == map[]
  {
    var g := n.groups[id];
    assert GroupOk(n, id);
    PositiveRoutes(g);
    StampedChange(ctl, n.shadow, cs, n.top);
    DetachedByLastSeen(g);
    NewerConsumable(g, cs, 0, n.top);
    DumpBatched(g, cs, n.top);
  }

  lemma GroupDumpKeeps(n: Net, id: GroupId, ctl: Control, cs: seq<Change>, h: Group)
    requires NetInv(n) && CanGroupDump(n, id, ctl, cs) && h == Dump(n.groups[id], cs, n.top)
    ensures WorldEnabled(n.groups, Local(id, Dumped(cs, n.top)))
    ensures NetInv(ToTheEnd(n, id, h, ctl, n.groups[id].detached))
  {
    GroupDumpEnabled(n, id, ctl, cs);
    LocalKeeps(n.groups, id, Dumped(cs, n.top));
    assert GroupOk(n, id);
    DumpRight(ctl, n.shadow, cs, n.top);
    AtTheEnd(n, id, h, ctl, n.groups[id].detached, cs);
    ToEndKeeps(n, ToTheEnd(n, id, h, ctl, n.groups[id].detached), id, cs);
  }
}
