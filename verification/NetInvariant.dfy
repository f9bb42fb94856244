/** What every step of the fleet on its change list keeps. */
module NetInvariant {
  import opened Types
  import opened Advertised
  import opened GroupState
  import opened FleetRun
  import opened ShadowRib
  import opened ListConsumers
  import opened Net

  ghost predicate InFamilies(t: Table, families: set<Afi>) {
    forall k | k in t :: AfiOf(k.prefix) in families
  }

  /** The group's RIB-OUT is right up to where it stands, and everything due is newer than what it has seen. */
  ghost predicate GroupRight(ctl: Control, s: Shadow, pos: nat, g: Group) {
    RightUpTo(ctl, s, pos, g.routes) && InFamilies(g.routes, ctl.families) && Ahead(ctl, s, pos, g.lastSeen)
  }

  ghost predicate GroupOk(n: Net, id: GroupId)
    requires id in n.groups
  {
    var g := n.groups[id];
    && id in n.control && n.control[id].families == g.families
    && (id in n.at <==> g.initialized)
    && g.lastSeen <= n.top && (!g.initialized ==> g.lastSeen == 0)
    && (g.initialized ==> n.at[id] <= n.top && GroupRight(n.control[id], n.shadow, n.at[id], g))
  }

  /** A detached peer's RIB-OUT is right up to where it stands. */
  ghost predicate TableRight(ctl: Control, s: Shadow, pos: nat, t: Table) {
    RightUpTo(ctl, s, pos, t) && InFamilies(t, ctl.families)
  }

  /** A detached peer with a consumer shares entries only behind its group; one without has nothing yet. */
  ghost predicate DetachedRight(n: Net, id: GroupId, p: PeerId)
    requires id in n.groups && p in n.groups[id].peers
  {
    var g := n.groups[id];
    if p in n.seen then
      && id in n.control && n.seen[p] <= n.top
      && SameKind(n.control[id], ControlOf(n, id, p))
      && TableRight(ControlOf(n, id, p), n.shadow, n.seen[p], TableOf(g, p))
      && (g.peers[p].detachVersion > 0 ==> id in n.at && n.seen[p] <= n.at[id])
    else g.peers[p].own == map[] && g.peers[p].detachVersion == 0
  }

  ghost predicate PeerOk(n: Net, id: GroupId, p: PeerId)
    requires id in n.groups && p in n.groups[id].peers
  {
    n.groups[id].peers[p].lastSeen <= n.top && (p in n.groups[id].detached ==> DetachedRight(n, id, p))
  }

  ghost predicate ConsumersOk(n: Net) {
    && (forall id | id in n.groups :: GroupOk(n, id))
    && (forall id, p | id in n.groups && p in n.groups[id].peers :: PeerOk(n, id, p))
  }

  ghost predicate NetInv(n: Net) {
    WorldInv(n.groups) && Stamped(n.shadow, n.top) && ConsumersOk(n)
  }

  lemma StartInv()
    ensures NetInv(START)
  {
  }

  // ---------------------------------------------------------------- the shadow RIB moves

  /** Every path is as it was, or newer than any position. */
  ghost predicate Grown(s: Shadow, s': Shadow, top: nat) {
    && (forall addPath, k ::
          PathOf(s', addPath, k) == PathOf(s, addPath, k) || PathOf(s', addPath, k).since > top)
    && (forall prefix :: VersionOf(s, prefix) <= VersionOf(s', prefix))
  }

  lemma PublishedGrown(n: Net, prefix: Prefix, entry: ShadowEntry)
    requires CanPublish(n, prefix, entry) && Stamped(n.shadow, n.top)
    ensures Grown(n.shadow, n.shadow[prefix := entry], n.top)
    ensures Stamped(n.shadow[prefix := entry], entry.version)
  {
    var s' := n.shadow[prefix := entry];
    forall addPath, k
      ensures PathOf(s', addPath, k) == PathOf(n.shadow, addPath, k) || PathOf(s', addPath, k).since == entry.version
      ensures PathOf(s', addPath, k).since <= VersionOf(s', k.prefix)
    {
      assert PathOf(n.shadow, addPath, k).since <= VersionOf(n.shadow, k.prefix);
      if k.prefix == prefix {
        assert k == Key(prefix, k.pathId);
        assert Flagged(PathOf(n.shadow, addPath, k), PathOf(s', addPath, k), entry.version);
      }
    }
  }

  lemma GrownRight(ctl: Control, s: Shadow, s': Shadow, top: nat, pos: nat, t: Table)
    requires Grown(s, s', top) && pos <= top
    ensures RightUpTo(ctl, s, pos, t) ==> RightUpTo(ctl, s', pos, t)
  {
    forall k | Passed(ctl, s', pos, k)
      ensures Passed(ctl, s, pos, k) && PathOf(s', ctl.addPath, k) == PathOf(s, ctl.addPath, k)
      ensures RightAt(ctl, s, t, k) ==> RightAt(ctl, s', t, k)
    {
      assert VersionOf(s, k.prefix) <= VersionOf(s', k.prefix);
    }
  }

  lemma GrownAhead(ctl: Control, s: Shadow, s': Shadow, top: nat, pos: nat, limit: nat)
    requires Grown(s, s', top) && limit <= top && Ahead(ctl, s, pos, limit)
    ensures Ahead(ctl, s', pos, limit)
  {
    forall k | !Passed(ctl, s', pos, k)
      ensures PathOf(s', ctl.addPath, k).since > limit
    {
      assert PathOf(s', ctl.addPath, k) == PathOf(s, ctl.addPath, k) || PathOf(s', ctl.addPath, k).since > top;
    }
  }

  lemma PublishedGroup(n: Net, m: Net, id: GroupId)
    requires m == n.(shadow := m.shadow, top := m.top) && Grown(n.shadow, m.shadow, n.top) && n.top <= m.top
    requires id in n.groups && GroupOk(n, id)
    ensures GroupOk(m, id)
  {
    if n.groups[id].initialized {
      GrownRight(n.control[id], n.shadow, m.shadow, n.top, n.at[id], n.groups[id].routes);
      GrownAhead(n.control[id], n.shadow, m.shadow, n.top, n.at[id], n.groups[id].lastSeen);
    }
  }

  lemma PublishedPeer(n: Net, m: Net, id: GroupId, p: PeerId)
    requires m == n.(shadow := m.shadow, top := m.top) && Grown(n.shadow, m.shadow, n.top) && n.top <= m.top
    requires id in n.groups && p in n.groups[id].peers && PeerOk(n, id, p)
    ensures PeerOk(m, id, p)
  {
    if p in n.groups[id].detached && p in n.seen {
      GrownRight(ControlOf(n, id, p), n.shadow, m.shadow, n.top, n.seen[p], TableOf(n.groups[id], p));
    }
  }

  lemma PublishKeeps(n: Net, prefix: Prefix, entry: ShadowEntry)
    requires NetInv(n) && CanPublish(n, prefix, entry)
    ensures NetInv(n.(shadow := n.shadow[prefix := entry], top := entry.version))
  {
    var m := n.(shadow := n.shadow[prefix := entry], top := entry.version);
    PublishedGrown(n, prefix, entry);
    forall id | id in m.groups
      ensures GroupOk(m, id)
    {
      PublishedGroup(n, m, id);
    }
    forall id, p | id in m.groups && p in m.groups[id].peers
      ensures PeerOk(m, id, p)
    {
      PublishedPeer(n, m, id, p);
    }
  }

  /** Every path of the prefix is withdrawn, and a consumer at `pos` has passed that. */
  ghost predicate GonePast(ctl: Control, s: Shadow, prefix: Prefix, pos: nat) {
    forall id ::
      PathOf(s, ctl.addPath, Key(prefix, id)).attrs.None? && PathOf(s, ctl.addPath, Key(prefix, id)).since <= pos
  }

  lemma ForgottenStamped(s: Shadow, prefix: Prefix, top: nat)
    requires Stamped(s, top)
    ensures Stamped(s - {prefix}, top)
  {
    forall addPath, k
      ensures PathOf(s - {prefix}, addPath, k).since <= VersionOf(s - {prefix}, k.prefix)
    {
      assert PathOf(s, addPath, k).since <= VersionOf(s, k.prefix);
    }
  }

  /** Dropping a withdrawn prefix that a consumer has passed changes nothing for it. */
  lemma ForgottenRight(ctl: Control, s: Shadow, prefix: Prefix, pos: nat, t: Table)
    requires GonePast(ctl, s, prefix, pos)
    ensures RightUpTo(ctl, s, pos, t) ==> RightUpTo(ctl, s - {prefix}, pos, t)
    ensures forall limit: nat :: Ahead(ctl, s, pos, limit) ==> Ahead(ctl, s - {prefix}, pos, limit)
  {
    var s' := s - {prefix};
    forall k
      ensures Passed(ctl, s', pos, k) ==> Passed(ctl, s, pos, k)
      ensures k.prefix == prefix ==> PathOf(s, ctl.addPath, k).attrs.None? && PathOf(s', ctl.addPath, k) == NO_PATH
      ensures k.prefix != prefix ==> PathOf(s', ctl.addPath, k) == PathOf(s, ctl.addPath, k)
      ensures RightAt(ctl, s, t, k) ==> RightAt(ctl, s', t, k)
    {
      if k.prefix == prefix {
        assert k == Key(prefix, k.pathId);
      }
    }
  }

  lemma ForgottenGroup(n: Net, prefix: Prefix, id: GroupId)
    requires CanForget(n, prefix) && id in n.groups && GroupOk(n, id)
    ensures GroupOk(n.(shadow := n.shadow - {prefix}), id)
  {
    if n.groups[id].initialized {
      assert GonePast(n.control[id], n.shadow, prefix, n.at[id]);
      ForgottenRight(n.control[id], n.shadow, prefix, n.at[id], n.groups[id].routes);
    }
  }

  lemma ForgottenPeer(n: Net, prefix: Prefix, id: GroupId, p: PeerId)
    requires CanForget(n, prefix) && id in n.groups && p in n.groups[id].peers && PeerOk(n, id, p)
    ensures PeerOk(n.(shadow := n.shadow - {prefix}), id, p)
  {
    if p in n.groups[id].detached && p in n.seen {
      assert GonePast(ControlOf(n, id, p), n.shadow, prefix, n.seen[p]);
      ForgottenRight(ControlOf(n, id, p), n.shadow, prefix, n.seen[p], TableOf(n.groups[id], p));
    }
  }

  lemma ForgetKeeps(n: Net, prefix: Prefix)
    requires NetInv(n) && CanForget(n, prefix)
    ensures NetInv(n.(shadow := n.shadow - {prefix}))
  {
    var m := n.(shadow := n.shadow - {prefix});
    ForgottenStamped(n.shadow, prefix, n.top);
    forall id | id in m.groups
      ensures GroupOk(m, id)
    {
      ForgottenGroup(n, prefix, id);
    }
    forall id, p | id in m.groups && p in m.groups[id].peers
      ensures PeerOk(m, id, p)
    {
      ForgottenPeer(n, prefix, id, p);
    }
  }

  lemma JoinedPeer(n: Net, joined: map<Consumer, set<Prefix>>, id: GroupId, p: PeerId)
    requires id in n.groups && p in n.groups[id].peers && PeerOk(n, id, p)
    ensures PeerOk(n.(joined := joined), id, p)
  {
  }

  /** Bits without a flagged path are nothing the invariant speaks of. */
  lemma JoinKeeps(n: Net, joined: map<Consumer, set<Prefix>>)
    requires NetInv(n)
    ensures NetInv(n.(joined := joined))
  {
    var m := n.(joined := joined);
    forall id | id in m.groups
      ensures GroupOk(m, id)
    {
      assert GroupOk(n, id);
    }
    forall id, p | id in m.groups && p in m.groups[id].peers
      ensures PeerOk(m, id, p)
    {
      JoinedPeer(n, joined, id, p);
    }
  }
}
