/**
  Consuming the change list.  That no detached peer notices what its group consumes, and that
  nothing shows through when a detached peer consumes behind its group, follows from where the
  consumers stand on the list.
 */
module ListConsumers {
  import opened Types
  import opened Advertised
  import opened GroupState
  import opened GroupInvariant
  import opened PrivateRibOut
  import opened GroupProcessing
  import opened DetachedPeer
  import opened Rejoin
  import opened ShadowRib

  // ---------------------------------------------------------------- the group's side

  /** Routes the group is not due a change of have an entry if they should, no newer than their prefix. */
  ghost predicate Held(ctl: Control, s: Shadow, pos: nat, t: Table) {
    forall k | Passed(ctl, s, pos, k) && Entered(ctl, s, k) :: k in t && t[k].version <= VersionOf(s, k.prefix)
  }

  lemma RightIsHeld(ctl: Control, s: Shadow, pos: nat, t: Table)
    requires RightUpTo(ctl, s, pos, t)
    ensures Held(ctl, s, pos, t)
  {
    forall k | Passed(ctl, s, pos, k) && Entered(ctl, s, k)
      ensures k in t && t[k].version <= VersionOf(s, k.prefix)
    {
      assert RightAt(ctl, s, t, k);
    }
  }

  /** What is still due is newer than every version in `limit`. */
  ghost predicate Ahead(ctl: Control, s: Shadow, pos: nat, limit: nat) {
    forall k | !Passed(ctl, s, pos, k) :: PathOf(s, ctl.addPath, k).since > limit
  }

  ghost predicate DetachedBy(g: Group, limit: nat) {
    forall p | p in g.detached && p in g.peers :: g.peers[p].detachVersion <= limit
  }

  /** A change from the list, or from a walk, is hidden from every detached peer. */
  lemma ChangeHidden(g: Group, ctl: Control, s: Shadow, pos: nat, limit: nat, top: nat, c: Change)
    requires Stamped(s, top) && g.families == ctl.families && c == ChangeOf(ctl, s, c.key)
    requires Held(ctl, s, pos, g.routes) && Ahead(ctl, s, pos, limit) && DetachedBy(g, limit)
    ensures Invisible(g, c)
  {
    if AfiOf(c.key.prefix) in g.families && !Removes(c) {
      forall p | p in g.detached && p in g.peers
        ensures HiddenFrom(g.peers[p], g.routes, c)
      {
        assert PathOf(s, ctl.addPath, c.key).since <= VersionOf(s, c.key.prefix);
      }
    }
  }

  lemma HeldOver(g: Group, ctl: Control, s: Shadow, pos: nat, c: Change)
    requires g.families == ctl.families && c == ChangeOf(ctl, s, c.key) && Held(ctl, s, pos, g.routes)
    ensures Held(ctl, s, pos, ProcessForGroup(g, c).routes)
  {
    ProcessTable(RibOut(g.routes, g.packing), c, false);
  }

  lemma DetachedByOver(g: Group, c: Change, limit: nat)
    requires DetachedBy(g, limit)
    ensures DetachedBy(ProcessForGroup(g, c), limit)
    ensures ProcessForGroup(g, c).families == g.families
  {
  }

  /** Any batch from the list, with or without a walk before it, is one no detached peer notices. */
  lemma {:induction false} BatchConsumable(
    g: Group, ctl: Control, s: Shadow, pos: nat, limit: nat, top: nat, bound: nat, cs: seq<Change>)
    requires Stamped(s, top) && top <= bound && g.families == ctl.families && FromShadow(ctl, s, cs)
    requires Held(ctl, s, pos, g.routes) && Ahead(ctl, s, pos, limit) && DetachedBy(g, limit)
    ensures Consumable(g, cs, bound)
    decreases cs
  {
    if cs != [] {
      ChangeHidden(g, ctl, s, pos, limit, top, cs[0]);
      HeldOver(g, ctl, s, pos, cs[0]);
      DetachedByOver(g, cs[0], limit);
      assert FromShadow(ctl, s, cs[1..]);
      BatchConsumable(ProcessForGroup(g, cs[0]), ctl, s, pos, limit, top, bound, cs[1..]);
    }
  }

  /** Changes newer than every detach version are ones no detached peer notices. */
  lemma {:induction false} NewerConsumable(g: Group, cs: seq<Change>, limit: nat, bound: nat)
    requires DetachedBy(g, limit) && forall c | c in cs :: limit < c.version <= bound
    ensures Consumable(g, cs, bound)
    decreases cs
  {
    if cs != [] {
      DetachedByOver(g, cs[0], limit);
      NewerConsumable(ProcessForGroup(g, cs[0]), cs[1..], limit, bound);
    }
  }

  /** No batch of changes newer than every detach version changes the view of any detached peer. */
  lemma NewerInvisible(g: Group, cs: seq<Change>, limit: nat, p: PeerId)
    requires g.detached <= g.peers.Keys && p in g.detached
    requires DetachedBy(g, limit) && forall c | c in cs :: limit < c.version
    ensures p in ProcessAll(g, cs).peers && TableOf(ProcessAll(g, cs), p) == TableOf(g, p)
  {
    var bound := NewestOf(cs);
    NewerConsumable(g, cs, limit, bound);
    BatchInvisible(g, cs, bound, p);
  }

  function NewestOf(cs: seq<Change>): (v: nat)
    ensures forall c | c in cs :: c.version <= v
  {
    if cs == [] then 0 else Max(cs[0].version, NewestOf(cs[1..]))
  }

  /** A group that consumes what is due to it changes the view of no detached peer. */
  lemma ListInvisible(g: Group, ctl: Control, s: Shadow, pos: nat, top: nat, cs: seq<Change>, p: PeerId)
    requires Inv(g) && p in g.detached
    requires Stamped(s, top) && g.families == ctl.families && FromShadow(ctl, s, cs)
    requires RightUpTo(ctl, s, pos, g.routes) && Ahead(ctl, s, pos, g.lastSeen)
    ensures p in ProcessAll(g, cs).peers && TableOf(ProcessAll(g, cs), p) == TableOf(g, p)
  {
    DetachedByLastSeen(g);
    RightIsHeld(ctl, s, pos, g.routes);
    BatchConsumable(g, ctl, s, pos, g.lastSeen, top, top, cs);
    BatchInvisible(g, cs, top, p);
  }

  lemma DetachedByLastSeen(g: Group)
    requires PeersOk(g)
    ensures DetachedBy(g, g.lastSeen)
  {
    forall p | p in g.detached && p in g.peers
      ensures g.peers[p].detachVersion <= g.lastSeen
    {
      assert DetachedOk(g.peers[p], g.routes, g.lastSeen);
    }
  }

  // ---------------------------------------------------------------- a detached peer's side

  /** The peer would see the group's entry if it had none of its own. */
  predicate SharesAt(q: Peer, routes: Table, k: Key) {
    k in routes && routes[k].version <= q.detachVersion
  }

  lemma RevealsIff(q: Peer, routes: Table, c: Change)
    ensures Reveals(q, routes, c) <==> Removes(c) && SharesAt(q, routes, c.key)
  {
  }

  /** Where the group is right, it has no entry of a route to be taken away. */
  lemma RightNotShared(q: Peer, routes: Table, ctl: Control, s: Shadow, k: Key)
    requires RightAt(ctl, s, routes, k) && Removes(ChangeOf(ctl, s, k))
    ensures !SharesAt(q, routes, k)
  {
  }

  /** The detached peer after a batch of changes of its own. */
  function ProcessAllForPeer(g: Group, p: PeerId, cs: seq<Change>, refresh: bool): (h: Group)
    requires p in g.peers
    ensures p in h.peers
    decreases cs
  {
    if cs == [] then g else ProcessAllForPeer(ProcessForPeer(g, p, cs[0], refresh), p, cs[1..], refresh)
  }

  /** Nothing the peer is about to take away would show through from the group. */
  ghost predicate Covered(g: Group, p: PeerId, cs: seq<Change>)
    requires p in g.peers
  {
    forall c | c in cs && Removes(c) :: !SharesAt(g.peers[p], g.routes, c.key)
  }

  lemma OwnerCovered(g: Group, p: PeerId, cs: seq<Change>)
    requires p in g.peers && g.peers[p].detachVersion == 0 && Positive(g.routes)
    ensures Covered(g, p, cs)
  {
  }

  lemma CanProcessNext(g: Group, p: PeerId, ctl: Control, s: Shadow, top: nat, cs: seq<Change>)
    requires Inv(g) && p in g.detached && !g.peers[p].state.DetachedReadyToJoin?
    requires Stamped(s, top) && g.families == ctl.families && FromShadow(ctl, s, cs) && cs != []
    requires Covered(g, p, cs)
    ensures CanProcess(g, p, cs[0])
  {
  }

  /** What a peer's own changes leave alone. */
  ghost predicate OnlyPeer(g: Group, h: Group, p: PeerId) {
    && p in g.peers && p in h.peers && h == g.(peers := g.peers[p := h.peers[p]])
    && h.peers[p].detachVersion == g.peers[p].detachVersion && h.peers[p].state == g.peers[p].state
  }

  lemma PeerChangeFrame(g: Group, p: PeerId, c: Change, refresh: bool)
    requires p in g.peers
    ensures OnlyPeer(g, ProcessForPeer(g, p, c, refresh), p)
  {
    assert g.peers[p := g.peers[p]] == g.peers;
  }

  lemma OnlyPeerTwice(g: Group, h: Group, i: Group, p: PeerId)
    requires OnlyPeer(g, h, p) && OnlyPeer(h, i, p)
    ensures OnlyPeer(g, i, p)
  {
    assert g.peers[p := h.peers[p]][p := i.peers[p]] == g.peers[p := i.peers[p]];
  }

  lemma PrivateRunHead(t: Table, cs: seq<Change>, families: set<Afi>)
    requires cs != []
    ensures
      var u := if AfiOf(cs[0].key.prefix) in families then Process(RibOut(t, map[]), cs[0], false).table else t;
      PrivateRun(RibOut(t, map[]), cs, families).table == PrivateRun(RibOut(u, map[]), cs[1..], families).table
  {
    if AfiOf(cs[0].key.prefix) in families {
      var r := Process(RibOut(t, map[]), cs[0], false);
      PrivateRunTable(r, RibOut(r.table, map[]), cs[1..], families);
    }
  }

  /** A change of its own moves the peer's view as it would a private RIB-OUT. */
  lemma PeerChangeView(g: Group, p: PeerId, c: Change, refresh: bool)
    requires p in g.detached && p in g.peers && !Reveals(g.peers[p], g.routes, c)
    ensures TableOf(ProcessForPeer(g, p, c, refresh), p)
      == if AfiOf(c.key.prefix) in g.families then Process(RibOut(TableOf(g, p), map[]), c, false).table
         else TableOf(g, p)
  {
    var q := g.peers[p];
    if AfiOf(c.key.prefix) in g.families {
      CopyOnWriteViewIff(q, g.routes, c, refresh);
      PrivateTableOnly(RibOut(TableOf(g, p), q.packing), RibOut(TableOf(g, p), map[]), c, refresh);
      ChangedView(g, p, c, refresh);
    }
  }

  lemma ChangedView(g: Group, p: PeerId, c: Change, refresh: bool)
    requires p in g.detached && p in g.peers && AfiOf(c.key.prefix) in g.families
    ensures TableOf(ProcessForPeer(g, p, c, refresh), p)
      == View(Process(RibOut(Writable(g.peers[p], g.routes, c.key), g.peers[p].packing), c, refresh).table,
              g.routes, g.peers[p].detachVersion)
  {
  }

  lemma CoveredTail(g: Group, h: Group, p: PeerId, ctl: Control, s: Shadow, cs: seq<Change>)
    requires OnlyPeer(g, h, p) && cs != [] && FromShadow(ctl, s, cs) && Covered(g, p, cs)
    ensures FromShadow(ctl, s, cs[1..]) && Covered(h, p, cs[1..])
  {
  }

  /** A peer in this position may process the whole batch. */
  ghost predicate MayProcess(g: Group, p: PeerId, ctl: Control, s: Shadow, top: nat, cs: seq<Change>) {
    && Inv(g) && p in g.detached && p in g.peers && !g.peers[p].state.DetachedReadyToJoin?
    && Stamped(s, top) && g.families == ctl.families && FromShadow(ctl, s, cs) && Covered(g, p, cs)
  }

  lemma MayProcessTail(g: Group, p: PeerId, ctl: Control, s: Shadow, top: nat, cs: seq<Change>, refresh: bool, h: Group)
    requires MayProcess(g, p, ctl, s, top, cs) && cs != [] && h == ProcessForPeer(g, p, cs[0], refresh)
    ensures CanProcess(g, p, cs[0]) && OnlyPeer(g, h, p) && MayProcess(h, p, ctl, s, top, cs[1..])
  {
    CanProcessNext(g, p, ctl, s, top, cs);
    ProcessForPeerKeeps(g, p, cs[0], refresh);
    PeerChangeFrame(g, p, cs[0], refresh);
    CoveredTail(g, h, p, ctl, s, cs);
  }

  /** A batch of its own changes moves the peer's view as it would a private RIB-OUT, and nothing else. */
  lemma {:induction false} PeerBatchMoves(
    g: Group, p: PeerId, ctl: Control, s: Shadow, top: nat, cs: seq<Change>, refresh: bool)
    requires MayProcess(g, p, ctl, s, top, cs)
    ensures
      var h := ProcessAllForPeer(g, p, cs, refresh);
      && Inv(h) && OnlyPeer(g, h, p)
      && TableOf(h, p) == PrivateRun(RibOut(TableOf(g, p), map[]), cs, ctl.families).table
    decreases cs
  {
    if cs == [] {
      assert g.peers[p := g.peers[p]] == g.peers;
    } else {
      var h := ProcessForPeer(g, p, cs[0], refresh);
      MayProcessTail(g, p, ctl, s, top, cs, refresh, h);
      PeerChangeView(g, p, cs[0], refresh);
      PrivateRunHead(TableOf(g, p), cs, ctl.families);
      PeerBatchMoves(h, p, ctl, s, top, cs[1..], refresh);
      OnlyPeerTwice(g, h, ProcessAllForPeer(h, p, cs[1..], refresh), p);
    }
  }
}
