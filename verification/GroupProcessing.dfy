/**
  Group-side processing of route changes: lazy cloning hides every change of the shared
  RIB-OUT from the detached peers, and the in-sync peers stay told.
 */
module GroupProcessing {
  import opened Types
  import opened PackingList
  import opened Advertised
  import opened GroupState
  import opened GroupInvariant
  import opened PrivateRibOut

  // ---------------------------------------------------------------- lazy clone

  /** Copying a shared entry changes no view, whoever makes the copy. */
  lemma CloneInvisible(q: Peer, routes: Table, k: Key)
    ensures View(CloneFor(q, routes, k).own, routes, q.detachVersion) == View(q.own, routes, q.detachVersion)
  {
  }

  /** Away from `k` a view depends on the entries away from `k` only. */
  lemma ViewElsewhere(own: Table, own': Table, routes: Table, routes': Table, v: nat, k: Key, j: Key)
    requires j != k
    requires j in own' <==> j in own
    requires j in own ==> own'[j] == own[j]
    requires j in routes' <==> j in routes
    requires j in routes ==> routes'[j] == routes[j]
    ensures j in View(own', routes', v) <==> j in View(own, routes, v)
    ensures j in View(own, routes, v) ==> View(own', routes', v)[j] == View(own, routes, v)[j]
  {
  }

  /**
    After the clone, a change of the group's entry at `k` is invisible to a peer exactly
    when the peer owns `k`, or the group has no entry there, or that entry is newer than
    the peer's detach version.
   */
  lemma EntryChangeInvisibleIff(q: Peer, routes: Table, routes': Table, k: Key)
    requires forall j | j != k :: j in routes' <==> j in routes
    requires forall j | j != k && j in routes :: routes'[j] == routes[j]
    ensures
      var own := CloneFor(q, routes, k).own;
      View(own, routes', q.detachVersion) == View(q.own, routes, q.detachVersion)
      <==> k in own || k !in routes' || routes'[k].version > q.detachVersion
  {
    var own := CloneFor(q, routes, k).own;
    var was, now := View(q.own, routes, q.detachVersion), View(own, routes', q.detachVersion);
    if k in own || k !in routes' || routes'[k].version > q.detachVersion {
      forall j | j in was || j in now
        ensures j in was && j in now && was[j] == now[j]
      {
        if j != k { ViewElsewhere(q.own, own, routes, routes', q.detachVersion, k, j); }
      }
      assert was == now;
    } else {
      assert k in now && k !in was;
    }
  }

  /** When a group-side change cannot be seen through any detached peer's version gate. */
  ghost predicate Invisible(g: Group, c: Change) {
    AfiOf(c.key.prefix) !in g.families || Removes(c)
    || forall p | p in g.detached && p in g.peers :: HiddenFrom(g.peers[p], g.routes, c)
  }

  ghost predicate HiddenFrom(q: Peer, routes: Table, c: Change) {
    c.key in q.own || (c.key in routes && routes[c.key].version <= q.detachVersion) || q.detachVersion < c.version
  }

  /** A group-side change leaves every detached view alone exactly when it is `Invisible`. */
  lemma GroupChangeInvisibleIff(g: Group, c: Change)
    requires g.detached <= g.peers.Keys
    ensures Invisible(g, c) <==>
      forall p | p in g.detached :: TableOf(ProcessForGroup(g, c), p) == TableOf(g, p)
  {
    var h := ProcessForGroup(g, c);
    if AfiOf(c.key.prefix) in g.families {
      ProcessTable(RibOut(g.routes, g.packing), c, false);
      forall p | p in g.detached
        ensures TableOf(h, p) == TableOf(g, p) <==> Removes(c) || HiddenFrom(g.peers[p], g.routes, c)
      {
        EntryChangeInvisibleIff(g.peers[p], g.routes, h.routes, c.key);
      }
    }
  }

  // ---------------------------------------------------------------- one change

  lemma DetachedOkOverChange(g: Group, c: Change, p: PeerId)
    requires p in g.detached && p in g.peers && AfiOf(c.key.prefix) in g.families
    requires Invisible(g, c)
    requires forall k | k in g.routes :: 0 < g.routes[k].version
    requires DetachedOk(g.peers[p], g.routes, g.lastSeen)
    ensures DetachedOk(CloneFor(g.peers[p], g.routes, c.key), ProcessForGroup(g, c).routes, g.lastSeen)
  {
    var q := g.peers[p];
    var routes' := ProcessForGroup(g, c).routes;
    ProcessTable(RibOut(g.routes, g.packing), c, false);
    EntryChangeInvisibleIff(q, g.routes, routes', c.key);
  }

  lemma SyncOkOverChange(q: Peer, r: RibOut, c: Change, isBlocked: bool, initialized: bool)
    requires SyncOk(q, r.table, r.packing, isBlocked, initialized)
    ensures SyncOk(q, Process(r, c, false).table, Process(r, c, false).packing, isBlocked, initialized)
  {
    var r' := Process(r, c, false);
    ProcessTold(r, c, false, q.inFlight, q.sent);
    forall k | k in q.debt
      ensures Pending(r'.packing, k) || InFlightKey(q.inFlight, k)
    {
      if Pending(r.packing, k) { ProcessKeepsPending(r, c, false, k); }
    }
  }

  lemma PeersOkOverChange(g: Group, c: Change)
    requires MembersOk(g) && PeersOk(g) && AfiOf(c.key.prefix) in g.families
    requires forall k | k in g.routes :: 0 < g.routes[k].version
    requires Invisible(g, c)
    ensures PeersOk(ProcessForGroup(g, c))
  {
    var h := ProcessForGroup(g, c);
    forall p | p in h.sync && p in h.peers
      ensures SyncOk(h.peers[p], h.routes, h.packing, p in h.blocked, h.initialized)
    {
      SyncOkOverChange(g.peers[p], RibOut(g.routes, g.packing), c, p in g.blocked, g.initialized);
      assert g.numInSync != 0;
    }
    forall p | p in h.detached && p in h.peers
      ensures DetachedOk(h.peers[p], h.routes, h.lastSeen)
    {
      DetachedOkOverChange(g, c, p);
    }
  }

  lemma PackingOverChange(g: Group, c: Change, bound: nat)
    requires Core(g, bound)
    requires AfiOf(c.key.prefix) in g.families
    requires PeersOk(ProcessForGroup(g, c))
    ensures WellPacked(ProcessForGroup(g, c).packing)
    ensures Tracks(ProcessForGroup(g, c).packing, ProcessForGroup(g, c).routes)
    ensures g.sync == {} ==> ProcessForGroup(g, c).packing == map[]
  {
    var h := ProcessForGroup(g, c);
    if g.sync != {} {
      var p :| p in g.sync;
      assert p in h.peers && SyncOk(h.peers[p], h.routes, h.packing, p in h.blocked, h.initialized);
    }
  }

  lemma CloneFrame(peers: map<PeerId, Peer>, detached: set<PeerId>, routes: Table, k: Key)
    ensures LazyClone(peers, detached, routes, k).Keys == peers.Keys
    ensures forall p | p in peers ::
      var q := LazyClone(peers, detached, routes, k)[p];
      q.owes == peers[p].owes && q.detachVersion == peers[p].detachVersion && q.debt == peers[p].debt
  {
  }

  lemma ShapeOverChange(g: Group, c: Change)
    requires MembersOk(g) && BuilderOk(g) && AfiOf(c.key.prefix) in g.families
    ensures MembersOk(ProcessForGroup(g, c)) && BuilderOk(ProcessForGroup(g, c))
  {
    CloneFrame(g.peers, g.detached, g.routes, c.key);
    MembersFrame(g, ProcessForGroup(g, c));
    BuilderFrame(g, ProcessForGroup(g, c));
  }

  lemma RoutesOverChange(g: Group, c: Change, bound: nat)
    requires RoutesOk(g.routes, bound) && 0 < c.version <= bound
    ensures RoutesOk(ProcessForGroup(g, c).routes, bound)
  {
    ProcessTable(RibOut(g.routes, g.packing), c, false);
  }

  /** One group-side change keeps everything. */
  lemma ProcessForGroupKeeps(g: Group, c: Change, bound: nat)
    requires Core(g, bound) && Invisible(g, c) && 0 < c.version <= bound
    ensures Core(ProcessForGroup(g, c), bound)
  {
    if AfiOf(c.key.prefix) in g.families {
      PeersOkOverChange(g, c);
      PackingOverChange(g, c, bound);
      ShapeOverChange(g, c);
      RoutesOverChange(g, c, bound);
    }
  }

  // ---------------------------------------------------------------- a batch of changes

  /** Every change of the batch is a version of its own and `Invisible` when its turn comes. */
  ghost predicate Consumable(g: Group, cs: seq<Change>, bound: nat)
    decreases cs
  {
    cs == [] || (
      && 0 < cs[0].version <= bound
      && Invisible(g, cs[0])
      && Consumable(ProcessForGroup(g, cs[0]), cs[1..], bound))
  }

  lemma {:induction false} ProcessAllKeeps(g: Group, cs: seq<Change>, bound: nat)
    requires Core(g, bound) && Consumable(g, cs, bound)
    ensures Core(ProcessAll(g, cs), bound)
    ensures ProcessAll(g, cs).lastSeen == g.lastSeen
    decreases cs
  {
    if cs != [] {
      ProcessForGroupKeeps(g, cs[0], bound);
      ProcessAllKeeps(ProcessForGroup(g, cs[0]), cs[1..], bound);
    }
  }

  lemma CoreWiden(g: Group, bound: nat, bound': nat)
    requires Core(g, bound) && bound <= bound'
    ensures Core(g, bound')
  {
  }

  lemma RaiseDetached(q: Peer, routes: Table, lastSeen: nat, v: nat)
    requires DetachedOk(q, routes, lastSeen) && lastSeen <= v
    ensures DetachedOk(q, routes, v)
  {
  }

  lemma RaiseMembers(g: Group, v: nat)
    requires MembersOk(g)
    ensures MembersOk(g.(lastSeen := v))
  {
    MembersFrame(g, g.(lastSeen := v));
  }

  lemma RaisePeers(g: Group, v: nat)
    requires PeersOk(g) && g.lastSeen <= v
    ensures PeersOk(g.(lastSeen := v))
  {
    var h := g.(lastSeen := v);
    forall p | p in h.detached && p in h.peers
      ensures DetachedOk(h.peers[p], h.routes, h.lastSeen)
    {
      RaiseDetached(g.peers[p], g.routes, g.lastSeen, v);
    }
  }

  lemma RaiseLastSeen(g: Group, v: nat)
    requires Core(g, v) && g.lastSeen <= v
    ensures Core(g.(lastSeen := v), v)
  {
    RaiseMembers(g, v);
    RaisePeers(g, v);
  }

  /** Consuming any batch keeps the invariant. */
  lemma ConsumeKeeps(g: Group, cs: seq<Change>, ribVersion: nat)
    requires Inv(g) && g.initialized && Consumable(g, cs, Max(g.lastSeen, ribVersion))
    ensures Inv(Consume(g, cs, ribVersion))
  {
    ConsumeCore(g, cs, ribVersion);
  }

  lemma ConsumeCore(g: Group, cs: seq<Change>, ribVersion: nat)
    requires Core(g, g.lastSeen) && Consumable(g, cs, Max(g.lastSeen, ribVersion))
    ensures Core(Consume(g, cs, ribVersion), Consume(g, cs, ribVersion).lastSeen)
    ensures Consume(g, cs, ribVersion).initialized == g.initialized
  {
    var bound := Max(g.lastSeen, ribVersion);
    CoreWiden(g, g.lastSeen, bound);
    ProcessAllKeeps(g, cs, bound);
    ProcessAllInitialized(g, cs);
    RaiseLastSeen(ProcessAll(g, cs), bound);
  }

  lemma {:induction false} ProcessAllInitialized(g: Group, cs: seq<Change>)
    ensures ProcessAll(g, cs).initialized == g.initialized
    ensures ProcessAll(g, cs).sync == g.sync
    ensures ProcessAll(g, cs).detached == g.detached
    ensures ProcessAll(g, cs).families == g.families
    ensures ProcessAll(g, cs).lastSeen == g.lastSeen && ProcessAll(g, cs).blocked == g.blocked
    decreases cs
  {
    if cs != [] { ProcessAllInitialized(ProcessForGroup(g, cs[0]), cs[1..]); }
  }

  /** No batch, however long, changes the view of any detached peer. */
  lemma {:induction false} BatchInvisible(g: Group, cs: seq<Change>, bound: nat, p: PeerId)
    requires g.detached <= g.peers.Keys && p in g.detached
    requires Consumable(g, cs, bound)
    ensures p in ProcessAll(g, cs).peers && p in ProcessAll(g, cs).detached
    ensures TableOf(ProcessAll(g, cs), p) == TableOf(g, p)
    decreases cs
  {
    if cs != [] {
      GroupChangeInvisibleIff(g, cs[0]);
      BatchInvisible(ProcessForGroup(g, cs[0]), cs[1..], bound, p);
    }
  }

  /** The table every in-sync peer would have kept for itself. */
  function PrivateRun(r: RibOut, cs: seq<Change>, families: set<Afi>): RibOut
    decreases cs
  {
    if cs == [] then r
    else if AfiOf(cs[0].key.prefix) !in families then PrivateRun(r, cs[1..], families)
    else PrivateRun(Process(r, cs[0], false), cs[1..], families)
  }

  /** The shared RIB-OUT is what each in-sync peer would have built privately from the same changes. */
  lemma {:induction false} SharedIsPrivate(g: Group, cs: seq<Change>)
    ensures ProcessAll(g, cs).routes == PrivateRun(RibOut(g.routes, g.packing), cs, g.families).table
    ensures g.numInSync != 0 ==>
      ProcessAll(g, cs).packing == PrivateRun(RibOut(g.routes, g.packing), cs, g.families).packing
    decreases cs
  {
    if cs != [] {
      var h := ProcessForGroup(g, cs[0]);
      SharedIsPrivate(h, cs[1..]);
      if g.numInSync == 0 && AfiOf(cs[0].key.prefix) in g.families {
        PrivateRunTable(RibOut(h.routes, h.packing), Process(RibOut(g.routes, g.packing), cs[0], false), cs[1..], g.families);
      }
    }
  }

  lemma {:induction false} PrivateRunTable(r: RibOut, s: RibOut, cs: seq<Change>, families: set<Afi>)
    requires r.table == s.table
    ensures PrivateRun(r, cs, families).table == PrivateRun(s, cs, families).table
    decreases cs
  {
    if cs != [] {
      if AfiOf(cs[0].key.prefix) !in families {
        PrivateRunTable(r, s, cs[1..], families);
      } else {
        PrivateRunTable(Process(r, cs[0], false), Process(s, cs[0], false), cs[1..], families);
      }
    }
  }
}
