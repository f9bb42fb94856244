/**
  An update group and its steps.  Many peers share one RIB-OUT (`routes`) and one packing
  list.  A detached peer runs alone: it reads its own entries first and otherwise the
  group entries that are not newer than the RIB version it detached at.

  Each function below is the effect of one source method between two suspension points.
 */
module GroupState {
  import opened Types
  import opened PackingList
  import opened Advertised

  datatype PeerState =
    | Init
    | JoinedRunning
    | JoinedBlocked
    | DetachedInitDump
    | DetachedReadyToJoin
    | DetachedBlocked
    | DetachedRunning

  /**
    One peer.  `own` are the entries stored under the peer's owner key, `fast` is set when the
    peer drained its packing list before the group moved on, `inFlight` are the
    deferred pushes that have not reached its queue, `sent` what has.  `owes` are the
    families whose End-of-RIB is outstanding and `debt` the routes that were pending when
    the last End-of-RIB became owed and have not been sent since.
   */
  datatype Peer = Peer(
    state: PeerState,
    own: Table,
    detachVersion: nat,
    lastSeen: nat,
    onRegistration: bool,
    fast: bool,
    packing: Packing,
    inFlight: seq<Message>,
    sent: Received,
    owes: set<Afi>,
    debt: set<Key>,
    eorMarked: multiset<Afi>,
    eorSent: multiset<Afi>,
    postOut: nat)

  const FRESH_PEER := Peer(Init, map[], 0, 0, false, false, map[], [], map[], {}, {}, multiset{}, multiset{}, 0)

  /** Where the coroutine that drains the group's packing list stands. */
  datatype Phase = Drain | EorV6 | Finish
  datatype Builder = Idle | At(phase: Phase) | Await(phase: Phase)

  datatype Group = Group(
    families: set<Afi>,
    initialized: bool,
    routes: Table,
    lastSeen: nat,
    packing: Packing,
    peers: map<PeerId, Peer>,
    sync: set<PeerId>,
    blocked: set<PeerId>,
    detached: set<PeerId>,
    eorPeers: set<PeerId>,
    numInSync: nat,
    numDetachedAfterJoin: nat,
    builder: Builder,
    checkForBlocked: bool,
    postOut: nat)

  // ---------------------------------------------------------------- visibility

  predicate IsEntryShared(peerHasOwnEntry: bool, detachVersion: nat, entryVersion: nat) {
    !peerHasOwnEntry && detachVersion >= entryVersion
  }

  /** The RIB-OUT of a detached peer. */
  function View(own: Table, routes: Table, detachVersion: nat): Table {
    own + (map k | k in routes && IsEntryShared(k in own, detachVersion, routes[k].version) :: routes[k])
  }

  /** The RIB-OUT of any member. */
  function TableOf(g: Group, p: PeerId): Table
    requires p in g.peers
  {
    if p in g.detached then View(g.peers[p].own, g.routes, g.peers[p].detachVersion) else g.routes
  }

  /** The packing list a member is served from. */
  function PackingOf(g: Group, p: PeerId): Packing
    requires p in g.peers
  {
    if p in g.detached then g.peers[p].packing else g.packing
  }

  // ---------------------------------------------------------------- route changes

  /**
    A route change from the shadow RIB.  `result` is the outcome of the egress policy and
    `mayAnnounce` that of the session-type and community checks.
   */
  datatype Change =
    | Announce(key: Key, version: nat, pre: BgpPath, result: Option<BgpPath>, nexthopByPolicy: bool, mayAnnounce: bool)
    | Withdraw(key: Key, version: nat)

  /** A RIB-OUT table with the packing list that is sent from it. */
  datatype RibOut = RibOut(table: Table, packing: Packing)

  /** What one change does to a RIB-OUT that nobody shares. */
  function Process(r: RibOut, c: Change, refresh: bool): RibOut {
    if c.Withdraw? || !c.mayAnnounce then Remove(r, c.key) else Insert(r, c, refresh)
  }

  function Remove(r: RibOut, k: Key): RibOut {
    if k !in r.table then r
    else RibOut(r.table - {k},
                if r.table[k].post.Some? then Repack(r.packing, k, r.table[k].post, None, false) else r.packing)
  }

  function Insert(r: RibOut, c: Change, refresh: bool): RibOut
    requires c.Announce?
  {
    var was := Post(r.table, c.key);
    var flagWas := c.key in r.table && r.table[c.key].nexthopByPolicy;
    var table := r.table[c.key := Entry(c.pre, c.result, c.version, c.nexthopByPolicy)];
    if c.result.None? then
      RibOut(table, if was.Some? then Repack(r.packing, c.key, was, None, false) else r.packing)
    else if was == c.result && flagWas == c.nexthopByPolicy && !refresh then
      RibOut(table, r.packing)
    else
      RibOut(table, Repack(r.packing, c.key, was, c.result, c.nexthopByPolicy))
  }

  /** The advertised-prefix counter of a container when one route's attributes change. */
  function Recount(n: nat, was: Option<BgpPath>, now: Option<BgpPath>): nat {
    if was.None? && now.Some? then n + 1
    else if was.Some? && now.None? && n > 0 then n - 1
    else n
  }

  // ---------------------------------------------------------------- group-side processing

  /** An own table with a copy of the group entry it is still sharing at `k`. */
  function Cloned(own: Table, routes: Table, detachVersion: nat, k: Key): Table {
    if k in routes && IsEntryShared(k in own, detachVersion, routes[k].version) then own[k := routes[k]] else own
  }

  function CloneFor(q: Peer, routes: Table, k: Key): Peer {
    q.(own := Cloned(q.own, routes, q.detachVersion, k))
  }

  function LazyClone(peers: map<PeerId, Peer>, detached: set<PeerId>, routes: Table, k: Key): map<PeerId, Peer> {
    map p | p in peers :: if p in detached then CloneFor(peers[p], routes, k) else peers[p]
  }

  function ProcessForGroup(g: Group, c: Change): Group {
    if AfiOf(c.key.prefix) !in g.families then g
    else
      var r := Process(RibOut(g.routes, g.packing), c, false);
      g.(routes := r.table,
         packing := if g.numInSync == 0 then g.packing else r.packing,
         peers := LazyClone(g.peers, g.detached, g.routes, c.key),
         postOut := Recount(g.postOut, Post(g.routes, c.key), Post(r.table, c.key)))
  }

  function ProcessAll(g: Group, cs: seq<Change>): Group
    decreases cs
  {
    if cs == [] then g else ProcessAll(ProcessForGroup(g, cs[0]), cs[1..])
  }

  /** Consume the change list to its end, or walk the shadow RIB. */
  function Consume(g: Group, cs: seq<Change>, ribVersion: nat): Group {
    var h := ProcessAll(g, cs);
    h.(lastSeen := Max(h.lastSeen, ribVersion))
  }

  function MarkOwed(q: Peer, families: set<Afi>, pending: set<Key>): Peer {
    q.(owes := families,
       debt := q.debt + pending,
       eorMarked := q.eorMarked + multiset(families),
       state := if q.state.Init? then JoinedRunning else q.state)
  }

  function PendingKeys(pl: Packing): set<Key> {
    set b, k | b in pl && k in pl[b] :: k
  }

  /** Book the End-of-RIB every in-sync peer is owed. */
  function MarkAll(g: Group): Group {
    g.(initialized := true,
       peers := map p | p in g.peers ::
         if p in g.sync then
           MarkOwed(g.peers[p], g.families, PendingKeys(g.packing)).(lastSeen := Max(g.peers[p].lastSeen, g.lastSeen))
         else g.peers[p],
       eorPeers := g.eorPeers + (if g.families == {} then {} else g.sync))
  }

  /** The first walk of the shadow RIB. */
  function Dump(g: Group, cs: seq<Change>, ribVersion: nat): Group {
    MarkAll(Consume(g, cs, ribVersion))
  }

  // ---------------------------------------------------------------- distribution

  /** A message reaches the peer's queue. */
  function Land(q: Peer, m: Message): Peer {
    match m
    case Update(_, keys) => q.(sent := Receive(q.sent, m), debt := q.debt - keys)
    case EndOfRib(afi) => q.(owes := q.owes - {afi}, eorSent := q.eorSent + multiset{afi})
  }

  /** The peer leaves the sync set with a copy of the group's packing list. */
  function Detached(g: Group, q: Peer): Peer {
    q.(state := if q.state.JoinedBlocked? then DetachedBlocked else DetachedRunning,
       packing := g.packing,
       lastSeen := Max(q.lastSeen, g.lastSeen),
       detachVersion := g.lastSeen,
       postOut := g.postOut)
  }

  /** Push to one peer: straight into its queue, or deferred; a slow peer is detached on the way. */
  function Pushed(g: Group, q: Peer, m: Message, stuck: bool, slow: bool): Peer {
    if !stuck then Land(q, m)
    else
      var b := q.(state := JoinedBlocked, inFlight := q.inFlight + [m]);
      if slow then Detached(g, b) else b
  }

  function Push(g: Group, m: Message, targets: set<PeerId>, stuck: set<PeerId>, slow: set<PeerId>): Group {
    var peers := map p | p in g.peers ::
      if p in targets then Pushed(g, g.peers[p], m, p in stuck, p in slow) else g.peers[p];
    var sync := g.sync - slow;
    g.(peers := peers,
       sync := sync,
       blocked := (g.blocked + stuck) - slow,
       detached := g.detached + slow,
       eorPeers := (set p | p in g.eorPeers && p in sync && p in peers && peers[p].owes != {}),
       numInSync := if |slow| <= g.numInSync then g.numInSync - |slow| else 0,
       numDetachedAfterJoin := if g.lastSeen != 0 then g.numDetachedAfterJoin + |slow| else g.numDetachedAfterJoin)
  }

  function StartBuild(g: Group): Group {
    g.(builder := if g.checkForBlocked && g.blocked != {} then Await(Drain) else At(Drain),
       checkForBlocked := false)
  }

  /** Build one UPDATE from part of a bucket and distribute it to every in-sync peer. */
  function SendUpdate(g: Group, b: Bucket, keys: set<Key>, stuck: set<PeerId>, slow: set<PeerId>): Group
    requires b in g.packing
  {
    var h := g.(packing := TakeFrom(g.packing, b, keys));
    Push(h, Update(b.attrs, keys), g.sync, stuck, slow)
      .(builder := if stuck == {} then At(Drain) else Await(Drain))
  }

  function Owing(g: Group, afi: Afi): set<PeerId> {
    set p | p in g.eorPeers && p in g.peers && afi in g.peers[p].owes
  }

  function SendEndOfRib(g: Group, afi: Afi, stuck: set<PeerId>, slow: set<PeerId>): Group {
    Push(g, EndOfRib(afi), Owing(g, afi), stuck, slow)
      .(builder := Await(if afi.IPv4? then EorV6 else Finish))
  }

  function ResumeBuild(g: Group): Group
    requires g.builder.Await?
  {
    g.(builder := At(g.builder.phase))
  }

  function FinishBuild(g: Group): Group {
    g.(builder := Idle)
  }

  function Unblocked(s: PeerState): PeerState {
    match s
    case DetachedBlocked => DetachedRunning
    case JoinedBlocked => JoinedRunning
    case _ => s
  }

  /** The first deferred push has reached the queue. */
  function Resolved(q: Peer): Peer
    requires q.inFlight != []
  {
    Land(q, q.inFlight[0]).(inFlight := q.inFlight[1..], state := Unblocked(q.state))
  }

  /** A deferred push completes. */
  function ResolvePush(g: Group, p: PeerId): Group
    requires p in g.peers && g.peers[p].inFlight != []
  {
    var q' := Resolved(g.peers[p]);
    g.(peers := g.peers[p := q'],
       blocked := g.blocked - {p},
       eorPeers := if q'.owes == {} then g.eorPeers - {p} else g.eorPeers)
  }

  // ---------------------------------------------------------------- membership

  /** Without in-sync peers the group's packing list is discarded, whether or not members remain. */
  function RecoverIfNoSync(g: Group): Group {
    if g.sync == {} then g.(packing := map[]) else g
  }

  function LeftSync(g: Group, p: PeerId): Group
    requires p in g.peers && p in g.sync
  {
    g.(peers := g.peers[p := Detached(g, g.peers[p])],
       sync := g.sync - {p},
       blocked := g.blocked - {p},
       detached := g.detached + {p},
       eorPeers := g.eorPeers - {p},
       numInSync := if g.numInSync > 0 then g.numInSync - 1 else 0,
       numDetachedAfterJoin := if g.lastSeen != 0 then g.numDetachedAfterJoin + 1 else g.numDetachedAfterJoin)
  }

  function Detach(g: Group, p: PeerId): Group
    requires p in g.peers && p in g.sync
  {
    RecoverIfNoSync(LeftSync(g, p))
  }

  function Register(g: Group, p: PeerId): Group
    requires p !in g.peers
  {
    if !g.initialized then
      g.(peers := g.peers[p := FRESH_PEER], sync := g.sync + {p}, numInSync := g.numInSync + 1)
    else
      g.(peers := g.peers[p := FRESH_PEER.(state := DetachedInitDump, onRegistration := true)],
         detached := g.detached + {p})
  }

  function Without(g: Group, p: PeerId): Group
    requires p in g.peers
  {
    g.(peers := g.peers - {p},
       sync := g.sync - {p},
       blocked := g.blocked - {p},
       detached := g.detached - {p},
       eorPeers := g.eorPeers - {p},
       numInSync := if p in g.sync && g.numInSync > 0 then g.numInSync - 1 else g.numInSync,
       numDetachedAfterJoin :=
         if g.peers[p].detachVersion > 0 && g.numDetachedAfterJoin > 0
         then g.numDetachedAfterJoin - 1 else g.numDetachedAfterJoin)
  }

  function Unregister(g: Group, p: PeerId): Group
    requires p in g.peers
  {
    RecoverIfNoSync(Without(g, p))
  }

  // ---------------------------------------------------------------- detached peers

  /** The table a detached peer writes to: its own, after copying the entry it shares at `k`. */
  function Writable(q: Peer, routes: Table, k: Key): Table {
    CloneFor(q, routes, k).own
  }

  function AfterChange(q: Peer, routes: Table, c: Change, refresh: bool): Peer {
    var w := Writable(q, routes, c.key);
    var r := Process(RibOut(w, q.packing), c, refresh);
    q.(own := r.table, packing := r.packing, lastSeen := Max(q.lastSeen, c.version),
       postOut := Recount(q.postOut, Post(w, c.key), Post(r.table, c.key)))
  }

  function ProcessForPeer(g: Group, p: PeerId, c: Change, refresh: bool): Group
    requires p in g.peers
  {
    if AfiOf(c.key.prefix) !in g.families then g
    else g.(peers := g.peers[p := AfterChange(g.peers[p], g.routes, c, refresh)])
  }

  /** A detached peer sends some of a bucket from its own packing list. */
  function PeerSend(g: Group, p: PeerId, b: Bucket, keys: set<Key>): Group
    requires p in g.peers && b in g.peers[p].packing
  {
    var q := g.peers[p];
    g.(peers := g.peers[p := Land(q.(packing := TakeFrom(q.packing, b, keys)), Update(b.attrs, keys))])
  }

  function PeerSendEndOfRib(g: Group, p: PeerId, afi: Afi): Group
    requires p in g.peers
  {
    g.(peers := g.peers[p := Land(g.peers[p], EndOfRib(afi))])
  }

  /** A peer that was asked for its table again owes the End-of-RIB of that family. */
  function PeerDumpOwed(g: Group, p: PeerId, families: set<Afi>): Group
    requires p in g.peers
  {
    var q := g.peers[p];
    g.(peers := g.peers[p := q.(owes := families,
                                debt := q.debt + PendingKeys(q.packing),
                                eorMarked := q.eorMarked + multiset(families))])
  }

  function PeerSees(g: Group, p: PeerId, v: nat): Group
    requires p in g.peers
  {
    g.(peers := g.peers[p := g.peers[p].(lastSeen := Max(g.peers[p].lastSeen, v))])
  }

  /** The peer drained its copy of the group's packing list before the group drained its own or went on. */
  predicate DrainedFirst(g: Group, q: Peer) {
    && q.packing == map[] && q.detachVersion == q.lastSeen == g.lastSeen
    && g.packing != map[] && !q.onRegistration
  }

  /** A peer that starts to wait and drained first is flagged, and stays so until it is back. */
  function PeerTurns(g: Group, p: PeerId, s: PeerState): Group
    requires p in g.peers
  {
    var q := g.peers[p];
    g.(peers := g.peers[p := q.(state := s, fast := q.fast || (s.DetachedReadyToJoin? && DrainedFirst(g, q)))])
  }

  /** The record of a peer that is in sync again. */
  function Rejoined(q: Peer): Peer {
    q.(detachVersion := 0, onRegistration := false, state := JoinedRunning, postOut := 0)
  }

  // ---------------------------------------------------------------- rejoin

  /** Whether a table has any path at a prefix. */
  predicate HasPrefix(t: Table, prefix: Prefix) {
    exists k | k in t :: k.prefix == prefix
  }

  /**
    The correction the collapse queues for one route: `None` when it queues nothing,
    otherwise the attributes to send (a withdrawal when these are `None`).
   */
  function Correction(q: Peer, routes: Table, k: Key): Option<Option<BgpPath>> {
    if k in q.own then
      if k !in routes then Some(None)
      else if q.own[k].post != routes[k].post then Some(routes[k].post)
      else None
    else if k !in routes then None
    else if HasPrefix(q.own, k.prefix) then Some(routes[k].post)
    else if q.onRegistration || routes[k].version > q.detachVersion then Some(routes[k].post)
    else None
  }

  function Corrections(q: Peer, routes: Table): map<Key, Option<BgpPath>> {
    map k | k in q.own.Keys + routes.Keys && Correction(q, routes, k).Some? :: Correction(q, routes, k).value
  }

  function BucketOf(k: Key, attrs: Option<BgpPath>): Bucket {
    Bucket(attrs, AfiOf(k.prefix), false)
  }

  function BucketsOf(c: map<Key, Option<BgpPath>>): set<Bucket> {
    set k | k in c :: BucketOf(k, c[k])
  }

  function KeysIn(c: map<Key, Option<BgpPath>>, b: Bucket): set<Key> {
    set k | k in c && BucketOf(k, c[k]) == b
  }

  /** The packing list that holds exactly the given corrections. */
  function PackCorrections(c: map<Key, Option<BgpPath>>): Packing {
    map b | b in BucketsOf(c) :: KeysIn(c, b)
  }

  /** Collapse one candidate: accepted when nothing had to be corrected, otherwise kept detached. */
  function Collapsed(g: Group, q: Peer): Peer {
    var c := Corrections(q, g.routes);
    if c == map[] then
      Rejoined(q).(own := map[])
    else
      q.(own := map[], packing := PackCorrections(c), detachVersion := g.lastSeen,
         onRegistration := false, state := DetachedRunning)
  }

  function Accepted(g: Group, candidates: set<PeerId>): set<PeerId> {
    set p | p in candidates && p in g.peers && Corrections(g.peers[p], g.routes) == map[]
  }

  function Versioned(g: Group, ps: set<PeerId>): set<PeerId> {
    set p | p in ps && p in g.peers && g.peers[p].detachVersion > 0
  }

  function Accept(g: Group, candidates: set<PeerId>): Group {
    var ok := Accepted(g, candidates);
    var left := |Versioned(g, ok)|;
    var joined := |(candidates - ok) - Versioned(g, candidates)|;
    var counted := g.numDetachedAfterJoin + joined;
    g.(peers := map p | p in g.peers :: if p in candidates then Collapsed(g, g.peers[p]) else g.peers[p],
       sync := g.sync + ok,
       detached := g.detached - ok,
       eorPeers := g.eorPeers + (set p | p in ok && p in g.peers && g.peers[p].owes != {}),
       numInSync := g.numInSync + |ok|,
       numDetachedAfterJoin := if left <= counted then counted - left else 0)
  }

  /** A peer that drained its copy of the packing list before the group changed rejoins as it is. */
  function FastRejoin(g: Group, p: PeerId): Group
    requires p in g.peers
  {
    var q := g.peers[p];
    g.(peers := g.peers[p := Rejoined(q).(fast := false)],
       sync := g.sync + {p},
       detached := g.detached - {p},
       eorPeers := if q.owes == {} then g.eorPeers else g.eorPeers + {p},
       numInSync := g.numInSync + 1,
       numDetachedAfterJoin :=
         if q.detachVersion > 0 && g.numDetachedAfterJoin > 0
         then g.numDetachedAfterJoin - 1 else g.numDetachedAfterJoin)
  }

  /** With nobody sharing the group's entries, a detached peer's RIB-OUT becomes the group's. */
  function Promote(g: Group, p: PeerId): Group
    requires p in g.peers
  {
    var q := g.peers[p];
    g.(routes := q.own,
       lastSeen := Max(g.lastSeen, q.lastSeen),
       postOut := q.postOut,
       peers := g.peers[p := Rejoined(q).(own := map[])],
       sync := g.sync + {p},
       detached := g.detached - {p},
       eorPeers := if q.owes == {} then g.eorPeers else g.eorPeers + {p},
       numInSync := g.numInSync + 1,
       numDetachedAfterJoin :=
         if q.detachVersion > 0 && g.numDetachedAfterJoin > 0
         then g.numDetachedAfterJoin - 1 else g.numDetachedAfterJoin)
  }

  // ---------------------------------------------------------------- two groups

  /** A copy of this group that has only the given members. */
  function Copied(g: Group, families: set<Afi>, ps: set<PeerId>): Group {
    Group(families, g.initialized, g.routes, g.lastSeen, g.packing,
          map p | p in g.peers && p in ps :: g.peers[p],
          g.sync * ps, g.blocked * ps, g.detached * ps,
          (set p | p in g.sync * ps && p in g.peers && g.peers[p].owes != {}),
          |g.sync * ps|, |Versioned(g, g.detached * ps)|, Idle, g.blocked * ps != {}, g.postOut)
  }

  /** The new group of a split. */
  function SplitOff(g: Group, families: set<Afi>, ps: set<PeerId>): Group {
    RecoverIfNoSync(Copied(g, families, ps))
  }

  function Removed(g: Group, ps: set<PeerId>): Group {
    var versioned := |Versioned(g, ps)|;
    var leaving := |g.sync * ps|;
    g.(peers := g.peers - ps,
       sync := g.sync - ps,
       blocked := g.blocked - ps,
       detached := g.detached - ps,
       eorPeers := g.eorPeers - ps,
       numInSync := if leaving <= g.numInSync then g.numInSync - leaving else 0,
       numDetachedAfterJoin := if versioned <= g.numDetachedAfterJoin then g.numDetachedAfterJoin - versioned else 0)
  }

  /** What is left of a group after members were moved out of it. */
  function Remainder(g: Group, ps: set<PeerId>): Group {
    RecoverIfNoSync(Removed(g, ps))
  }

  /** A moved peer carries everything it was showing under its own owner key. */
  function Materialized(g: Group, q: Peer): Peer {
    q.(own := View(q.own, g.routes, q.detachVersion),
       detachVersion := 0,
       state := if q.state.DetachedBlocked? || q.state.JoinedBlocked? then DetachedBlocked else DetachedInitDump,
       onRegistration := true,
       fast := false)
  }

  function MaterializedAll(g: Group, ps: set<PeerId>): map<PeerId, Peer> {
    map p | p in g.peers && p in ps :: Materialized(g, g.peers[p])
  }

  /** The target of a move: the peers arrive detached. */
  function MoveInto(target: Group, g: Group, ps: set<PeerId>): Group {
    target.(peers := target.peers + MaterializedAll(g, ps),
            detached := target.detached + ps)
  }
}
