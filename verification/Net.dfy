/**
  The fleet of update groups on one change list.  Routes reach the groups and the detached peers
  only from the shadow RIB: by consuming what is due to them from where they stand on the list,
  or by walking it.
 */
module Net {
  import opened Types
  import opened GroupState
  import opened GroupInvariant
  import opened GroupSteps
  import opened FleetRun
  import opened ShadowRib
  import opened ListConsumers

  datatype Consumer = OfGroup(id: GroupId) | OfPeer(p: PeerId)

  datatype Net = Net(
    groups: World,
    shadow: Shadow,
    // The newest version given out.
    top: nat,
    control: map<GroupId, Control>,
    // Where the consumer of an initialized group stands, and that of a detached peer.
    at: map<GroupId, nat>,
    seen: map<PeerId, nat>,
    // The control a detached peer's entries were decided under, if it waits to be re-evaluated.
    under: map<PeerId, Control>,
    // Prefixes that carry a consumer's bit since it joined the list, flagged for it or not.
    joined: map<Consumer, set<Prefix>>)

  const START := Net(map[], map[], 0, map[], map[], map[], map[], map[])

  datatype NetEvent =
    | Published(prefix: Prefix, entry: ShadowEntry)
    | Forgotten(prefix: Prefix)
    | ListJoined(c: Consumer, prefixes: set<Prefix>)
    | GroupCreated(id: GroupId, ctl: Control)
    | GroupDestroyed(id: GroupId)
    | GroupDumped(id: GroupId, ctl: Control, cs: seq<Change>)
    | GroupConsumed(id: GroupId, cs: seq<Change>)
    | GroupReevaluated(id: GroupId, ctl: Control, cs: seq<Change>)
    | PeerDumped(id: GroupId, p: PeerId, cs: seq<Change>)
    | PeerConsumed(id: GroupId, p: PeerId, to: nat, cs: seq<Change>)
    | PeerReevaluated(id: GroupId, p: PeerId, to: nat, cs: seq<Change>)
    | PeerRefreshed(id: GroupId, p: PeerId, cs: seq<Change>)
    | GroupStepped(id: GroupId, e: Event)
    | GroupSplit(src: GroupId, dst: GroupId, ps: set<PeerId>)
    | PeersMoved(src: GroupId, dst: GroupId, ps: set<PeerId>)

  // ---------------------------------------------------------------- the shadow RIB

  /** A path is flagged at the new version, or as it was. */
  predicate Flagged(was: PathState, now: PathState, version: nat) {
    now.since == version || now == was
  }

  /** The next version of a prefix: what changed is flagged, and no path is dropped. */
  ghost predicate CanPublish(n: Net, prefix: Prefix, entry: ShadowEntry) {
    && entry.version > n.top
    && forall addPath, id ::
         Flagged(PathOf(n.shadow, addPath, Key(prefix, id)), PathOf(n.shadow[prefix := entry], addPath, Key(prefix, id)),
                 entry.version)
  }

  /** Every consumer of this kind stands at `v` or after it. */
  ghost predicate PassedByAll(n: Net, addPath: bool, v: nat) {
    forall id | id in n.groups && id in n.control && n.control[id].addPath == addPath ::
      && (id in n.at ==> v <= n.at[id])
      && (forall p | p in n.groups[id].peers && p in n.seen :: v <= n.seen[p])
  }

  /** Nobody's bit is left on the item, and every path is withdrawn. */
  ghost predicate CanForget(n: Net, prefix: Prefix) {
    && (forall addPath, id ::
          var path := PathOf(n.shadow, addPath, Key(prefix, id));
          path.attrs.None? && PassedByAll(n, addPath, path.since))
    && (forall c | c in n.joined :: prefix !in n.joined[c])
  }

  // ---------------------------------------------------------------- bits without a flagged path

  predicate Stands(n: Net, c: Consumer) {
    match c
    case OfGroup(id) => id in n.at
    case OfPeer(p) => p in n.seen
  }

  function Position(n: Net, c: Consumer): nat
    requires Stands(n, c)
  {
    match c
    case OfGroup(id) => n.at[id]
    case OfPeer(p) => n.seen[p]
  }

  function JoinedOf(n: Net, c: Consumer): set<Prefix> {
    if c in n.joined then n.joined[c] else {}
  }

  /**
    Joining the list where another consumer stands sets the new one's bit on every item from there
    to the end, whatever it was published for.  Any of the prefixes newer than the position may be
    among them.
   */
  predicate CanJoinList(n: Net, c: Consumer, prefixes: set<Prefix>) {
    Stands(n, c) && forall prefix | prefix in prefixes :: prefix in n.shadow && n.shadow[prefix].version > Position(n, c)
  }

  /** Consuming up to a position takes the bits off the items before it. */
  function JoinedAfter(n: Net, c: Consumer, to: nat): map<Consumer, set<Prefix>> {
    n.joined[c := set prefix | prefix in JoinedOf(n, c) && VersionOf(n.shadow, prefix) > to]
  }

  // ---------------------------------------------------------------- what may happen

  /** A walk with nobody on the list visits every live path. */
  ghost predicate Walks(ctl: Control, s: Shadow, cs: seq<Change>) {
    forall k | PathOf(s, ctl.addPath, k).attrs.Some? :: Touches(cs, k)
  }

  /** A detached peer that has a consumer and may process changes. */
  ghost predicate Consuming(n: Net, id: GroupId, p: PeerId) {
    && id in n.groups && id in n.control && p in n.groups[id].detached && p in n.groups[id].peers
    && !n.groups[id].peers[p].state.DetachedReadyToJoin? && p in n.seen
  }

  /** The control the entries of a detached peer were decided under. */
  function ControlOf(n: Net, id: GroupId, p: PeerId): Control
    requires id in n.control
  {
    if p in n.under then n.under[p] else n.control[id]
  }

  /** A peer at or behind its group's marker stops there; one ahead of it does not. */
  predicate Bounded(n: Net, id: GroupId, p: PeerId, to: nat)
    requires p in n.seen
  {
    id in n.at && n.seen[p] <= n.at[id] ==> to <= n.at[id]
  }

  ghost predicate CanPeerDump(n: Net, id: GroupId, p: PeerId, cs: seq<Change>) {
    && id in n.groups && id in n.control && p in n.groups[id].detached && p in n.groups[id].peers && p !in n.seen
    && !n.groups[id].peers[p].state.DetachedReadyToJoin?
    && FromShadow(n.control[id], n.shadow, cs) && Walks(n.control[id], n.shadow, cs)
  }

  ghost predicate CanPeerConsume(n: Net, id: GroupId, p: PeerId, to: nat, cs: seq<Change>) {
    && Consuming(n, id, p) && p !in n.under && n.seen[p] <= to <= n.top && Bounded(n, id, p, to)
    && FromShadow(n.control[id], n.shadow, cs) && Covers(n.control[id], n.shadow, cs, n.seen[p], to)
    && forall c | c in cs :: c.version <= to
  }

  /** A detached peer is re-evaluated, with its group already at the end of the list if they share. */
  ghost predicate PeerWalks(n: Net, id: GroupId, p: PeerId, to: nat, cs: seq<Change>) {
    && Consuming(n, id, p)
    && to <= n.top && AtEnd(n.control[id], n.shadow, to)
    && (n.groups[id].peers[p].detachVersion == 0 || (id in n.at && to <= n.at[id]))
    && FromShadow(n.control[id], n.shadow, cs)
  }

  /** What its walk skips and its drain does not find must not matter. */
  ghost predicate CanPeerReevaluate(n: Net, id: GroupId, p: PeerId, to: nat, cs: seq<Change>) {
    && PeerWalks(n, id, p, to, cs)
    && WalksAndDrains(n.control[id], n.shadow, cs, n.seen[p], JoinedOf(n, OfPeer(p)))
    && AgreeOnSkipped(n.control[id], ControlOf(n, id, p), n.shadow, n.seen[p], JoinedOf(n, OfPeer(p)))
  }

  /** A refresh walk looks at every live path, due or not.  A route the checks refuse by now must not be a shared one. */
  ghost predicate CanPeerRefresh(n: Net, id: GroupId, p: PeerId, cs: seq<Change>) {
    Consuming(n, id, p) && p !in n.under && FromShadow(n.control[id], n.shadow, cs) && Covered(n.groups[id], p, cs)
  }

  /** The first walk, before the group has a consumer. */
  ghost predicate CanGroupDump(n: Net, id: GroupId, ctl: Control, cs: seq<Change>) {
    && id in n.groups && id in n.control && !n.groups[id].initialized
    && ctl == n.control[id].(policy := ctl.policy)
    && FromShadow(ctl, n.shadow, cs) && Walks(ctl, n.shadow, cs)
  }

  /** A group always consumes to the end of the list. */
  ghost predicate CanGroupConsume(n: Net, id: GroupId, cs: seq<Change>) {
    && id in n.groups && id in n.control && n.groups[id].initialized && id in n.at
    && FromShadow(n.control[id], n.shadow, cs) && Covers(n.control[id], n.shadow, cs, n.at[id], n.top)
  }

  /** A group is re-evaluated under a new policy. */
  ghost predicate GroupWalks(n: Net, id: GroupId, ctl: Control, cs: seq<Change>) {
    && id in n.groups && id in n.control && n.groups[id].initialized && id in n.at
    && ctl == n.control[id].(policy := ctl.policy) && FromShadow(ctl, n.shadow, cs)
  }

  /** The walk skips the prefixes that carry the group's bit, and the list is drained after it. */
  ghost predicate CanGroupReevaluate(n: Net, id: GroupId, ctl: Control, cs: seq<Change>) {
    && GroupWalks(n, id, ctl, cs)
    && WalksAndDrains(ctl, n.shadow, cs, n.at[id], JoinedOf(n, OfGroup(id)))
    && AgreeOnSkipped(ctl, n.control[id], n.shadow, n.at[id], JoinedOf(n, OfGroup(id)))
  }

  predicate FromList(e: Event) {
    e.Dumped? || e.Consumed? || e.PeerChanged?
  }

  /** The other steps of a group, with what the list has to do with them. */
  ghost predicate CanStep(n: Net, id: GroupId, e: Event) {
    && id in n.groups && id in n.control && Enabled(n.groups[id], e) && !FromList(e)
    && (e.PeerRegistered? ==> !Known(n.groups, e.p))
    && (e.PeerSaw? ==> e.ribVersion <= n.top)
    && (e.PeersCollapsed? ==>
          && id in n.at && AtEnd(n.control[id], n.shadow, n.at[id])
          && forall p | p in e.candidates ::
               p in n.seen && p !in n.under && AtEnd(n.control[id], n.shadow, n.seen[p]))
    && (e.PeerPromoted? ==>
          && e.p in n.seen && e.p !in n.under
          && Ahead(n.control[id], n.shadow, n.seen[e.p], Max(n.groups[id].lastSeen, n.groups[id].peers[e.p].lastSeen)))
  }

  ghost predicate NetEnabled(n: Net, e: NetEvent) {
    match e
    case Published(prefix, entry) => CanPublish(n, prefix, entry)
    case Forgotten(prefix) => CanForget(n, prefix)
    case ListJoined(c, prefixes) => CanJoinList(n, c, prefixes)
    case GroupCreated(id, _) => id !in n.groups
    case GroupDestroyed(id) => id in n.groups && n.groups[id].peers == map[]
    case GroupDumped(id, ctl, cs) => CanGroupDump(n, id, ctl, cs)
    case GroupConsumed(id, cs) => CanGroupConsume(n, id, cs)
    case GroupReevaluated(id, ctl, cs) => CanGroupReevaluate(n, id, ctl, cs)
    case PeerDumped(id, p, cs) => CanPeerDump(n, id, p, cs)
    case PeerConsumed(id, p, to, cs) => CanPeerConsume(n, id, p, to, cs)
    case PeerReevaluated(id, p, to, cs) => CanPeerReevaluate(n, id, p, to, cs)
    case PeerRefreshed(id, p, cs) => CanPeerRefresh(n, id, p, cs)
    case GroupStepped(id, e) => CanStep(n, id, e)
    case GroupSplit(src, dst, ps) => src in n.groups && src in n.control && dst !in n.groups && ps <= n.groups[src].peers.Keys
    case PeersMoved(src, dst, ps) =>
      && src in n.groups && dst in n.groups && src != dst && ps <= n.groups[src].detached
      && src in n.control && dst in n.control
      && n.control[src].addPath == n.control[dst].addPath && n.control[src].families == n.control[dst].families
  }

  // ---------------------------------------------------------------- what it does

  /** The peer leaves the group's side in the step, or fails to get back to it. */
  predicate StandsWithGroup(g: Group, e: Event, h: Group, p: PeerId) {
    p in h.detached && (p in g.sync || (e.PeersCollapsed? && p in e.candidates))
  }

  predicate KeepsConsumer(g: Group, h: Group, p: PeerId) {
    (p !in g.peers && p !in h.peers) || (p in g.detached && p in h.detached)
  }

  /** Where the detached peers stand after a step: those that stand with their group stand where it does. */
  ghost function SeenAfter(n: Net, id: GroupId, e: Event, h: Group): map<PeerId, nat>
    requires id in n.groups
  {
    var g := n.groups[id];
    map p | p in n.seen.Keys + h.detached &&
            (if StandsWithGroup(g, e, h, p) then id in n.at else p in n.seen && KeepsConsumer(g, h, p)) ::
      if StandsWithGroup(g, e, h, p) then n.at[id] else n.seen[p]
  }

  ghost function Stepped(n: Net, id: GroupId, e: Event, h: Group): Net
    requires id in n.groups && (e.PeerPromoted? ==> e.p in n.seen)
  {
    n.(groups := n.groups[id := h],
       seen := SeenAfter(n, id, e, h),
       at := if e.PeerPromoted? then n.at[id := n.seen[e.p]] else n.at,
       under := n.under - (n.groups[id].sync + (if e.PeerRegistered? then {e.p} else {})),
       joined := JoinedKept(n, id, e, h))
  }

  /** A consumer that is registered anew has no bit yet. */
  ghost function JoinedKept(n: Net, id: GroupId, e: Event, h: Group): map<Consumer, set<Prefix>>
    requires id in n.groups
  {
    map c | c in n.joined
            && (match c
                case OfGroup(j) => !(e.PeerPromoted? && j == id)
                case OfPeer(p) => !StandsWithGroup(n.groups[id], e, h, p) && KeepsConsumer(n.groups[id], h, p))
      :: n.joined[c]
  }

  /** These peers keep what was decided under the control they had. */
  function Outdated(n: Net, id: GroupId, ps: set<PeerId>): map<PeerId, Control>
    requires id in n.control
  {
    (map p | p in ps :: n.control[id]) + n.under
  }

  /** The group stands at the end of the list, under the given control. */
  ghost function ToTheEnd(n: Net, id: GroupId, h: Group, ctl: Control, outdated: set<PeerId>): Net
    requires id in n.control
  {
    n.(groups := n.groups[id := h], control := n.control[id := ctl], at := n.at[id := n.top],
       under := Outdated(n, id, outdated), joined := n.joined - {OfGroup(id)})
  }

  /** A detached peer stands at a new position, re-evaluated or not. */
  ghost function PeerTo(n: Net, id: GroupId, h: Group, p: PeerId, to: nat, fresh': bool): Net {
    n.(groups := n.groups[id := h], seen := n.seen[p := to], under := if fresh' then n.under - {p} else n.under,
       joined := if fresh' then n.joined - {OfPeer(p)} else JoinedAfter(n, OfPeer(p), to))
  }

  ghost function NetStep(n: Net, e: NetEvent): Net
    requires NetEnabled(n, e)
  {
    match e
    case Published(prefix, entry) => n.(shadow := n.shadow[prefix := entry], top := entry.version)
    case Forgotten(prefix) => n.(shadow := n.shadow - {prefix})
    case ListJoined(c, prefixes) => n.(joined := n.joined[c := JoinedOf(n, c) + prefixes])
    case GroupCreated(id, ctl) =>
      n.(groups := n.groups[id := Fresh(ctl.families)], control := n.control[id := ctl], at := n.at - {id},
         joined := n.joined - {OfGroup(id)})
    case GroupDestroyed(id) =>
      n.(groups := n.groups - {id}, control := n.control - {id}, at := n.at - {id}, joined := n.joined - {OfGroup(id)})
    case GroupDumped(id, ctl, cs) => ToTheEnd(n, id, Dump(n.groups[id], cs, n.top), ctl, n.groups[id].detached)
    case GroupConsumed(id, cs) => ToTheEnd(n, id, Consume(n.groups[id], cs, n.top), n.control[id], {})
    case GroupReevaluated(id, ctl, cs) =>
      ToTheEnd(n, id, Consume(n.groups[id], cs, n.top), ctl, n.groups[id].detached)
    case PeerDumped(id, p, cs) => PeerTo(n, id, ProcessAllForPeer(n.groups[id], p, cs, false), p, n.top, true)
    case PeerConsumed(id, p, to, cs) => PeerTo(n, id, ProcessAllForPeer(n.groups[id], p, cs, false), p, to, false)
    case PeerReevaluated(id, p, to, cs) => PeerTo(n, id, ProcessAllForPeer(n.groups[id], p, cs, false), p, to, true)
    case PeerRefreshed(id, p, cs) =>
      PeerTo(n, id, ProcessAllForPeer(n.groups[id], p, cs, true), p, n.seen[p], false)
    case GroupStepped(id, e) => Stepped(n, id, e, Step(n.groups[id], e))
    case GroupSplit(src, dst, ps) =>
      n.(groups := SplitWorld(n.groups, src, dst, n.control[src].families, ps),
         control := n.control[dst := n.control[src]],
         at := if src in n.at then n.at[dst := n.at[src]] else n.at - {dst},
         joined := n.joined - {OfGroup(dst)})
    case PeersMoved(src, dst, ps) =>
      n.(groups := MoveWorld(n.groups, src, dst, ps),
         under := if n.control[src] == n.control[dst] then n.under else Outdated(n, src, ps))
  }

  /** The fleet may take the step, and it leads there. */
  ghost predicate Goes(n: Net, e: NetEvent, m: Net) {
    NetEnabled(n, e) && NetStep(n, e) == m
  }

  ghost predicate NetRuns(n: Net, es: seq<NetEvent>)
    decreases es
  {
    es == [] || (NetEnabled(n, es[0]) && NetRuns(NetStep(n, es[0]), es[1..]))
  }

  ghost function NetRun(n: Net, es: seq<NetEvent>): Net
    requires NetRuns(n, es)
    decreases es
  {
    if es == [] then n else NetRun(NetStep(n, es[0]), es[1..])
  }
}
