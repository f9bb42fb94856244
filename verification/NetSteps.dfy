/** The steps of a group that take nothing from the list, and where its detached peers stand after them. */
module NetSteps {
  import opened Types
  import opened PackingList
  import opened Advertised
  import opened GroupState
  import opened GroupInvariant
  import opened Distribution
  import opened Rejoin
  import opened GroupSteps
  import opened SharingInvisible
  import opened FleetRun
  import opened Net
  import opened NetInvariant
  import opened NetGroups

  // ---------------------------------------------------------------- member records

  /** What the list needs to know about a member's record over a step. */
  ghost predicate RecordKept(g: Group, e: Event, h: Group, p: PeerId, top: nat)
    requires p in h.peers
  {
    && h.peers[p].lastSeen <= top
    && (p in h.detached && p in g.detached && p in g.peers && !(e.PeersCollapsed? && p in e.candidates) ==>
          h.peers[p].own == g.peers[p].own && h.peers[p].detachVersion == g.peers[p].detachVersion)
    && (p in h.detached && p in g.sync && p in g.peers ==> h.peers[p].own == g.peers[p].own && h.peers[p].detachVersion == g.lastSeen)
    && (p in h.detached && p !in g.peers ==> h.peers[p].own == map[] && h.peers[p].detachVersion == 0)
  }

  ghost predicate HeadKept(g: Group, e: Event, h: Group) {
    && h.families == g.families && h.initialized == g.initialized
    && h.lastSeen == if e.PeerPromoted? && e.p in g.peers then Max(g.lastSeen, g.peers[e.p].lastSeen) else g.lastSeen
  }

  ghost predicate SeenBy(g: Group, top: nat) {
    g.lastSeen <= top && forall p | p in g.peers :: g.peers[p].lastSeen <= top
  }

  lemma LandRecord(q: Peer, m: Message)
    ensures Land(q, m).own == q.own && Land(q, m).detachVersion == q.detachVersion && Land(q, m).lastSeen == q.lastSeen
  {
  }

  lemma PushedRecord(g: Group, q: Peer, m: Message, stuck: bool, slow: bool)
    ensures
      var r := Pushed(g, q, m, stuck, slow);
      && r.own == q.own && r.lastSeen <= Max(q.lastSeen, g.lastSeen)
      && r.detachVersion == if stuck && slow then g.lastSeen else q.detachVersion
  {
  }

  /** A member's record after a step that hands it a new one. */
  ghost predicate Rerecorded(g: Group, e: Event, h: Group, p: PeerId, r: Peer) {
    && p in g.peers && p in h.peers && h.peers[p] == r && !(e.PeersCollapsed? && p in e.candidates)
    && r.own == g.peers[p].own && r.lastSeen <= Max(g.peers[p].lastSeen, g.lastSeen)
    && (p in h.detached && p in g.detached ==> r.detachVersion == g.peers[p].detachVersion)
    && (p in h.detached && p in g.sync ==> r.detachVersion == g.lastSeen)
  }

  lemma RerecordedKept(g: Group, e: Event, h: Group, p: PeerId, r: Peer, top: nat)
    requires Rerecorded(g, e, h, p, r) && SeenBy(g, top)
    ensures RecordKept(g, e, h, p, top)
  {
  }

  lemma PushKept(g: Group, m: Message, targets: set<PeerId>, stuck: set<PeerId>, slow: set<PeerId>, e: Event, top: nat, p: PeerId, h: Group)
    requires SetsOk(g) && SeenBy(g, top) && PushArgs(g, targets, stuck, slow) && !e.PeersCollapsed? && p in g.peers
    requires h.peers == Push(g, m, targets, stuck, slow).peers && h.detached == g.detached + slow
    ensures p in h.peers && RecordKept(g, e, h, p, top)
  {
    PushedRecord(g, g.peers[p], m, p in stuck, p in slow);
    RerecordedKept(g, e, h, p, h.peers[p], top);
  }

  /** Every member's record, and the group's own fields, over a step. */
  ghost predicate Kept(g: Group, e: Event, h: Group, top: nat) {
    HeadKept(g, e, h) && forall p | p in h.peers :: RecordKept(g, e, h, p, top)
  }

  /** One member gets a new record, and perhaps changes sides. */
  lemma OneKept(g: Group, e: Event, h: Group, p: PeerId, r: Peer, top: nat)
    requires SeenBy(g, top) && SetsOk(g) && HeadKept(g, e, h) && !e.PeersCollapsed?
    requires p in g.peers && h.peers == g.peers[p := r] && r.own == g.peers[p].own && r.lastSeen <= top
    requires forall q | q != p :: (q in h.detached <==> q in g.detached)
    requires p in h.detached ==> r.detachVersion == if p in g.detached then g.peers[p].detachVersion else g.lastSeen
    ensures Kept(g, e, h, top)
  {
  }

  lemma SameKept(g: Group, e: Event, h: Group, top: nat)
    requires SeenBy(g, top) && SetsOk(g) && HeadKept(g, e, h) && !e.PeersCollapsed?
    requires forall p | p in h.peers :: p in g.peers && h.peers[p] == g.peers[p]
    requires forall p :: p in h.detached ==> p in g.detached
    ensures Kept(g, e, h, top)
  {
  }

  lemma SendKept(g: Group, e: Event, h: Group, top: nat)
    requires Inv(g) && Enabled(g, e) && SeenBy(g, top) && (e.UpdateSent? || e.EndOfRibSent?) && h == Step(g, e)
    ensures Kept(g, e, h, top)
  {
    var g0 := if e.UpdateSent? then g.(packing := TakeFrom(g.packing, e.b, e.keys)) else g;
    var m := if e.UpdateSent? then Update(e.b.attrs, e.keys) else EndOfRib(e.afi);
    var targets := if e.UpdateSent? then g.sync else Owing(g, e.afi);
    forall p | p in h.peers
      ensures RecordKept(g, e, h, p, top)
    {
      PushKept(g0, m, targets, e.stuck, e.slow, e, top, p, h);
    }
  }

  lemma LandKept(g: Group, p: PeerId, top: nat)
    requires SetsOk(g) && SeenBy(g, top) && p in g.peers && g.peers[p].inFlight != []
    ensures Kept(g, PushLanded(p), ResolvePush(g, p), top)
  {
    LandRecord(g.peers[p], g.peers[p].inFlight[0]);
    OneKept(g, PushLanded(p), ResolvePush(g, p), p, ResolvePush(g, p).peers[p], top);
  }

  lemma SentKept(g: Group, p: PeerId, b: Bucket, keys: set<Key>, top: nat)
    requires SetsOk(g) && SeenBy(g, top) && p in g.peers && b in g.peers[p].packing
    ensures Kept(g, PeerSent(p, b, keys), PeerSend(g, p, b, keys), top)
  {
    LandRecord(g.peers[p].(packing := TakeFrom(g.peers[p].packing, b, keys)), Update(b.attrs, keys));
    OneKept(g, PeerSent(p, b, keys), PeerSend(g, p, b, keys), p, PeerSend(g, p, b, keys).peers[p], top);
  }

  lemma SentEndOfRibKept(g: Group, p: PeerId, afi: Afi, top: nat)
    requires SetsOk(g) && SeenBy(g, top) && p in g.peers
    ensures Kept(g, PeerSentEndOfRib(p, afi), PeerSendEndOfRib(g, p, afi), top)
  {
    LandRecord(g.peers[p], EndOfRib(afi));
    OneKept(g, PeerSentEndOfRib(p, afi), PeerSendEndOfRib(g, p, afi), p, Land(g.peers[p], EndOfRib(afi)), top);
  }

  lemma OwedKept(g: Group, p: PeerId, families: set<Afi>, top: nat)
    requires SetsOk(g) && SeenBy(g, top) && p in g.peers
    ensures Kept(g, PeerOwed(p, families), PeerDumpOwed(g, p, families), top)
  {
    var h := PeerDumpOwed(g, p, families);
    OneKept(g, PeerOwed(p, families), h, p, h.peers[p], top);
  }

  lemma SawKept(g: Group, p: PeerId, v: nat, top: nat)
    requires SetsOk(g) && SeenBy(g, top) && p in g.peers && v <= top
    ensures Kept(g, PeerSaw(p, v), PeerSees(g, p, v), top)
  {
    OneKept(g, PeerSaw(p, v), PeerSees(g, p, v), p, PeerSees(g, p, v).peers[p], top);
  }

  lemma TurnedKept(g: Group, p: PeerId, s: PeerState, top: nat)
    requires SetsOk(g) && SeenBy(g, top) && p in g.peers
    ensures Kept(g, PeerTurned(p, s), PeerTurns(g, p, s), top)
  {
    OneKept(g, PeerTurned(p, s), PeerTurns(g, p, s), p, PeerTurns(g, p, s).peers[p], top);
  }

  lemma PeerStepKept(g: Group, e: Event, top: nat)
    requires SetsOk(g) && Enabled(g, e) && SeenBy(g, top) && (e.PeerSaw? ==> e.ribVersion <= top)
    requires e.PushLanded? || e.PeerSent? || e.PeerSentEndOfRib? || e.PeerOwed? || e.PeerSaw? || e.PeerTurned?
    ensures Kept(g, e, Step(g, e), top)
  {
    match e
    case PushLanded(p) => LandKept(g, p, top);
    case PeerSent(p, b, keys) => SentKept(g, p, b, keys, top);
    case PeerSentEndOfRib(p, afi) => SentEndOfRibKept(g, p, afi, top);
    case PeerOwed(p, families) => OwedKept(g, p, families, top);
    case PeerSaw(p, v) => SawKept(g, p, v, top);
    case PeerTurned(p, s) => TurnedKept(g, p, s, top);
  }

  lemma DetachKept(g: Group, p: PeerId, top: nat)
    requires SetsOk(g) && SeenBy(g, top) && p in g.peers && p in g.sync
    ensures Kept(g, PeerDetached(p), Detach(g, p), top)
  {
    OneKept(g, PeerDetached(p), Detach(g, p), p, Detached(g, g.peers[p]), top);
  }

  lemma RegisterKept(g: Group, p: PeerId, top: nat)
    requires SetsOk(g) && SeenBy(g, top) && p !in g.peers
    ensures Kept(g, PeerRegistered(p), Register(g, p), top)
  {
  }

  lemma FastRejoinKept(g: Group, p: PeerId, top: nat)
    requires SetsOk(g) && SeenBy(g, top) && p in g.peers
    ensures Kept(g, PeerRejoinedFast(p), FastRejoin(g, p), top)
  {
    var h := FastRejoin(g, p);
    OneKept(g, PeerRejoinedFast(p), h, p, h.peers[p], top);
  }

  lemma PromoteKept(g: Group, p: PeerId, top: nat)
    requires SetsOk(g) && SeenBy(g, top) && p in g.peers
    ensures Kept(g, PeerPromoted(p), Promote(g, p), top)
  {
  }

  lemma MemberStepKept(g: Group, e: Event, top: nat)
    requires SetsOk(g) && Enabled(g, e) && SeenBy(g, top)
    requires e.PeerDetached? || e.PeerRegistered? || e.PeerUnregistered? || e.PeerRejoinedFast? || e.PeerPromoted?
    ensures Kept(g, e, Step(g, e), top)
  {
    match e
    case PeerDetached(p) => DetachKept(g, p, top);
    case PeerRegistered(p) => RegisterKept(g, p, top);
    case PeerUnregistered(p) => SameKept(g, e, Unregister(g, p), top);
    case PeerRejoinedFast(p) => FastRejoinKept(g, p, top);
    case PeerPromoted(p) => PromoteKept(g, p, top);
  }

  lemma CollapsedRecord(g: Group, q: Peer)
    ensures Collapsed(g, q).lastSeen == q.lastSeen
  {
  }

  lemma CollapseKept(g: Group, ps: set<PeerId>, h: Group, top: nat)
    requires SetsOk(g) && SeenBy(g, top) && CollapsedTo(g, ps, h) && h.families == g.families
    ensures Kept(g, PeersCollapsed(ps), h, top)
  {
    forall p | p in h.peers
      ensures RecordKept(g, PeersCollapsed(ps), h, p, top)
    {
      CollapsedRecord(g, g.peers[p]);
    }
  }

  /** A step that takes nothing from the list leaves the records as the list needs them. */
  lemma StepKept(g: Group, e: Event, h: Group, top: nat)
    requires Inv(g) && Enabled(g, e) && SeenBy(g, top) && h == Step(g, e) && !FromList(e)
    requires e.PeerSaw? ==> e.ribVersion <= top
    ensures Kept(g, e, h, top)
  {
    if e.UpdateSent? || e.EndOfRibSent? {
      SendKept(g, e, h, top);
    } else if e.PushLanded? || e.PeerSent? || e.PeerSentEndOfRib? || e.PeerOwed? || e.PeerSaw? || e.PeerTurned? {
      PeerStepKept(g, e, top);
    } else if e.PeersCollapsed? {
      AcceptIsCollapse(g, e.candidates);
      CollapseKept(g, e.candidates, h, top);
    } else if e.BuildStarted? || e.BuildResumed? || e.BuildFinished? {
      SameKept(g, e, h, top);
    } else {
      MemberStepKept(g, e, top);
    }
  }

  // ---------------------------------------------------------------- tables

  predicate Rejoins(e: Event, p: PeerId) {
    e.PeersCollapsed? && p in e.candidates
  }

  ghost predicate TablesKept(g: Group, e: Event, h: Group) {
    && h.routes == (if e.PeerPromoted? && e.p in g.peers then TableOf(g, e.p) else g.routes)
    && forall p | p in h.peers && p in g.peers ::
         TableOf(h, p) == if Rejoins(e, p) then g.routes else TableOf(g, p)
  }

  /** Such a step moves no member's RIB-OUT, except that the group's becomes a promoted peer's and candidates get the group's. */
  lemma StepTablesKept(g: Group, e: Event, h: Group)
    requires Inv(g) && Enabled(g, e) && h == Step(g, e) && !FromList(e)
    ensures TablesKept(g, e, h)
  {
    StepFollows(g, e);
    RegistersNew(g, e);
    RefKept(g, e, h);
  }

  lemma RegistersNew(g: Group, e: Event)
    requires Enabled(g, e)
    ensures e.PeerRegistered? ==> e.p !in g.peers
  {
  }

  lemma RefKept(g: Group, e: Event, h: Group)
    requires !FromList(e) && (e.PeerRegistered? ==> e.p !in g.peers) && Abs(h) == RefStep(Abs(g), e, g.sync, g.families)
    ensures TablesKept(g, e, h)
  {
    AbsTables(g);
    AbsTables(h);
    RefTables(Abs(g), e, g.sync, g.families);
  }

  lemma RefTables(r: Reference, e: Event, sync: set<PeerId>, families: set<Afi>)
    requires !FromList(e)
    ensures
      var r' := RefStep(r, e, sync, families);
      && r'.shared == (if e.PeerPromoted? && e.p in r.tables then r.tables[e.p] else r.shared)
      && forall p | p in r'.tables && p in r.tables && e != PeerRegistered(p) ::
           r'.tables[p] == if Rejoins(e, p) then r.shared else r.tables[p]
  {
  }

  // ---------------------------------------------------------------- what a step keeps

  /** All there is to know about a step to place its members on the list. */
  ghost predicate StepFacts(n: Net, id: GroupId, e: Event, h: Group) {
    && id in n.groups && CanStep(n, id, e) && Kept(n.groups[id], e, h, n.top) && TablesKept(n.groups[id], e, h)
    && SetsOk(n.groups[id]) && SetsOk(h) && GroupOk(n, id)
    && (forall p | p in h.peers :: p in n.groups[id].peers || e == PeerRegistered(p))
    && (forall p | p in n.groups[id].sync && p in n.groups[id].peers :: n.groups[id].peers[p].own == map[])
    && (e.PeerPromoted? ==> forall p | p in n.groups[id].detached :: n.groups[id].peers[p].detachVersion == 0)
  }

  lemma StoodWithGroup(n: Net, id: GroupId, e: Event, h: Group, p: PeerId)
    requires StepFacts(n, id, e, h) && p in h.peers && StandsWithGroup(n.groups[id], e, h, p) && p in n.groups[id].peers
    requires p in n.groups[id].sync ==> TableOf(n.groups[id], p) == n.groups[id].routes
    requires !e.PeerPromoted? && (Rejoins(e, p) ==> id in n.at)
    ensures PeerOk(Stepped(n, id, e, h), id, p)
  {
    var m := Stepped(n, id, e, h);
    if id in n.at {
      assert m.seen[p] == n.at[id] && p !in m.under;
    }
  }

  /** A detached peer whose RIB-OUT and place on the list are as before. */
  lemma SamePlace(n: Net, m: Net, id: GroupId, p: PeerId)
    requires id in n.groups && id in m.groups && p in n.groups[id].peers && p in m.groups[id].peers
    requires p in n.groups[id].detached && PeerOk(n, id, p) && m.groups[id].peers[p].lastSeen <= m.top
    requires m.shadow == n.shadow && m.top == n.top && m.control == n.control
    requires (p in m.seen <==> p in n.seen) && (p in n.seen ==> m.seen[p] == n.seen[p]) && (p in m.under <==> p in n.under)
      && (p in n.under ==> m.under[p] == n.under[p])
    requires TableOf(m.groups[id], p) == TableOf(n.groups[id], p)
    requires m.groups[id].peers[p].own == n.groups[id].peers[p].own
    requires m.groups[id].peers[p].detachVersion == n.groups[id].peers[p].detachVersion
    requires n.groups[id].peers[p].detachVersion == 0 || m.at == n.at
    ensures PeerOk(m, id, p)
  {
  }

  lemma SeenStays(n: Net, id: GroupId, e: Event, h: Group, p: PeerId)
    requires id in n.groups && (e.PeerPromoted? ==> e.p in n.seen)
    requires p in h.detached && p in n.groups[id].detached && p !in n.groups[id].sync && !Rejoins(e, p)
    requires e != PeerRegistered(p)
    ensures
      var m := Stepped(n, id, e, h);
      && (p in m.seen <==> p in n.seen) && (p in n.seen ==> m.seen[p] == n.seen[p]) && (p in m.under <==> p in n.under)
      && (p in n.under ==> m.under[p] == n.under[p])
  {
  }

  lemma StayedDetached(n: Net, id: GroupId, e: Event, h: Group, p: PeerId)
    requires StepFacts(n, id, e, h) && p in h.peers && p in h.detached && p in n.groups[id].detached && !Rejoins(e, p)
    requires p in n.groups[id].peers && PeerOk(n, id, p)
    ensures PeerOk(Stepped(n, id, e, h), id, p)
  {
    SeenStays(n, id, e, h, p);
    assert RecordKept(n.groups[id], e, h, p, n.top);
    SamePlace(n, Stepped(n, id, e, h), id, p);
  }

  lemma NewlyDetached(n: Net, id: GroupId, e: Event, h: Group, p: PeerId)
    requires StepFacts(n, id, e, h) && p in h.peers && p !in n.groups[id].peers
    ensures PeerOk(Stepped(n, id, e, h), id, p)
  {
  }

  lemma SteppedGroup(n: Net, id: GroupId, e: Event, h: Group)
    requires StepFacts(n, id, e, h)
    requires e.PeerPromoted? ==> e.p in n.groups[id].detached && e.p in n.groups[id].peers && PeerOk(n, id, e.p)
    requires e.PeerPromoted? ==> n.groups[id].initialized && SeenBy(n.groups[id], n.top)
    ensures GroupOk(Stepped(n, id, e, h), id)
  {
  }

  lemma AllSeenBy(n: Net, id: GroupId)
    requires ConsumersOk(n) && id in n.groups
    ensures SeenBy(n.groups[id], n.top)
  {
    assert GroupOk(n, id);
    forall p | p in n.groups[id].peers
      ensures n.groups[id].peers[p].lastSeen <= n.top
    {
      assert PeerOk(n, id, p);
    }
  }

  lemma PromotionAlone(g: Group, e: Event)
    requires MembersOk(g) && Enabled(g, e) && e.PeerPromoted?
    ensures g.sync == {} && g.initialized && e.p in g.detached && e.p in g.peers
    ensures forall p | p in g.detached :: g.peers[p].detachVersion == 0
  {
    forall p | p in g.detached
      ensures g.peers[p].detachVersion == 0
    {
      NobodyShares(g, p);
    }
  }

  lemma StepFactsHold(n: Net, id: GroupId, e: Event, h: Group)
    requires NetInv(n) && CanStep(n, id, e) && h == Step(n.groups[id], e)
    ensures Inv(h) && StepFacts(n, id, e, h) && SeenBy(n.groups[id], n.top)
  {
    var g := n.groups[id];
    AllSeenBy(n, id);
    StepKeeps(g, e);
    StepKept(g, e, h, n.top);
    StepTablesKept(g, e, h);
    SyncOwnsNothing(g);
    forall p | p in h.peers
      ensures p in g.peers || e == PeerRegistered(p)
    {
      StepPeers(g, e, p);
    }
    assert GroupOk(n, id);
    if e.PeerPromoted? {
      PromotionAlone(g, e);
    }
  }

  lemma SteppedPeer(n: Net, id: GroupId, e: Event, h: Group, p: PeerId)
    requires StepFacts(n, id, e, h) && p in h.peers && (p in n.groups[id].peers ==> PeerOk(n, id, p))
    requires e.PeerPromoted? ==> n.groups[id].sync == {}
    ensures PeerOk(Stepped(n, id, e, h), id, p)
  {
    var g := n.groups[id];
    assert RecordKept(g, e, h, p, n.top);
    if p in g.peers && p in h.detached {
      if StandsWithGroup(g, e, h, p) {
        StoodWithGroup(n, id, e, h, p);
      } else {
        StayedDetached(n, id, e, h, p);
      }
    } else if p in h.detached {
      NewlyDetached(n, id, e, h, p);
    }
  }

  lemma SeenElsewhere(n: Net, id: GroupId, e: Event, h: Group, p: PeerId)
    requires id in n.groups && (e.PeerPromoted? ==> e.p in n.seen)
    requires p !in n.groups[id].peers && p !in n.groups[id].sync && p !in h.peers && p !in h.detached && e != PeerRegistered(p)
    ensures SameSeat(n, Stepped(n, id, e, h), p)
  {
  }

  lemma ElsewherePeer(n: Net, id: GroupId, e: Event, h: Group, j: GroupId, p: PeerId)
    requires id in n.groups && Apart(n.groups) && SetsOk(n.groups[id]) && SetsOk(h)
    requires e.PeerRegistered? ==> !Known(n.groups, e.p)
    requires forall p | p in h.peers :: p in n.groups[id].peers || e == PeerRegistered(p)
    requires j in n.groups && j != id && p in n.groups[j].peers
    ensures p !in n.groups[id].peers && p !in n.groups[id].sync && p !in h.peers && p !in h.detached && e != PeerRegistered(p)
  {
    assert Known(n.groups, p);
  }

  lemma SteppedOthers(n: Net, id: GroupId, e: Event, h: Group)
    requires id in n.groups && Apart(n.groups) && SetsOk(n.groups[id]) && SetsOk(h)
    requires (e.PeerPromoted? ==> e.p in n.seen) && (e.PeerRegistered? ==> !Known(n.groups, e.p))
    requires forall p | p in h.peers :: p in n.groups[id].peers || e == PeerRegistered(p)
    ensures OnlyGroup(n, Stepped(n, id, e, h), id)
  {
    forall j, p | j in n.groups && j != id && p in n.groups[j].peers
      ensures SameSeat(n, Stepped(n, id, e, h), p)
    {
      ElsewherePeer(n, id, e, h, j, p);
      SeenElsewhere(n, id, e, h, p);
    }
  }

  lemma SteppedItself(n: Net, id: GroupId, e: Event, h: Group)
    requires NetInv(n) && CanStep(n, id, e) && StepFacts(n, id, e, h) && SeenBy(n.groups[id], n.top)
    ensures GroupOk(Stepped(n, id, e, h), id)
  {
    if e.PeerPromoted? {
      PromotionAlone(n.groups[id], e);
      assert PeerOk(n, id, e.p);
    }
    SteppedGroup(n, id, e, h);
  }

  lemma SteppedMembers(n: Net, id: GroupId, e: Event, h: Group)
    requires ConsumersOk(n) && StepFacts(n, id, e, h) && (e.PeerPromoted? ==> n.groups[id].sync == {})
    ensures forall p | p in h.peers :: PeerOk(Stepped(n, id, e, h), id, p)
  {
    forall p | p in h.peers
      ensures PeerOk(Stepped(n, id, e, h), id, p)
    {
      assert p in n.groups[id].peers ==> PeerOk(n, id, p);
      SteppedPeer(n, id, e, h, p);
    }
  }

  lemma GroupStepKeeps(n: Net, id: GroupId, e: Event, h: Group)
    requires NetInv(n) && CanStep(n, id, e) && h == Step(n.groups[id], e)
    ensures NetInv(Stepped(n, id, e, h))
  {
    StepFactsHold(n, id, e, h);
    LocalKeeps(n.groups, id, e);
    SteppedOthers(n, id, e, h);
    SteppedItself(n, id, e, h);
    if e.PeerPromoted? { PromotionAlone(n.groups[id], e); }
    SteppedMembers(n, id, e, h);
    OnlyGroupOk(n, Stepped(n, id, e, h), id);
  }
}
