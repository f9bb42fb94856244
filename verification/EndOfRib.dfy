/**
  End-of-RIB (section 2 of RFC 4724): at most one per family and marking, and never before
  the routes that were packed when it became owed.
 */
module EndOfRib {
  import opened Types
  import opened PackingList
  import opened Advertised
  import opened GroupState
  import opened GroupInvariant
  import opened Distribution
  import opened DetachedPeer
  import opened GroupSteps
  import opened SharingInvisible

  /** A peer before and after a step that may have sent it one marker. */
  ghost predicate OneMarker(q: Peer, q': Peer) {
    || q'.eorSent == q.eorSent
    || (q.debt == {} && exists a | a in q.owes :: q'.eorSent == q.eorSent + multiset{a} && q'.owes == q.owes - {a})
  }

  lemma LandMarks(q: Peer, m: Message)
    requires m.EndOfRib? ==> m.afi in q.owes && q.debt == {}
    ensures OneMarker(q, Land(q, m))
  {
  }

  lemma ProcessMarks(g: Group, c: Change)
    ensures ProcessForGroup(g, c).peers.Keys == g.peers.Keys
    ensures forall p | p in g.peers :: ProcessForGroup(g, c).peers[p].eorSent == g.peers[p].eorSent
  {
  }

  lemma {:induction false} ProcessAllMarks(g: Group, cs: seq<Change>)
    ensures ProcessAll(g, cs).peers.Keys == g.peers.Keys
    ensures forall p | p in g.peers :: ProcessAll(g, cs).peers[p].eorSent == g.peers[p].eorSent
    decreases cs
  {
    if cs != [] {
      ProcessMarks(g, cs[0]);
      ProcessAllMarks(ProcessForGroup(g, cs[0]), cs[1..]);
    }
  }

  lemma PushMarks(g: Group, m: Message, targets: set<PeerId>, stuck: set<PeerId>, slow: set<PeerId>, p: PeerId)
    requires p in g.peers
    requires p in targets && m.EndOfRib? ==> m.afi in g.peers[p].owes && g.peers[p].debt == {}
    ensures OneMarker(g.peers[p], Push(g, m, targets, stuck, slow).peers[p])
  {
    if p in targets && p !in stuck { LandMarks(g.peers[p], m); }
  }

  lemma SendUpdateMarks(g: Group, b: Bucket, keys: set<Key>, stuck: set<PeerId>, slow: set<PeerId>, p: PeerId)
    requires p in g.peers && b in g.packing
    ensures OneMarker(g.peers[p], SendUpdate(g, b, keys, stuck, slow).peers[p])
  {
    PushMarks(g.(packing := TakeFrom(g.packing, b, keys)), Update(b.attrs, keys), g.sync, stuck, slow, p);
  }

  lemma LandedMarks(g: Group, r: PeerId, p: PeerId)
    requires SetsOk(g) && PeersOk(g) && p in g.peers && r in g.peers && g.peers[r].inFlight != []
    ensures OneMarker(g.peers[p], ResolvePush(g, r).peers[p])
  {
    if r == p {
      ServedMember(g, p);
      assert g.peers[p].inFlight[0] in g.peers[p].inFlight;
      LandMarks(g.peers[p], g.peers[p].inFlight[0]);
    }
  }

  lemma SendEndOfRibMarks(g: Group, afi: Afi, stuck: set<PeerId>, slow: set<PeerId>, p: PeerId)
    requires SetsOk(g) && PeersOk(g) && BuilderOk(g) && CanSendEndOfRib(g, afi, stuck, slow) && p in g.peers
    ensures OneMarker(g.peers[p], SendEndOfRib(g, afi, stuck, slow).peers[p])
  {
    EndOfRibNoDebt(g, afi, stuck, slow);
    PushMarks(g, EndOfRib(afi), Owing(g, afi), stuck, slow, p);
  }

  lemma PeerSendEndOfRibMarks(g: Group, r: PeerId, afi: Afi, p: PeerId)
    requires Inv(g) && CanPeerSendEndOfRib(g, r, afi) && p in g.peers
    ensures OneMarker(g.peers[p], PeerSendEndOfRib(g, r, afi).peers[p])
  {
    PeerSendEndOfRibKeeps(g, r, afi);
    LandMarks(g.peers[r], EndOfRib(afi));
  }

  lemma CollapseMarks(g: Group, candidates: set<PeerId>, p: PeerId)
    requires p in g.peers
    ensures p in Accept(g, candidates).peers
    ensures OneMarker(g.peers[p], Accept(g, candidates).peers[p])
  {
  }

  lemma ConsumeMarks(g: Group, e: Event, p: PeerId)
    requires Enabled(g, e) && (e.Dumped? || e.Consumed?) && p in g.peers
    ensures p in Step(g, e).peers && Step(g, e).peers[p].eorSent == g.peers[p].eorSent
  {
    ProcessAllMarks(g, e.cs);
  }

  lemma MemberMarks(g: Group, e: Event, p: PeerId)
    requires Enabled(g, e) && p in g.peers && p in Step(g, e).peers
    requires e.PeerDetached? || e.PeerRegistered? || e.PeerUnregistered? || e.PeerRejoinedFast? || e.PeerPromoted?
    ensures Step(g, e).peers[p].eorSent == g.peers[p].eorSent
  {
  }

  lemma DetachedMarks(g: Group, e: Event, p: PeerId)
    requires Enabled(g, e) && p in g.peers && p in Step(g, e).peers
    requires e.BuildStarted? || e.BuildResumed? || e.BuildFinished?
      || e.PeerChanged? || e.PeerSent? || e.PeerOwed? || e.PeerSaw? || e.PeerTurned?
    ensures Step(g, e).peers[p].eorSent == g.peers[p].eorSent
  {
  }

  predicate Sends(e: Event) {
    e.UpdateSent? || e.EndOfRibSent? || e.PushLanded? || e.PeerSentEndOfRib?
  }

  lemma SendMarks(g: Group, e: Event, p: PeerId)
    requires Inv(g) && Enabled(g, e) && p in g.peers && p in Step(g, e).peers && Sends(e)
    ensures OneMarker(g.peers[p], Step(g, e).peers[p])
  {
    match e
    case UpdateSent(b, keys, stuck, slow) => SendUpdateMarks(g, b, keys, stuck, slow, p);
    case EndOfRibSent(afi, stuck, slow) => SendEndOfRibMarks(g, afi, stuck, slow, p);
    case PushLanded(r) => LandedMarks(g, r, p);
    case PeerSentEndOfRib(r, afi) => PeerSendEndOfRibMarks(g, r, afi, p);
  }

  /** Every other step sends no marker. */
  lemma SilentMarks(g: Group, e: Event, p: PeerId)
    requires Enabled(g, e) && p in g.peers && p in Step(g, e).peers && !Sends(e)
    ensures OneMarker(g.peers[p], Step(g, e).peers[p])
  {
    if e.Dumped? || e.Consumed? {
      ConsumeMarks(g, e, p);
    } else if e.PeersCollapsed? {
      CollapseMarks(g, e.candidates, p);
    } else if e.PeerDetached? || e.PeerRegistered? || e.PeerUnregistered? || e.PeerRejoinedFast? || e.PeerPromoted? {
      MemberMarks(g, e, p);
    } else {
      DetachedMarks(g, e, p);
    }
  }

  /**
    In any step, a member is sent no End-of-RIB, or exactly one: for a family it owes, which
    it then no longer owes, with every route of its last marking already in its queue.
   */
  lemma StepMarks(g: Group, e: Event, p: PeerId)
    requires Inv(g) && Enabled(g, e) && p in g.peers && p in Step(g, e).peers
    ensures OneMarker(g.peers[p], Step(g, e).peers[p])
  {
    if Sends(e) { SendMarks(g, e, p); } else { SilentMarks(g, e, p); }
  }
}
