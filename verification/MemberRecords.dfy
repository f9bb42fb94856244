/**
  The member records of an update group beside the tables its tree stores for them, and what
  the group's operations do to the records.
 */
module MemberRecords {
  import opened Types
  import opened Sums
  import opened PackingList
  import opened Advertised
  import opened GroupState
  import opened GroupInvariant
  import opened DistributionLoop
  import opened Rejoin
  import opened OwnerTree
  import opened CollapseWalk
  import opened RibOutTree

  // ---------------------------------------------------------------- peers and their stored tables

  /** The members with the tables the tree stores for them. */
  function Joined(adjRibs: map<PeerId, Peer>, tables: Tables): map<PeerId, Peer> {
    map p | p in adjRibs :: OwnIn(adjRibs[p], tables, p)
  }

  lemma OwnLanded(q: Peer, own: Table, m: Message)
    ensures Land(q.(own := own), m) == Land(q, m).(own := own)
  {
  }

  lemma OwnResolved(q: Peer, tables: Tables, p: PeerId)
    requires q.inFlight != []
    ensures OwnIn(Resolved(q), tables, p) == Resolved(OwnIn(q, tables, p))
  {
    OwnLanded(q, TableFor(tables, PeerOwner(p)), q.inFlight[0]);
  }

  lemma JoinedSame(adjRibs: map<PeerId, Peer>, tables: Tables, tables': Tables)
    requires forall p | p in adjRibs :: TableFor(tables', PeerOwner(p)) == TableFor(tables, PeerOwner(p))
    ensures Joined(adjRibs, tables') == Joined(adjRibs, tables)
  {
  }

  function DetachVersions(adjRibs: map<PeerId, Peer>, detached: set<PeerId>): map<PeerId, nat> {
    map p | p in detached && p in adjRibs :: adjRibs[p].detachVersion
  }

  lemma JoinedClone(adjRibs: map<PeerId, Peer>, detached: set<PeerId>, tables: Tables, tables': Tables, k: Key, p: PeerId)
    requires p in adjRibs
    requires TableFor(tables', PeerOwner(p)) == ClonedFor(tables, DetachVersions(adjRibs, detached), k, PeerOwner(p))
    ensures OwnIn(adjRibs[p], tables', p)
      == if p in detached then CloneFor(OwnIn(adjRibs[p], tables, p), TableFor(tables, GroupOwner), k)
         else OwnIn(adjRibs[p], tables, p)
  {
  }

  lemma JoinedClones(adjRibs: map<PeerId, Peer>, detached: set<PeerId>, tables: Tables, tables': Tables, k: Key)
    requires forall o :: TableFor(tables', o) == ClonedFor(tables, DetachVersions(adjRibs, detached), k, o)
    ensures Joined(adjRibs, tables') == LazyClone(Joined(adjRibs, tables), detached, TableFor(tables, GroupOwner), k)
  {
    forall p | p in adjRibs
      ensures Joined(adjRibs, tables')[p]
        == LazyClone(Joined(adjRibs, tables), detached, TableFor(tables, GroupOwner), k)[p]
    {
      JoinedClone(adjRibs, detached, tables, tables', k, p);
    }
  }

  lemma NothingToClone(peers: map<PeerId, Peer>, detached: set<PeerId>, routes: Table, k: Key)
    requires k !in routes
    ensures LazyClone(peers, detached, routes, k) == peers
  {
  }

  // ---------------------------------------------------------------- the end of a rejoin attempt

  /** What a candidate looks like after its rejoin attempt. */
  function Finalized(q: Peer, failed: bool, corrections: Packing, lastSeen: nat): Peer {
    if failed then
      q.(packing := corrections, detachVersion := lastSeen, onRegistration := false, state := DetachedRunning)
    else
      Rejoined(q).(packing := corrections)
  }

  /** The count of peers that share group entries, after finalizing the candidates in order. */
  function Recounted(adjRibs: map<PeerId, Peer>, order: seq<PeerId>, failed: set<PeerId>, n: nat): nat
    requires forall p | p in order :: p in adjRibs
    decreases order
  {
    if order == [] then n
    else
      var m, p := Recounted(adjRibs, order[..|order| - 1], failed, n), order[|order| - 1];
      if p in failed then if adjRibs[p].detachVersion == 0 then m + 1 else m
      else if adjRibs[p].detachVersion > 0 && m > 0 then m - 1 else m
  }

  /** Refused candidates that begin to share group entries, and accepted ones that no longer do. */
  function Begin(adjRibs: map<PeerId, Peer>, order: seq<PeerId>, failed: set<PeerId>): set<PeerId> {
    set p | p in order && p in failed && p in adjRibs && adjRibs[p].detachVersion == 0
  }

  function Stop(adjRibs: map<PeerId, Peer>, order: seq<PeerId>, failed: set<PeerId>): set<PeerId> {
    set p | p in order && p !in failed && p in adjRibs && adjRibs[p].detachVersion > 0
  }

  lemma CardOneIf<T>(a: set<T>, b: set<T>, x: T, added: bool)
    requires x !in a && forall y :: y in b <==> y in a || (y == x && added)
    ensures |b| == |a| + (if added then 1 else 0)
  {
    assert b == if added then a + {x} else a;
  }

  lemma LastOne(adjRibs: map<PeerId, Peer>, order: seq<PeerId>, failed: set<PeerId>)
    requires order != [] && Distinct(order) && forall p | p in order :: p in adjRibs
    ensures
      var init, p := order[..|order| - 1], order[|order| - 1];
      && |Begin(adjRibs, order, failed)|
         == |Begin(adjRibs, init, failed)| + (if p in failed && adjRibs[p].detachVersion == 0 then 1 else 0)
      && |Stop(adjRibs, order, failed)|
         == |Stop(adjRibs, init, failed)| + (if p !in failed && adjRibs[p].detachVersion > 0 then 1 else 0)
  {
    var init, p := order[..|order| - 1], order[|order| - 1];
    assert order == init + [p] && p !in init;
    CardOneIf(Begin(adjRibs, init, failed), Begin(adjRibs, order, failed), p, p in failed && adjRibs[p].detachVersion == 0);
    CardOneIf(Stop(adjRibs, init, failed), Stop(adjRibs, order, failed), p, p !in failed && adjRibs[p].detachVersion > 0);
  }

  /** Nothing is lost to the counter's guard at zero while it covers the peers that leave. */
  lemma {:induction false} RecountedIs(adjRibs: map<PeerId, Peer>, order: seq<PeerId>, failed: set<PeerId>, n: nat)
    requires Distinct(order) && (forall p | p in order :: p in adjRibs)
    requires n >= |Stop(adjRibs, order, failed)|
    ensures Recounted(adjRibs, order, failed, n)
      == n + |Begin(adjRibs, order, failed)| - |Stop(adjRibs, order, failed)|
    decreases order
  {
    if order != [] {
      LastOne(adjRibs, order, failed);
      RecountedIs(adjRibs, order[..|order| - 1], failed, n);
    }
  }

  /** The candidates of `done` are finalized, nobody else is. */
  ghost predicate FinalizedUpTo(adjRibs: map<PeerId, Peer>, done: seq<PeerId>, packings: map<PeerId, Packing>,
                                failed: set<PeerId>, lastSeen: nat, r: map<PeerId, Peer>) {
    && (forall p :: p in r <==> p in adjRibs)
    && (forall p | p in done :: p in packings)
    && (forall p | p in adjRibs ::
          r[p] == if p in done then Finalized(adjRibs[p], p in failed, packings[p], lastSeen) else adjRibs[p])
  }

  lemma FinalizedNext(adjRibs: map<PeerId, Peer>, done: seq<PeerId>, packings: map<PeerId, Packing>,
                      failed: set<PeerId>, lastSeen: nat, r: map<PeerId, Peer>, p: PeerId)
    requires FinalizedUpTo(adjRibs, done, packings, failed, lastSeen, r) && p !in done && p in adjRibs && p in packings
    ensures r[p] == adjRibs[p]
    ensures FinalizedUpTo(adjRibs, done + [p], packings, failed, lastSeen,
                          r[p := Finalized(r[p], p in failed, packings[p], lastSeen)])
  {
    assert forall x :: x in done + [p] <==> x in done || x == p;
  }

  lemma RecountedNext(adjRibs: map<PeerId, Peer>, order: seq<PeerId>, failed: set<PeerId>, n: nat, i: nat)
    requires i < |order| && Distinct(order) && forall p | p in order :: p in adjRibs
    ensures order[..i + 1] == order[..i] + [order[i]] && order[i] !in order[..i]
    ensures
      var m, p := Recounted(adjRibs, order[..i], failed, n), order[i];
      Recounted(adjRibs, order[..i + 1], failed, n)
      == if p in failed then if adjRibs[p].detachVersion == 0 then m + 1 else m
         else if adjRibs[p].detachVersion > 0 && m > 0 then m - 1 else m
  {
    assert order[..i + 1][..i] == order[..i];
  }

  /** Finalize the candidates one by one; `n` is the count of peers that share group entries. */
  method FinalizePeers(adjRibs: map<PeerId, Peer>, order: seq<PeerId>, packings: map<PeerId, Packing>,
                       failed: set<PeerId>, lastSeen: nat, n: nat)
    returns (r: map<PeerId, Peer>, n': nat)
    requires Distinct(order) && forall p | p in order :: p in adjRibs && p in packings
    ensures FinalizedUpTo(adjRibs, order, packings, failed, lastSeen, r)
    ensures n' == Recounted(adjRibs, order, failed, n)
  {
    r, n' := adjRibs, n;
    for i := 0 to |order|
      invariant FinalizedUpTo(adjRibs, order[..i], packings, failed, lastSeen, r)
      invariant n' == Recounted(adjRibs, order[..i], failed, n)
    {
      var p := order[i];
      RecountedNext(adjRibs, order, failed, n, i);
      FinalizedNext(adjRibs, order[..i], packings, failed, lastSeen, r, p);
      if p in failed {
        if r[p].detachVersion == 0 {
          n' := n' + 1;
        }
      } else if r[p].detachVersion > 0 && n' > 0 {
        n' := n' - 1;
      }
      r := r[p := Finalized(r[p], p in failed, packings[p], lastSeen)];
    }
    assert order[..|order|] == order;
  }

  /** A finalized candidate whose entries left the tree is the collapsed peer. */
  lemma FinalizedIsCollapsed(g: Group, q: Peer, base: Peer, corrections: Packing, failed: bool)
    requires q == base.(own := q.own) && base.packing == map[]
    requires corrections == PackCorrections(Corrections(q, g.routes))
    requires failed <==> Corrections(q, g.routes) != map[]
    ensures Finalized(base, failed, corrections, g.lastSeen).(own := map[]) == Collapsed(g, q)
  {
    if !failed {
      EmptyCorrections();
      assert Corrections(q, g.routes) == map[];
    }
  }

  lemma EmptyCorrections()
    ensures PackCorrections(map[]) == map[]
  {
  }

  lemma QueuedAt(adjRibs: map<PeerId, Peer>, tables: Tables, ps: set<PeerId>, p: PeerId,
                 packings: map<PeerId, Packing>, failed: set<PeerId>)
    requires p in ps && p in adjRibs && Queued(ps, packings, AllCorrections(ps, adjRibs, tables), failed)
    ensures
      var c := Corrections(OwnIn(adjRibs[p], tables, p), TableFor(tables, GroupOwner));
      p in packings && packings[p] == PackCorrections(c) && (p in failed <==> c != map[])
  {
    assert AllCorrections(ps, adjRibs, tables)[p]
      == Corrections(OwnIn(adjRibs[p], tables, p), TableFor(tables, GroupOwner));
  }

  lemma TablesAfter(tables: Tables, ps: set<PeerId>, p: PeerId)
    ensures TableFor(tables - OwnersOf(ps), PeerOwner(p)) == if p in ps then map[] else TableFor(tables, PeerOwner(p))
    ensures TableFor(tables - OwnersOf(ps), GroupOwner) == TableFor(tables, GroupOwner)
  {
    if p in ps { assert PeerOwner(p) in OwnersOf(ps); }
  }

  /** One member after the collapse walk and the finalization. */
  lemma AcceptedPeer(g: Group, adjRibs: map<PeerId, Peer>, tables: Tables, order: seq<PeerId>, ps: set<PeerId>,
                     packings: map<PeerId, Packing>, failed: set<PeerId>, r: map<PeerId, Peer>, p: PeerId)
    requires p in adjRibs && (p in ps <==> p in order) && (p in ps ==> adjRibs[p].packing == map[])
    requires g.routes == TableFor(tables, GroupOwner) && g.peers == Joined(adjRibs, tables)
    requires Queued(ps, packings, AllCorrections(ps, adjRibs, tables), failed)
    requires FinalizedUpTo(adjRibs, order, packings, failed, g.lastSeen, r)
    ensures p in r && OwnIn(r[p], tables - OwnersOf(ps), p)
      == if p in ps then Collapsed(g, g.peers[p]) else g.peers[p]
    ensures p in ps ==> (p in failed <==> Corrections(g.peers[p], g.routes) != map[])
  {
    TablesAfter(tables, ps, p);
    if p in ps {
      QueuedAt(adjRibs, tables, ps, p, packings, failed);
      FinalizedIsCollapsed(g, OwnIn(adjRibs[p], tables, p), adjRibs[p], packings[p], p in failed);
    }
  }

  lemma JoinedIs(r: map<PeerId, Peer>, tables: Tables, peers: map<PeerId, Peer>)
    requires forall p :: p in r <==> p in peers
    requires forall p | p in peers :: OwnIn(r[p], tables, p) == peers[p]
    ensures Joined(r, tables) == peers
  {
  }

  /** The members after the collapse walk and the finalization are those of `Accept`. */
  lemma AcceptedPeers(g: Group, adjRibs: map<PeerId, Peer>, tables: Tables, order: seq<PeerId>, ps: set<PeerId>,
                      packings: map<PeerId, Packing>, failed: set<PeerId>, r: map<PeerId, Peer>)
    requires forall p :: p in ps <==> p in order
    requires forall p | p in ps :: p in adjRibs && adjRibs[p].packing == map[]
    requires g.routes == TableFor(tables, GroupOwner) && g.peers == Joined(adjRibs, tables)
    requires Queued(ps, packings, AllCorrections(ps, adjRibs, tables), failed)
    requires FinalizedUpTo(adjRibs, order, packings, failed, g.lastSeen, r)
    ensures Joined(r, tables - OwnersOf(ps)) == Accept(g, ps).peers
    ensures forall p :: p in Accepted(g, ps) <==> p in ps && p !in failed
  {
    AcceptIsCollapse(g, ps);
    forall p | p in adjRibs
      ensures p in r && OwnIn(r[p], tables - OwnersOf(ps), p)
        == if p in ps then Collapsed(g, g.peers[p]) else g.peers[p]
      ensures p in ps ==> (p in failed <==> Corrections(g.peers[p], g.routes) != map[])
    {
      AcceptedPeer(g, adjRibs, tables, order, ps, packings, failed, r, p);
    }
    JoinedIs(r, tables - OwnersOf(ps), Accept(g, ps).peers);
  }

  lemma StopIs(g: Group, adjRibs: map<PeerId, Peer>, order: seq<PeerId>, ps: set<PeerId>, failed: set<PeerId>, ok: set<PeerId>)
    requires forall p :: p in ps <==> p in order
    requires forall p :: p in ok <==> p in ps && p !in failed
    requires forall p :: p in g.peers <==> p in adjRibs
    requires forall p | p in adjRibs :: g.peers[p].detachVersion == adjRibs[p].detachVersion
    ensures Stop(adjRibs, order, failed) == Versioned(g, ok)
  {
    forall p ensures p in Stop(adjRibs, order, failed) <==> p in Versioned(g, ok) { }
  }

  lemma BeginIs(g: Group, adjRibs: map<PeerId, Peer>, order: seq<PeerId>, ps: set<PeerId>, failed: set<PeerId>, ok: set<PeerId>)
    requires forall p :: p in ps <==> p in order
    requires forall p :: p in ok <==> p in ps && p !in failed
    requires forall p | p in ps :: p in adjRibs
    requires forall p :: p in g.peers <==> p in adjRibs
    requires forall p | p in adjRibs :: g.peers[p].detachVersion == adjRibs[p].detachVersion
    ensures Begin(adjRibs, order, failed) == (ps - ok) - Versioned(g, ps)
  {
    forall p ensures p in Begin(adjRibs, order, failed) <==> p in (ps - ok) - Versioned(g, ps) { }
  }

  lemma RecountedFor(g: Group, adjRibs: map<PeerId, Peer>, order: seq<PeerId>, ps: set<PeerId>, failed: set<PeerId>,
                     ok: set<PeerId>, n: nat)
    requires Distinct(order) && (forall p :: p in ps <==> p in order) && (forall p | p in ps :: p in adjRibs)
    requires forall p :: p in ok <==> p in ps && p !in failed
    requires forall p :: p in g.peers <==> p in adjRibs
    requires forall p | p in adjRibs :: g.peers[p].detachVersion == adjRibs[p].detachVersion
    requires n >= |Versioned(g, ok)|
    ensures Recounted(adjRibs, order, failed, n) == n + |(ps - ok) - Versioned(g, ps)| - |Versioned(g, ok)|
  {
    StopIs(g, adjRibs, order, ps, failed, ok);
    BeginIs(g, adjRibs, order, ps, failed, ok);
    RecountedIs(adjRibs, order, failed, n);
  }

  /** The counter after the finalization is that of `Accept`. */
  lemma AcceptedCount(g: Group, adjRibs: map<PeerId, Peer>, order: seq<PeerId>, ps: set<PeerId>, failed: set<PeerId>,
                      ok: set<PeerId>)
    requires Distinct(order) && (forall p :: p in ps <==> p in order) && (forall p | p in ps :: p in adjRibs)
    requires ps <= g.detached && ok == Accepted(g, ps) && forall p :: p in ok <==> p in ps && p !in failed
    requires forall p :: p in g.peers <==> p in adjRibs
    requires forall p | p in adjRibs :: g.peers[p].detachVersion == adjRibs[p].detachVersion
    requires g.numDetachedAfterJoin == |Versioned(g, g.detached)|
    ensures Recounted(adjRibs, order, failed, g.numDetachedAfterJoin) == Accept(g, ps).numDetachedAfterJoin
  {
    SubsetCard(Versioned(g, ok), Versioned(g, g.detached));
    RecountedFor(g, adjRibs, order, ps, failed, ok, g.numDetachedAfterJoin);
  }

  function SetOf(order: seq<PeerId>): set<PeerId> {
    set p | p in order
  }

  lemma AcceptEorIs(g: Group, ps: set<PeerId>)
    ensures forall p :: p in Accept(g, ps).eorPeers <==>
      p in g.eorPeers || (p in Accepted(g, ps) && p in g.peers && g.peers[p].owes != {})
  {
  }

  /** Accepted peers move to the sync side one by one. */
  method MarkPeersInSync(adjRibs: map<PeerId, Peer>, accepted: set<PeerId>, sync: set<PeerId>, detached: set<PeerId>,
                         eorPeers: set<PeerId>, n: nat)
    returns (sync': set<PeerId>, detached': set<PeerId>, eorPeers': set<PeerId>, n': nat)
    requires forall p | p in accepted :: p in adjRibs && p !in sync
    ensures sync' == sync + accepted && detached' == detached - accepted && n' == n + |accepted|
    ensures forall p :: p in eorPeers' <==> p in eorPeers || (p in accepted && adjRibs[p].owes != {})
  {
    sync', detached', eorPeers', n' := sync, detached, eorPeers, n;
    var todo := accepted;
    while todo != {}
      invariant todo <= accepted
      invariant forall p :: p in sync' <==> p in sync || (p in accepted && p !in todo)
      invariant forall p :: p in detached' <==> p in detached && !(p in accepted && p !in todo)
      invariant forall p :: p in eorPeers' <==> p in eorPeers || (p in accepted && p !in todo && adjRibs[p].owes != {})
      invariant n' + |todo| == n + |accepted|
    {
      var p :| p in todo;
      if p !in sync' {
        n' := n' + 1;
      }
      sync', detached' := sync' + {p}, detached' - {p};
      if adjRibs[p].owes != {} {
        eorPeers' := eorPeers' + {p};
      }
      todo := todo - {p};
    }
  }

  lemma AcceptedNumber(g: Group, adjRibs: map<PeerId, Peer>, tables: Tables, order: seq<PeerId>, failed: set<PeerId>)
    requires Distinct(order) && CountersOk(g)
    requires forall p | p in order :: p in g.detached && p in adjRibs
    requires g.peers == Joined(adjRibs, tables) && SetOf(order) - failed == Accepted(g, SetOf(order))
    ensures Recounted(adjRibs, order, failed, g.numDetachedAfterJoin) == Accept(g, SetOf(order)).numDetachedAfterJoin
  {
    OwesJoined(adjRibs, tables);
    AcceptedCount(g, adjRibs, order, SetOf(order), failed, SetOf(order) - failed);
  }

  /** Marking the accepted peers books the End-of-RIB they still owe, as `Accept` does. */
  lemma AcceptedEor(g: Group, adjRibs: map<PeerId, Peer>, tables: Tables, ps: set<PeerId>, eor: set<PeerId>)
    requires g.peers == Joined(adjRibs, tables) && forall p | p in ps :: p in adjRibs
    requires forall p :: p in eor <==> p in g.eorPeers || (p in Accepted(g, ps) && p in adjRibs && adjRibs[p].owes != {})
    ensures eor == Accept(g, ps).eorPeers
  {
    OwesJoined(adjRibs, tables);
    AcceptEorIs(g, ps);
  }

  /** What the collapse walk knows about the candidates of group `g`. */
  ghost predicate Walked(g: Group, adjRibs: map<PeerId, Peer>, tables: Tables, order: seq<PeerId>,
                         packings: map<PeerId, Packing>, failed: set<PeerId>) {
    && Distinct(order) && CountersOk(g)
    && (forall p | p in order :: p in g.detached && p in adjRibs && adjRibs[p].packing == map[])
    && g.routes == TableFor(tables, GroupOwner) && g.peers == Joined(adjRibs, tables)
    && Queued(SetOf(order), packings, AllCorrections(SetOf(order), adjRibs, tables), failed)
  }

  lemma WalkedPeers(g: Group, adjRibs: map<PeerId, Peer>, tables: Tables, order: seq<PeerId>,
                    packings: map<PeerId, Packing>, failed: set<PeerId>, r: map<PeerId, Peer>)
    requires Walked(g, adjRibs, tables, order, packings, failed)
    requires FinalizedUpTo(adjRibs, order, packings, failed, g.lastSeen, r)
    ensures SetOf(order) - failed == Accepted(g, SetOf(order))
    ensures Joined(r, tables - OwnersOf(SetOf(order))) == Accept(g, SetOf(order)).peers
  {
    AcceptedPeers(g, adjRibs, tables, order, SetOf(order), packings, failed, r);
    assert SetOf(order) - failed == Accepted(g, SetOf(order));
  }

  lemma WalkedNumber(g: Group, adjRibs: map<PeerId, Peer>, tables: Tables, order: seq<PeerId>,
                     packings: map<PeerId, Packing>, failed: set<PeerId>)
    requires Walked(g, adjRibs, tables, order, packings, failed)
    requires SetOf(order) - failed == Accepted(g, SetOf(order))
    ensures Recounted(adjRibs, order, failed, g.numDetachedAfterJoin) == Accept(g, SetOf(order)).numDetachedAfterJoin
  {
    AcceptedNumber(g, adjRibs, tables, order, failed);
  }

  /** Finalize the candidates of a collapse; `g` is the group before it. */
  method FinalizeAccept(ghost g: Group, ghost tables: Tables, adjRibs: map<PeerId, Peer>, order: seq<PeerId>,
                        packings: map<PeerId, Packing>, failed: set<PeerId>, lastSeen: nat, n: nat)
    returns (r: map<PeerId, Peer>, n': nat)
    requires Walked(g, adjRibs, tables, order, packings, failed)
    requires g.lastSeen == lastSeen && g.numDetachedAfterJoin == n
    ensures SetOf(order) - failed == Accepted(g, SetOf(order))
    ensures Joined(r, tables - OwnersOf(SetOf(order))) == Accept(g, SetOf(order)).peers
    ensures n' == Accept(g, SetOf(order)).numDetachedAfterJoin
  {
    r, n' := FinalizePeers(adjRibs, order, packings, failed, lastSeen, n);
    WalkedPeers(g, adjRibs, tables, order, packings, failed, r);
    WalkedNumber(g, adjRibs, tables, order, packings, failed);
  }

  lemma AcceptIs(g: Group, ps: set<PeerId>, h: Group)
    requires h.peers == Accept(g, ps).peers && h.numDetachedAfterJoin == Accept(g, ps).numDetachedAfterJoin
    requires h.eorPeers == Accept(g, ps).eorPeers && h.sync == g.sync + Accepted(g, ps)
    requires h.detached == g.detached - Accepted(g, ps) && h.numInSync == g.numInSync + |Accepted(g, ps)|
    requires h == g.(peers := h.peers, numDetachedAfterJoin := h.numDetachedAfterJoin, sync := h.sync,
                     detached := h.detached, numInSync := h.numInSync, eorPeers := h.eorPeers)
    ensures h == Accept(g, ps)
  {
  }

  lemma OwesJoined(adjRibs: map<PeerId, Peer>, tables: Tables)
    ensures forall p :: p in adjRibs <==> p in Joined(adjRibs, tables)
    ensures forall p | p in adjRibs :: Joined(adjRibs, tables)[p].owes == adjRibs[p].owes
    ensures forall p | p in adjRibs :: Joined(adjRibs, tables)[p].detachVersion == adjRibs[p].detachVersion
  {
  }

  // ---------------------------------------------------------------- promotion

  lemma PromotedJoined(g: Group, adjRibs: map<PeerId, Peer>, tables: Tables, p: PeerId)
    requires p in adjRibs && g.peers == Joined(adjRibs, tables)
    ensures TableFor(PromotedTables(tables, PeerOwner(p)), GroupOwner) == Promote(g, p).routes
    ensures Joined(adjRibs[p := Rejoined(adjRibs[p])], PromotedTables(tables, PeerOwner(p))) == Promote(g, p).peers
  {
    var t' := PromotedTables(tables, PeerOwner(p));
    assert TableFor(t', PeerOwner(p)) == map[];
    forall r | r in adjRibs && r != p
      ensures TableFor(t', PeerOwner(r)) == TableFor(tables, PeerOwner(r))
    {
    }
  }

  lemma PromoteIs(g: Group, p: PeerId, h: Group)
    requires p in g.peers
    requires h.routes == Promote(g, p).routes && h.peers == Promote(g, p).peers
    requires h.lastSeen == Max(g.lastSeen, g.peers[p].lastSeen) && h.postOut == g.peers[p].postOut
    requires h.sync == g.sync + {p} && h.detached == g.detached - {p} && h.numInSync == g.numInSync + 1
    requires h.eorPeers == if g.peers[p].owes == {} then g.eorPeers else g.eorPeers + {p}
    requires h.numDetachedAfterJoin == if g.peers[p].detachVersion > 0 && g.numDetachedAfterJoin > 0
                                       then g.numDetachedAfterJoin - 1 else g.numDetachedAfterJoin
    requires h == g.(routes := h.routes, peers := h.peers, lastSeen := h.lastSeen, postOut := h.postOut, sync := h.sync,
                     detached := h.detached, numInSync := h.numInSync, eorPeers := h.eorPeers,
                     numDetachedAfterJoin := h.numDetachedAfterJoin)
    ensures h == Promote(g, p)
  {
  }

  // ---------------------------------------------------------------- members coming and going

  lemma JoinedWith(adjRibs: map<PeerId, Peer>, tables: Tables, p: PeerId, q: Peer)
    ensures Joined(adjRibs[p := q], tables) == Joined(adjRibs, tables)[p := OwnIn(q, tables, p)]
  {
  }

  lemma DetachedOwn(g: Group, h: Group, q: Peer, tables: Tables, p: PeerId)
    requires h.packing == g.packing && h.lastSeen == g.lastSeen && h.postOut == g.postOut
    ensures OwnIn(Detached(h, q), tables, p) == Detached(g, OwnIn(q, tables, p))
  {
  }

  lemma PushedOwn(g: Group, h: Group, q: Peer, tables: Tables, p: PeerId, m: Message, stuck: bool, slow: bool)
    requires h.packing == g.packing && h.lastSeen == g.lastSeen && h.postOut == g.postOut
    ensures OwnIn(Pushed(h, q, m, stuck, slow), tables, p) == Pushed(g, OwnIn(q, tables, p), m, stuck, slow)
    ensures Pushed(h, q, m, stuck, slow).owes == Pushed(g, OwnIn(q, tables, p), m, stuck, slow).owes
  {
  }

  lemma JoinedLess(adjRibs: map<PeerId, Peer>, tables: Tables, tables': Tables, ps: set<PeerId>)
    requires forall p | p !in ps :: TableFor(tables', PeerOwner(p)) == TableFor(tables, PeerOwner(p))
    ensures Joined(adjRibs - ps, tables') == Joined(adjRibs, tables) - ps
  {
  }

  function VersionedAmong(adjRibs: map<PeerId, Peer>, ps: set<PeerId>): set<PeerId> {
    set p | p in ps && p in adjRibs && adjRibs[p].detachVersion > 0
  }

  lemma JoinedVersions(adjRibs: map<PeerId, Peer>, tables: Tables, g: Group, ps: set<PeerId>)
    requires g.peers == Joined(adjRibs, tables)
    ensures Versioned(g, ps) == VersionedAmong(adjRibs, ps)
  {
  }

  // ---------------------------------------------------------------- a detached peer's own changes

  lemma JoinedOwn(adjRibs: map<PeerId, Peer>, tables: Tables, tables': Tables, p: PeerId)
    requires p in adjRibs
    requires forall o | o != PeerOwner(p) :: TableFor(tables', o) == TableFor(tables, o)
    ensures Joined(adjRibs, tables')
      == Joined(adjRibs, tables)[p := Joined(adjRibs, tables)[p].(own := TableFor(tables', PeerOwner(p)))]
  {
  }

  lemma LastUpdate(peers: map<PeerId, Peer>, p: PeerId, a: Peer, b: Peer, q: Peer)
    ensures peers[p := a][p := b][p := q] == peers[p := q]
  {
  }

  /** What a change queues for a detached peer. */
  method QueueForPeer(packing: Packing, entry: Option<Entry>, c: Change, refresh: bool, ghost w: Table)
    returns (queued: Packing)
    requires entry == if c.key in w then Some(w[c.key]) else None
    ensures queued == Process(RibOut(w, packing), c, refresh).packing
  {
    var was: Option<BgpPath> := if entry.Some? then entry.value.post else None;
    queued := packing;
    if c.Withdraw? || !c.mayAnnounce || c.result.None? {
      if was.Some? {
        queued := TryUpdateAttrToPrefixMap(packing, c.key, was, None, false);
      }
    } else if was != c.result || entry.value.nexthopByPolicy != c.nexthopByPolicy || refresh {
      queued := TryUpdateAttrToPrefixMap(packing, c.key, was, c.result, c.nexthopByPolicy);
    }
  }

  // ---------------------------------------------------------------- members changing groups

  /** The record of a moved peer; what it was showing goes through the tree. */
  function Arriving(q: Peer): Peer {
    q.(detachVersion := 0,
       state := if q.state.DetachedBlocked? || q.state.JoinedBlocked? then DetachedBlocked else DetachedInitDump,
       onRegistration := true,
       fast := false)
  }

  function ArrivingAll(adjRibs: map<PeerId, Peer>, ps: set<PeerId>): map<PeerId, Peer> {
    map p | p in adjRibs && p in ps :: Arriving(adjRibs[p])
  }

  lemma JoinedPlus(a: map<PeerId, Peer>, b: map<PeerId, Peer>, tables: Tables)
    ensures Joined(a + b, tables) == Joined(a, tables) + Joined(b, tables)
  {
  }

  lemma ArrivedJoined(g: Group, adjRibs: map<PeerId, Peer>, tables: Tables, ps: set<PeerId>, theirs: Tables)
    requires g.peers == Joined(adjRibs, tables)
    requires forall p | p in ps && p in adjRibs ::
      TableFor(theirs, PeerOwner(p)) == View(TableFor(tables, PeerOwner(p)), g.routes, adjRibs[p].detachVersion)
    ensures Joined(ArrivingAll(adjRibs, ps), theirs) == MaterializedAll(g, ps)
  {
    forall p | p in adjRibs && p in ps
      ensures OwnIn(Arriving(adjRibs[p]), theirs, p) == Materialized(g, g.peers[p])
    {
      assert g.peers[p] == OwnIn(adjRibs[p], tables, p);
    }
  }

  lemma MovedJoined(g: Group, adjRibs: map<PeerId, Peer>, tables: Tables, ps: set<PeerId>,
                    others: map<PeerId, Peer>, theirs: Tables, theirs': Tables)
    requires g.peers == Joined(adjRibs, tables)
    requires forall p | p in others :: TableFor(theirs', PeerOwner(p)) == TableFor(theirs, PeerOwner(p))
    requires forall p | p in ps && p in adjRibs ::
      TableFor(theirs', PeerOwner(p)) == View(TableFor(tables, PeerOwner(p)), g.routes, adjRibs[p].detachVersion)
    ensures Joined(others + ArrivingAll(adjRibs, ps), theirs')
      == Joined(others, theirs) + MaterializedAll(g, ps)
  {
    JoinedPlus(others, ArrivingAll(adjRibs, ps), theirs');
    JoinedSame(others, theirs, theirs');
    ArrivedJoined(g, adjRibs, tables, ps, theirs');
  }

  function Among(adjRibs: map<PeerId, Peer>, ps: set<PeerId>): map<PeerId, Peer> {
    map p | p in adjRibs && p in ps :: adjRibs[p]
  }

  function OwingAmong(adjRibs: map<PeerId, Peer>, ps: set<PeerId>): set<PeerId> {
    set p | p in ps && p in adjRibs && adjRibs[p].owes != {}
  }

  lemma SplitJoined(g: Group, families: set<Afi>, adjRibs: map<PeerId, Peer>, tables: Tables, ps: set<PeerId>, theirs: Tables)
    requires g.peers == Joined(adjRibs, tables)
    requires forall p | p in ps :: TableFor(theirs, PeerOwner(p)) == TableFor(tables, PeerOwner(p))
    ensures Joined(Among(adjRibs, ps), theirs) == Copied(g, families, ps).peers
    ensures OwingAmong(adjRibs, g.sync * ps) == Copied(g, families, ps).eorPeers
  {
  }
}
