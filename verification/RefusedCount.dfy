/**
  The count of a peer that is sent back.  The collapse lowers it for a path only the peer has and
  raises it for a path it announces, but leaves it alone where it only corrects attributes, and
  raises it once more for a path the peer was sharing.
 */
module RefusedCount {
  import opened Types
  import opened Advertised
  import opened GroupState
  import opened GroupInvariant
  import opened Distribution
  import opened Rejoin
  import opened Counts

  /** Paths only the peer has. */
  function Lowered(q: Peer, routes: Table): set<Key> {
    set k | k in q.own && k !in routes && q.own[k].post.Some?
  }

  /** Announced: the peer has no entry of its own. */
  function Raised(q: Peer, routes: Table): set<Key> {
    set k | k in routes && k !in q.own && Correction(q, routes, k).Some? && routes[k].post.Some?
  }

  /** The peer's count after a collapse that sends it back. */
  function CollapsedCount(q: Peer, routes: Table): int {
    q.postOut - |Lowered(q, routes)| + |Raised(q, routes)|
  }

  /** Advertised by the peer and denied by the group: corrected to a withdrawal, still counted. */
  function Denied(q: Peer, routes: Table): set<Key> {
    set k | k in q.own && k in routes && q.own[k].post.Some? && routes[k].post.None?
  }

  /** Denied by the peer and advertised by the group: corrected to an announcement, not counted. */
  function Allowed(q: Peer, routes: Table): set<Key> {
    set k | k in q.own && k in routes && q.own[k].post.None? && routes[k].post.Some?
  }

  /** Shared by the peer at a prefix where it owns another path: announced again, counted twice. */
  function Twice(q: Peer, routes: Table): set<Key> {
    set k | k in routes && routes[k].post.Some? && HasPrefix(q.own, k.prefix)
            && IsEntryShared(k in q.own, q.detachVersion, routes[k].version)
  }

  // ---------------------------------------------------------------- the sets the counts are made of

  function Both(q: Peer, routes: Table): set<Key> {
    set k | k in q.own && k in routes && q.own[k].post.Some? && routes[k].post.Some?
  }

  function Shared(q: Peer, routes: Table): set<Key> {
    set k | k in routes && routes[k].post.Some? && IsEntryShared(k in q.own, q.detachVersion, routes[k].version)
  }

  function NotOwned(q: Peer, routes: Table): set<Key> {
    set k | k in routes && k !in q.own && routes[k].post.Some?
  }

  lemma ViewParts(q: Peer, routes: Table)
    ensures Adv(View(q.own, routes, q.detachVersion)) ==
      Lowered(q, routes) + Denied(q, routes) + Both(q, routes) + Shared(q, routes)
  {
  }

  lemma ViewCount(q: Peer, routes: Table)
    ensures |Adv(View(q.own, routes, q.detachVersion))| ==
      |Lowered(q, routes)| + |Denied(q, routes)| + |Both(q, routes)| + |Shared(q, routes)|
  {
    ViewParts(q, routes);
    CardUnion(Lowered(q, routes), Denied(q, routes));
    CardUnion(Lowered(q, routes) + Denied(q, routes), Both(q, routes));
    CardUnion(Lowered(q, routes) + Denied(q, routes) + Both(q, routes), Shared(q, routes));
  }

  lemma GroupCount(q: Peer, routes: Table)
    ensures |Adv(routes)| == |Allowed(q, routes)| + |Both(q, routes)| + |NotOwned(q, routes)|
  {
    assert Adv(routes) == Allowed(q, routes) + Both(q, routes) + NotOwned(q, routes);
    CardUnion(Allowed(q, routes), Both(q, routes));
    CardUnion(Allowed(q, routes) + Both(q, routes), NotOwned(q, routes));
  }

  lemma RaisedCount(q: Peer, routes: Table)
    requires Positive(routes) && (q.onRegistration ==> q.detachVersion == 0)
    ensures |Raised(q, routes)| + |Shared(q, routes)| == |NotOwned(q, routes)| + |Twice(q, routes)|
  {
    var raised, shared := Raised(q, routes), Shared(q, routes);
    assert raised + shared == NotOwned(q, routes);
    assert raised * shared == Twice(q, routes);
    CardOverlap(raised, shared);
  }

  lemma CardOverlap<T>(a: set<T>, b: set<T>)
    ensures |a| + |b| == |a + b| + |a * b|
  {
    assert a + b == a + (b - a);
    CardUnion(a, b - a);
    assert b == (b - a) + (a * b);
    CardUnion(b - a, a * b);
  }

  /** How far the count of a peer that is sent back is off what it shows from then on. */
  lemma CollapsedCountIs(q: Peer, routes: Table)
    requires Positive(routes) && (q.onRegistration ==> q.detachVersion == 0)
    requires q.postOut == |Adv(View(q.own, routes, q.detachVersion))|
    ensures CollapsedCount(q, routes) + |Allowed(q, routes)| ==
      |Adv(routes)| + |Denied(q, routes)| + |Twice(q, routes)|
  {
    ViewCount(q, routes);
    GroupCount(q, routes);
    RaisedCount(q, routes);
  }

  /**
    A peer that is sent back shows the group's routes.  Its count equals them exactly when the
    routes counted once too often are as many as those not counted.
   */
  lemma RefusedCountIff(g: Group, p: PeerId)
    requires Inv(g) && CountsOk(g) && Candidate(g, p) && Corrections(g.peers[p], g.routes) != map[]
    ensures
      var q := Collapsed(g, g.peers[p]);
      View(q.own, g.routes, q.detachVersion) == g.routes
    ensures CollapsedCount(g.peers[p], g.routes) == |Adv(g.routes)| <==>
      |Denied(g.peers[p], g.routes)| + |Twice(g.peers[p], g.routes)| == |Allowed(g.peers[p], g.routes)|
  {
    assert DetachedOk(g.peers[p], g.routes, g.lastSeen);
    CollapsedFailed(g, g.peers[p]);
    CollapsedCountIs(g.peers[p], g.routes);
  }
}
