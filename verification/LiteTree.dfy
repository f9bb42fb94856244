/**
  Groups that do not send add-path keep one path per prefix and owner in a simpler tree with
  simpler rules.  Those rules are the general ones on tables with the default path id only.
 */
module LiteTree {
  import opened Types
  import opened Advertised
  import opened GroupState
  import opened Rejoin

  predicate Lite(t: Table) {
    forall k | k in t :: k.pathId == DEFAULT_PATH_ID
  }

  /** The collapse of one prefix of the simpler tree. */
  function LiteCorrection(own: Option<Entry>, group: Option<Entry>, q: Peer): Option<Option<BgpPath>> {
    match (own, group)
    case (Some(_), None) => Some(None)
    case (None, Some(e)) =>
      if q.onRegistration || e.version > q.detachVersion then Some(e.post) else None
    case (Some(o), Some(e)) => if o.post == e.post then None else Some(e.post)
    case (None, None) => None
  }

  function Only(t: Table, prefix: Prefix): Option<Entry> {
    var k := Key(prefix, DEFAULT_PATH_ID);
    if k in t then Some(t[k]) else None
  }

  lemma LitePrefix(t: Table, prefix: Prefix)
    requires Lite(t)
    ensures HasPrefix(t, prefix) <==> Key(prefix, DEFAULT_PATH_ID) in t
  {
    if HasPrefix(t, prefix) {
      var k :| k in t && k.prefix == prefix;
      assert k == Key(prefix, DEFAULT_PATH_ID);
    }
  }

  /** The simpler collapse is the general one. */
  lemma LiteCorrectionIs(q: Peer, routes: Table, k: Key)
    requires Lite(q.own) && Lite(routes)
    ensures Correction(q, routes, k) ==
      if k.pathId == DEFAULT_PATH_ID then LiteCorrection(Only(q.own, k.prefix), Only(routes, k.prefix), q) else None
  {
    LitePrefix(q.own, k.prefix);
    assert k == Key(k.prefix, k.pathId);
  }

  /** Without add-path a waiting peer is refused only for a difference, or for an entry one side keeps denied. */
  lemma LiteAcceptedIff(q: Peer, routes: Table)
    requires Lite(q.own) && Lite(routes) && Positive(routes) && (q.onRegistration ==> q.detachVersion == 0)
    ensures Corrections(q, routes) == map[] <==>
      && SamePosts(View(q.own, routes, q.detachVersion), routes)
      && (forall k | k in q.own && k !in routes :: q.own[k].post.Some?)
      && (forall k | k in routes && k !in q.own && routes[k].version > q.detachVersion :: routes[k].post.Some?)
  {
    AcceptedIff(q, routes);
    forall k
      ensures Needless(q, routes, k) <==>
        || (k in q.own && k !in routes && q.own[k].post.None?)
        || (k in routes && k !in q.own && routes[k].version > q.detachVersion && routes[k].post.None?)
    {
      LitePrefix(q.own, k.prefix);
      assert k == Key(k.prefix, k.pathId);
    }
  }
}
