/**
  The collapse as it is carried out: a walk over the nodes, in each node one pass per
  candidate peer over its own and the group's paths, queuing corrections one by one.
 */
module CollapseWalk {
  import opened Types
  import opened PackingList
  import opened Advertised
  import opened GroupState
  import opened Rejoin
  import opened OwnerTree

  type Fixes = map<Key, Option<BgpPath>>

  /** The correction of one path, read off the two owners' paths in its node. */
  function NodeCorrection(own: Paths, group: Paths, q: Peer, id: PathId): Option<Option<BgpPath>> {
    if id in own then
      if id !in group then Some(None)
      else if own[id].post != group[id].post then Some(group[id].post)
      else None
    else if id in group && (own != map[] || q.onRegistration || group[id].version > q.detachVersion)
    then Some(group[id].post)
    else None
  }

  function KeysAt(prefix: Prefix, ids: set<PathId>): set<Key> {
    set id | id in ids :: Key(prefix, id)
  }

  /** The corrections of some paths of one node. */
  function NodeFixes(prefix: Prefix, own: Paths, group: Paths, q: Peer, ids: set<PathId>): Fixes {
    map k | k in KeysAt(prefix, ids) && NodeCorrection(own, group, q, k.pathId).Some? ::
      NodeCorrection(own, group, q, k.pathId).value
  }

  lemma NodeFixesAt(prefix: Prefix, own: Paths, group: Paths, q: Peer, ids: set<PathId>, k: Key)
    ensures k in NodeFixes(prefix, own, group, q, ids) <==>
      k.prefix == prefix && k.pathId in ids && NodeCorrection(own, group, q, k.pathId).Some?
  {
    assert k == Key(k.prefix, k.pathId);
  }

  /** Queuing a correction for a route that has none yet is adding it to the corrections. */
  lemma QueueFix(c: Fixes, k: Key, was: Option<BgpPath>, now: Option<BgpPath>)
    requires k !in c
    ensures Repack(PackCorrections(c), k, was, now, false) == PackCorrections(c[k := now])
  {
    var pl, pl', target := PackCorrections(c), PackCorrections(c[k := now]), BucketOf(k, now);
    var r := Repack(pl, k, was, now, false);
    PackCorrectionsAt(c);
    PackCorrectionsAt(c[k := now]);
    RepackAt(pl, k, was, now, false);
    forall b, j
      ensures Under(r, j, b) <==> Under(pl', j, b)
    {
      assert !Under(pl, k, b);
    }
    SameBuckets(r, pl');
  }

  lemma SameBuckets(r: Packing, s: Packing)
    requires forall b, j :: Under(r, j, b) <==> Under(s, j, b)
    requires forall b | b in r :: r[b] != {}
    requires forall b | b in s :: s[b] != {}
    ensures r == s
  {
    forall b | b in r
      ensures b in s && r[b] == s[b]
    {
      var j :| j in r[b];
      assert Under(r, j, b) && Under(s, j, b);
      forall i ensures i in r[b] <==> i in s[b] { assert Under(r, i, b) <==> Under(s, i, b); }
    }
    forall b | b in s
      ensures b in r
    {
      var j :| j in s[b];
      assert Under(s, j, b) && Under(r, j, b);
    }
  }

  lemma NextFix(prefix: Prefix, own: Paths, group: Paths, q: Peer, ids: set<PathId>, id: PathId)
    requires id !in ids
    ensures Key(prefix, id) !in NodeFixes(prefix, own, group, q, ids)
    ensures
      var fix := NodeCorrection(own, group, q, id);
      NodeFixes(prefix, own, group, q, ids + {id}) ==
        if fix.Some? then NodeFixes(prefix, own, group, q, ids)[Key(prefix, id) := fix.value]
        else NodeFixes(prefix, own, group, q, ids)
  {
    forall k
      ensures k in NodeFixes(prefix, own, group, q, ids) <==>
        k.prefix == prefix && k.pathId in ids && NodeCorrection(own, group, q, k.pathId).Some?
      ensures k in NodeFixes(prefix, own, group, q, ids + {id}) <==>
        k.prefix == prefix && k.pathId in ids + {id} && NodeCorrection(own, group, q, k.pathId).Some?
    {
      NodeFixesAt(prefix, own, group, q, ids, k);
      NodeFixesAt(prefix, own, group, q, ids + {id}, k);
    }
  }

  /** One step of the pass over a node. */
  lemma QueueNext(c: Fixes, prefix: Prefix, own: Paths, group: Paths, q: Peer, ids: set<PathId>, id: PathId,
                  was: Option<BgpPath>)
    requires id !in ids && forall k | k in c :: k.prefix != prefix
    ensures
      var fix := NodeCorrection(own, group, q, id);
      var pl := PackCorrections(c + NodeFixes(prefix, own, group, q, ids));
      PackCorrections(c + NodeFixes(prefix, own, group, q, ids + {id}))
        == if fix.Some? then Repack(pl, Key(prefix, id), was, fix.value, false) else pl
    ensures NodeFixes(prefix, own, group, q, ids + {id}) != map[] <==>
      NodeCorrection(own, group, q, id).Some? || NodeFixes(prefix, own, group, q, ids) != map[]
  {
    var fix := NodeCorrection(own, group, q, id);
    var done := NodeFixes(prefix, own, group, q, ids);
    NextFix(prefix, own, group, q, ids, id);
    if fix.Some? {
      QueueFix(c + done, Key(prefix, id), was, fix.value);
      assert c + done[Key(prefix, id) := fix.value] == (c + done)[Key(prefix, id) := fix.value];
    }
  }

  /** The pass over the peer's own paths: withdraw what the group lacks, re-advertise what differs. */
  method CollapseOwnPaths(own: Paths, group: Paths, prefix: Prefix, q: Peer, pl: Packing, ghost c: Fixes)
    returns (r: Packing, discrepancy: bool)
    requires pl == PackCorrections(c) && forall k | k in c :: k.prefix != prefix
    ensures r == PackCorrections(c + NodeFixes(prefix, own, group, q, own.Keys))
    ensures discrepancy <==> NodeFixes(prefix, own, group, q, own.Keys) != map[]
  {
    r, discrepancy := pl, false;
    var todo := own.Keys;
    ghost var done: set<PathId> := {};
    assert c + NodeFixes(prefix, own, group, q, {}) == c;
    while todo != {}
      invariant todo !! done && todo + done == own.Keys
      invariant r == PackCorrections(c + NodeFixes(prefix, own, group, q, done))
      invariant discrepancy <==> NodeFixes(prefix, own, group, q, done) != map[]
    {
      var id :| id in todo;
      var was := if id in group then None else own[id].post;
      QueueNext(c, prefix, own, group, q, done, id, was);
      if id !in group {
        r := TryUpdateAttrToPrefixMap(r, Key(prefix, id), was, None, false);
        discrepancy := true;
      } else if own[id].post != group[id].post {
        r := TryUpdateAttrToPrefixMap(r, Key(prefix, id), was, group[id].post, false);
        discrepancy := true;
      }
      todo, done := todo - {id}, done + {id};
    }
  }

  /** The pass over the group's paths the peer does not own: announce what the peer cannot have seen. */
  method CollapseGroupPaths(own: Paths, group: Paths, prefix: Prefix, q: Peer, pl: Packing, found: bool, ghost c: Fixes)
    returns (r: Packing, discrepancy: bool)
    requires pl == PackCorrections(c + NodeFixes(prefix, own, group, q, own.Keys))
    requires found <==> NodeFixes(prefix, own, group, q, own.Keys) != map[]
    requires forall k | k in c :: k.prefix != prefix
    ensures r == PackCorrections(c + NodeFixes(prefix, own, group, q, own.Keys + group.Keys))
    ensures discrepancy <==> NodeFixes(prefix, own, group, q, own.Keys + group.Keys) != map[]
  {
    r, discrepancy := pl, found;
    var todo := group.Keys - own.Keys;
    ghost var done := own.Keys;
    while todo != {}
      invariant forall id | id in todo :: id in group && id !in own
      invariant forall id :: id in done <==> (id in own || id in group) && id !in todo
      invariant r == PackCorrections(c + NodeFixes(prefix, own, group, q, done))
      invariant discrepancy <==> NodeFixes(prefix, own, group, q, done) != map[]
    {
      var id :| id in todo;
      QueueNext(c, prefix, own, group, q, done, id, None);
      if own != map[] || q.onRegistration || group[id].version > q.detachVersion {
        r := TryUpdateAttrToPrefixMap(r, Key(prefix, id), None, group[id].post, false);
        discrepancy := true;
      }
      todo, done := todo - {id}, done + {id};
    }
    assert done == own.Keys + group.Keys;
  }

  /** Collapse one peer at one node. */
  method CollapsePathEntry(ownerMap: OwnerMap, prefix: Prefix, o: Owner, q: Peer, pl: Packing, ghost c: Fixes)
    returns (r: Packing, left: OwnerMap, discrepancy: bool)
    requires o.PeerOwner? && pl == PackCorrections(c) && forall k | k in c :: k.prefix != prefix
    ensures left == ownerMap - {o}
    ensures
      var own, group := PathsAt(ownerMap, o), PathsAt(ownerMap, GroupOwner);
      var fixes := NodeFixes(prefix, own, group, q, own.Keys + group.Keys);
      r == PackCorrections(c + fixes) && (discrepancy <==> fixes != map[])
  {
    var own, group := PathsAt(ownerMap, o), PathsAt(ownerMap, GroupOwner);
    r, discrepancy := CollapseOwnPaths(own, group, prefix, q, pl, c);
    r, discrepancy := CollapseGroupPaths(own, group, prefix, q, r, discrepancy, c);
    left := ownerMap - {o};
  }

  // ---------------------------------------------------------------- a batch of peers at one node

  function OwnersOf(ps: set<PeerId>): set<Owner> {
    set p | p in ps :: PeerOwner(p)
  }

  /** All corrections of one peer at one node. */
  function FixesAt(ownerMap: OwnerMap, prefix: Prefix, p: PeerId, q: Peer): Fixes {
    var own, group := PathsAt(ownerMap, PeerOwner(p)), PathsAt(ownerMap, GroupOwner);
    NodeFixes(prefix, own, group, q, own.Keys + group.Keys)
  }

  /** One candidate at a node the candidates in `done` are already gone from. */
  method CollapseCandidate(left: OwnerMap, prefix: Prefix, p: PeerId, q: Peer, pl: Packing, ghost c: Fixes,
                           ghost ownerMap: OwnerMap, ghost done: set<PeerId>)
    returns (r: Packing, rest: OwnerMap, discrepancy: bool)
    requires left == ownerMap - OwnersOf(done) && p !in done && pl == PackCorrections(c)
    requires forall k | k in c :: k.prefix != prefix
    ensures rest == ownerMap - OwnersOf(done + {p})
    ensures r == PackCorrections(c + FixesAt(ownerMap, prefix, p, q))
    ensures discrepancy <==> FixesAt(ownerMap, prefix, p, q) != map[]
  {
    UntouchedPaths(ownerMap, done, p);
    OneOwnerMore(ownerMap, done, p);
    r, rest, discrepancy := CollapsePathEntry(left, prefix, PeerOwner(p), q, pl, c);
  }

  /** Collapse every candidate at one node. */
  method CollapseNode(ownerMap: OwnerMap, prefix: Prefix, ps: set<PeerId>, info: map<PeerId, Peer>,
                      packings: map<PeerId, Packing>, failed: set<PeerId>, ghost c: map<PeerId, Fixes>)
    returns (r: map<PeerId, Packing>, left: OwnerMap, failed': set<PeerId>)
    requires forall p | p in ps :: p in info && p in c
    requires forall p :: p in packings <==> p in ps
    requires forall p | p in ps :: packings[p] == PackCorrections(c[p])
    requires forall p, k | p in ps && k in c[p] :: k.prefix != prefix
    ensures left == ownerMap - OwnersOf(ps)
    ensures forall p :: p in r <==> p in ps
    ensures forall p | p in ps :: r[p] == PackCorrections(c[p] + FixesAt(ownerMap, prefix, p, info[p]))
    ensures forall p :: p in failed' <==> p in failed || (p in ps && FixesAt(ownerMap, prefix, p, info[p]) != map[])
  {
    ghost var want, bad := WantedAt(ownerMap, prefix, ps, info, c), FailingAt(ownerMap, prefix, ps, info);
    r, left, failed' := packings, ownerMap, failed;
    var todo := ps;
    while todo != {}
      invariant todo <= ps && left == ownerMap - OwnersOf(ps - todo)
      invariant PacksSoFar(ps, packings, want, todo, r) && FailsSoFar(failed, bad, ps - todo, failed')
    {
      var p :| p in todo;
      var pl, rest, discrepancy := CollapseCandidate(left, prefix, p, info[p], r[p], c[p], ownerMap, ps - todo);
      PacksNext(ps, packings, want, todo, r, p, pl);
      FailsNext(failed, bad, ps - todo, failed', p, discrepancy);
      OneDone(ps, todo, p);
      r, left := r[p := pl], rest;
      if discrepancy {
        failed' := failed' + {p};
      }
      todo := todo - {p};
    }
    assert ps - {} == ps;
  }

  lemma OneDone(ps: set<PeerId>, todo: set<PeerId>, p: PeerId)
    requires p in todo && todo <= ps
    ensures ps - (todo - {p}) == (ps - todo) + {p}
  {
  }

  ghost function WantedAt(ownerMap: OwnerMap, prefix: Prefix, ps: set<PeerId>, info: map<PeerId, Peer>,
                          c: map<PeerId, Fixes>): map<PeerId, Packing>
    requires forall p | p in ps :: p in info && p in c
  {
    map p | p in ps :: PackCorrections(c[p] + FixesAt(ownerMap, prefix, p, info[p]))
  }

  ghost function FailingAt(ownerMap: OwnerMap, prefix: Prefix, ps: set<PeerId>, info: map<PeerId, Peer>): set<PeerId>
    requires forall p | p in ps :: p in info
  {
    set p | p in ps && FixesAt(ownerMap, prefix, p, info[p]) != map[]
  }

  lemma PacksNext(ps: set<PeerId>, packings: map<PeerId, Packing>, want: map<PeerId, Packing>, todo: set<PeerId>,
                  r: map<PeerId, Packing>, p: PeerId, pl: Packing)
    requires (forall j | j in ps :: j in want) && (forall j :: j in packings <==> j in ps)
    requires PacksSoFar(ps, packings, want, todo, r) && p in ps && pl == want[p]
    ensures PacksSoFar(ps, packings, want, todo - {p}, r[p := pl])
  {
  }

  lemma FailsNext(failed: set<PeerId>, bad: set<PeerId>, done: set<PeerId>, failed': set<PeerId>, p: PeerId, fails: bool)
    requires FailsSoFar(failed, bad, done, failed') && (fails <==> p in bad)
    ensures FailsSoFar(failed, bad, done + {p}, if fails then failed' + {p} else failed')
  {
  }

  /** The candidates outside `todo` have their corrections at the node queued. */
  ghost predicate PacksSoFar(ps: set<PeerId>, packings: map<PeerId, Packing>, want: map<PeerId, Packing>,
                             todo: set<PeerId>, r: map<PeerId, Packing>)
    requires (forall p | p in ps :: p in want) && (forall p :: p in packings <==> p in ps)
  {
    (forall p :: p in r <==> p in ps) && forall p | p in ps :: r[p] == if p in todo then packings[p] else want[p]
  }

  ghost predicate FailsSoFar(failed: set<PeerId>, bad: set<PeerId>, done: set<PeerId>, failed': set<PeerId>) {
    forall p :: p in failed' <==> p in failed || (p in done && p in bad)
  }

  lemma UntouchedPaths(ownerMap: OwnerMap, done: set<PeerId>, p: PeerId)
    requires p !in done
    ensures PathsAt(ownerMap - OwnersOf(done), PeerOwner(p)) == PathsAt(ownerMap, PeerOwner(p))
    ensures PathsAt(ownerMap - OwnersOf(done), GroupOwner) == PathsAt(ownerMap, GroupOwner)
  {
  }

  lemma OneOwnerMore(ownerMap: OwnerMap, done: set<PeerId>, p: PeerId)
    ensures ownerMap - OwnersOf(done) - {PeerOwner(p)} == ownerMap - OwnersOf(done + {p})
  {
    assert OwnersOf(done + {p}) == OwnersOf(done) + {PeerOwner(p)};
  }

  // ---------------------------------------------------------------- the walk

  /** The corrections of a peer at some of the prefixes. */
  function Within(q: Peer, routes: Table, prefixes: set<Prefix>): Fixes {
    map k | k in Corrections(q, routes) && k.prefix in prefixes :: Corrections(q, routes)[k]
  }

  function OwnIn(q: Peer, tables: Tables, p: PeerId): Peer {
    q.(own := TableFor(tables, PeerOwner(p)))
  }

  lemma OwnsPrefix(t: Tree, tables: Tables, o: Owner, prefix: Prefix)
    requires Tidy(t) && Stores(t, tables)
    ensures HasPrefix(TableFor(tables, o), prefix) <==> PathsAt(NodeAt(t, prefix), o) != map[]
  {
    if HasPrefix(TableFor(tables, o), prefix) {
      var k :| k in TableFor(tables, o) && k.prefix == prefix;
      assert Has(t, o, k);
    }
    if PathsAt(NodeAt(t, prefix), o) != map[] {
      var id :| id in PathsAt(NodeAt(t, prefix), o);
      assert Has(t, o, Key(prefix, id));
    }
  }

  /** The correction read off the node is the correction of the stored tables. */
  lemma NodeCorrectionIs(t: Tree, tables: Tables, p: PeerId, q: Peer, k: Key)
    requires Tidy(t) && Stores(t, tables)
    ensures
      var om := NodeAt(t, k.prefix);
      Correction(OwnIn(q, tables, p), TableFor(tables, GroupOwner), k)
      == NodeCorrection(PathsAt(om, PeerOwner(p)), PathsAt(om, GroupOwner), q, k.pathId)
  {
    OwnsPrefix(t, tables, PeerOwner(p), k.prefix);
    assert Has(t, PeerOwner(p), k) <==> k in TableFor(tables, PeerOwner(p));
    assert Has(t, GroupOwner, k) <==> k in TableFor(tables, GroupOwner);
  }

  lemma NodeIsWithin(t: Tree, tables: Tables, p: PeerId, q: Peer, prefix: Prefix)
    requires Tidy(t) && Stores(t, tables) && prefix in t
    ensures FixesAt(t[prefix], prefix, p, q) == Within(OwnIn(q, tables, p), TableFor(tables, GroupOwner), {prefix})
  {
    var own, group := PathsAt(t[prefix], PeerOwner(p)), PathsAt(t[prefix], GroupOwner);
    var a := FixesAt(t[prefix], prefix, p, q);
    var q', routes := OwnIn(q, tables, p), TableFor(tables, GroupOwner);
    var b := Within(q', routes, {prefix});
    forall k
      ensures k in a <==> k in b
      ensures k in a ==> a[k] == b[k]
    {
      NodeFixesAt(prefix, own, group, q, own.Keys + group.Keys, k);
      NodeCorrectionIs(t, tables, p, q, k);
      assert k in b <==> Correction(q', routes, k).Some? && k.prefix == prefix;
    }
  }

  lemma WithinMore(q: Peer, routes: Table, done: set<Prefix>, prefix: Prefix)
    requires prefix !in done
    ensures Within(q, routes, done + {prefix}) == Within(q, routes, done) + Within(q, routes, {prefix})
    ensures forall k | k in Within(q, routes, done) :: k.prefix != prefix
  {
  }

  /** Once every node is done, so is every correction. */
  lemma WithinAll(t: Tree, tables: Tables, p: PeerId, q: Peer)
    requires Tidy(t) && Stores(t, tables)
    ensures Within(OwnIn(q, tables, p), TableFor(tables, GroupOwner), t.Keys)
      == Corrections(OwnIn(q, tables, p), TableFor(tables, GroupOwner))
  {
    forall k | k in Corrections(OwnIn(q, tables, p), TableFor(tables, GroupOwner))
      ensures k.prefix in t
    {
      assert Has(t, PeerOwner(p), k) || Has(t, GroupOwner, k);
    }
  }

  /** The corrections of every candidate at the nodes visited so far. */
  ghost function Stage(ps: set<PeerId>, info: map<PeerId, Peer>, tables: Tables, done: set<Prefix>): map<PeerId, Fixes> {
    map p | p in ps && p in info :: Within(OwnIn(info[p], tables, p), TableFor(tables, GroupOwner), done)
  }

  lemma StageStep(t: Tree, tables: Tables, ps: set<PeerId>, info: map<PeerId, Peer>, done: set<Prefix>, prefix: Prefix)
    requires Tidy(t) && Stores(t, tables) && prefix in t && prefix !in done && ps <= info.Keys
    ensures forall p | p in ps ::
      Stage(ps, info, tables, done + {prefix})[p]
      == Stage(ps, info, tables, done)[p] + FixesAt(t[prefix], prefix, p, info[p])
    ensures forall p, k | p in ps && k in Stage(ps, info, tables, done)[p] :: k.prefix != prefix
  {
    forall p | p in ps
      ensures Stage(ps, info, tables, done + {prefix})[p]
        == Stage(ps, info, tables, done)[p] + FixesAt(t[prefix], prefix, p, info[p])
      ensures forall k | k in Stage(ps, info, tables, done)[p] :: k.prefix != prefix
    {
      NodeIsWithin(t, tables, p, info[p], prefix);
      WithinMore(OwnIn(info[p], tables, p), TableFor(tables, GroupOwner), done, prefix);
    }
  }

  lemma MergedEmpty(a: Fixes, b: Fixes)
    ensures a + b == map[] <==> a == map[] && b == map[]
  {
    if a + b == map[] {
      assert forall k :: k !in a + b;
    }
  }

  lemma QueuedNext(ps: set<PeerId>, packings: map<PeerId, Packing>, c: map<PeerId, Fixes>, failed: set<PeerId>,
                   d: map<PeerId, Fixes>, r: map<PeerId, Packing>, c': map<PeerId, Fixes>, failed': set<PeerId>)
    requires Queued(ps, packings, c, failed)
    requires forall p | p in ps :: p in d && p in c' && c'[p] == c[p] + d[p]
    requires forall p :: p in r <==> p in ps
    requires forall p | p in ps :: r[p] == PackCorrections(c[p] + d[p])
    requires forall p :: p in failed' <==> p in failed || (p in ps && d[p] != map[])
    ensures Queued(ps, r, c', failed')
  {
    forall p | p in ps
      ensures c'[p] == map[] <==> c[p] == map[] && d[p] == map[]
    {
      MergedEmpty(c[p], d[p]);
    }
  }

  /** One node of the walk: the queues and the failed peers move on to the next stage. */
  method CollapseAtNode(t: Tree, prefix: Prefix, ps: set<PeerId>, info: map<PeerId, Peer>, packings: map<PeerId, Packing>,
                        failed: set<PeerId>, ghost tables: Tables, ghost done: set<Prefix>)
    returns (r: map<PeerId, Packing>, left: OwnerMap, failed': set<PeerId>)
    requires Tidy(t) && Stores(t, tables) && prefix in t && prefix !in done && ps <= info.Keys
    requires Queued(ps, packings, Stage(ps, info, tables, done), failed)
    ensures left == t[prefix] - OwnersOf(ps)
    ensures Queued(ps, r, Stage(ps, info, tables, done + {prefix}), failed')
  {
    StageStep(t, tables, ps, info, done, prefix);
    ghost var c := Stage(ps, info, tables, done);
    r, left, failed' := CollapseNode(t[prefix], prefix, ps, info, packings, failed, c);
    ghost var d := map p | p in ps :: FixesAt(t[prefix], prefix, p, info[p]);
    QueuedNext(ps, packings, c, failed, d, r, Stage(ps, info, tables, done + {prefix}), failed');
  }

  /** Every candidate's queue holds its corrections, and the failed ones are those that have any. */
  ghost predicate Queued(ps: set<PeerId>, packings: map<PeerId, Packing>, c: map<PeerId, Fixes>, failed: set<PeerId>) {
    && (forall p | p in ps :: p in c)
    && (forall p :: p in packings <==> p in ps)
    && (forall p | p in ps :: packings[p] == PackCorrections(c[p]))
    && (forall p :: p in failed <==> p in ps && c[p] != map[])
  }

  lemma NothingQueued(ps: set<PeerId>, info: map<PeerId, Peer>, tables: Tables)
    requires ps <= info.Keys
    ensures Queued(ps, map p | p in ps :: map[], Stage(ps, info, tables, {}), {})
  {
    var c := Stage(ps, info, tables, {});
    forall p | p in ps
      ensures c[p] == map[]
    {
    }
    assert PackCorrections(map[]) == map[];
  }

  /** Collapse a batch of candidates in one walk over the tree. */
  method CollapseEntries(t: Tree, ps: set<PeerId>, info: map<PeerId, Peer>, ghost tables: Tables)
    returns (r: Tree, packings: map<PeerId, Packing>, failed: set<PeerId>)
    requires Tidy(t) && Stores(t, tables) && ps <= info.Keys
    ensures r == WithoutOwners(t, OwnersOf(ps))
    ensures Queued(ps, packings, AllCorrections(ps, info, tables), failed)
  {
    r, packings, failed := t, map p | p in ps :: map[], {};
    NothingQueued(ps, info, tables);
    var todo, emptyNodes := t.Keys, {};
    ghost var done: set<Prefix>, os := {}, OwnersOf(ps);
    while todo != {}
      invariant Visited(t, os, r, todo, done, emptyNodes)
      invariant Queued(ps, packings, Stage(ps, info, tables, done), failed)
    {
      var prefix :| prefix in todo;
      var ownerMap;
      packings, ownerMap, failed := CollapseAtNode(t, prefix, ps, info, packings, failed, tables, done);
      VisitedNext(t, os, r, todo, done, emptyNodes, prefix);
      r := r[prefix := ownerMap];
      if ownerMap == map[] {
        emptyNodes := emptyNodes + {prefix};
      }
      todo, done := todo - {prefix}, done + {prefix};
    }
    VisitedAll(t, os, r, done, emptyNodes);
    StageAll(t, tables, ps, info);
    r := r - emptyNodes;
  }

  ghost function AllCorrections(ps: set<PeerId>, info: map<PeerId, Peer>, tables: Tables): map<PeerId, Fixes> {
    map p | p in ps && p in info :: Corrections(OwnIn(info[p], tables, p), TableFor(tables, GroupOwner))
  }

  lemma StageAll(t: Tree, tables: Tables, ps: set<PeerId>, info: map<PeerId, Peer>)
    requires Tidy(t) && Stores(t, tables)
    ensures Stage(ps, info, tables, t.Keys) == AllCorrections(ps, info, tables)
  {
    forall p | p in ps && p in info
      ensures Stage(ps, info, tables, t.Keys)[p] == AllCorrections(ps, info, tables)[p]
    {
      WithinAll(t, tables, p, info[p]);
    }
  }

  /** The walk so far: visited nodes lost the given owners, and the empty ones among them are noted. */
  ghost predicate Visited(t: Tree, os: set<Owner>, r: Tree, todo: set<Prefix>, done: set<Prefix>, emptyNodes: set<Prefix>) {
    && (forall prefix :: prefix in t <==> prefix in todo || prefix in done)
    && (forall prefix :: !(prefix in todo && prefix in done))
    && (forall prefix :: prefix in r <==> prefix in t)
    && (forall prefix | prefix in t :: r[prefix] == if prefix in todo then t[prefix] else t[prefix] - os)
    && (forall prefix :: prefix in emptyNodes <==> prefix in done && prefix in t && t[prefix] - os == map[])
  }

  lemma VisitedNext(t: Tree, os: set<Owner>, r: Tree, todo: set<Prefix>, done: set<Prefix>, emptyNodes: set<Prefix>,
                    prefix: Prefix)
    requires Visited(t, os, r, todo, done, emptyNodes) && prefix in todo
    ensures Visited(t, os, r[prefix := t[prefix] - os], todo - {prefix}, done + {prefix},
                    if t[prefix] - os == map[] then emptyNodes + {prefix} else emptyNodes)
  {
  }

  lemma VisitedAll(t: Tree, os: set<Owner>, r: Tree, done: set<Prefix>, emptyNodes: set<Prefix>)
    requires Visited(t, os, r, {}, done, emptyNodes)
    ensures done == t.Keys && r - emptyNodes == WithoutOwners(t, os)
  {
  }
}
