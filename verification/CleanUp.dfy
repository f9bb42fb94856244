/**
  Settling a departing detached peer: one walk erases its own entries and lowers its count
  once for every route it advertised, own and shared alike.
 */
module CleanUp {
  import opened Types
  import opened Advertised
  import opened GroupState
  import opened Counts
  import opened OwnerTree
  import opened CollapseWalk
  import opened CopyWalk
  import opened Teardown

  /** The advertised routes of a view at some prefixes. */
  function AdvAtPrefixes(view: Table, prefixes: set<Prefix>): set<Key> {
    set k | k in Adv(view) && k.prefix in prefixes
  }

  lemma {:induction false} KeysAtCard(prefix: Prefix, ids: set<PathId>)
    ensures |KeysAt(prefix, ids)| == |ids|
    decreases ids
  {
    if ids != {} {
      var id :| id in ids;
      KeysAtCard(prefix, ids - {id});
      assert KeysAt(prefix, ids) == KeysAt(prefix, ids - {id}) + {Key(prefix, id)};
      assert |ids| == |ids - {id}| + 1;
    }
  }

  function SharedPaths(own: Paths, group: Paths, detachVersion: nat): Paths {
    map id | id in group && IsEntryShared(id in own, detachVersion, group[id].version) :: group[id]
  }

  lemma DisjointCard(a: set<PathId>, b: set<PathId>, c: set<PathId>)
    requires c == a + b && a !! b
    ensures |c| == |a| + |b|
  {
  }

  /** Own and shared paths are different paths. */
  lemma VisibleCard(own: Paths, group: Paths, v: nat)
    ensures |AdvPaths(VisiblePaths(own, group, v))| == |AdvPaths(SharedPaths(own, group, v))| + |AdvPaths(own)|
  {
    var a, b, c := AdvPaths(SharedPaths(own, group, v)), AdvPaths(own), AdvPaths(VisiblePaths(own, group, v));
    forall id
      ensures id in c <==> id in a || id in b
      ensures !(id in a && id in b)
    {
    }
    assert c == a + b;
    DisjointCard(a, b, c);
  }

  lemma AdvNode(t: Tree, tables: Tables, p: PeerId, v: nat, prefix: Prefix, k: Key)
    requires Stores(t, tables) && prefix in t
    ensures
      var view := View(TableFor(tables, PeerOwner(p)), TableFor(tables, GroupOwner), v);
      var paths := VisiblePaths(PathsAt(t[prefix], PeerOwner(p)), PathsAt(t[prefix], GroupOwner), v);
      k in KeysAt(prefix, AdvPaths(paths)) <==> k in Adv(view) && k.prefix == prefix
  {
    var c, o := Showing(map[p := v]), PeerOwner(p);
    PlannedAt(c, t, tables, o, prefix, k);
    TableAtHas(prefix, PathsFor(c, t[prefix], o), k);
    assert k == Key(k.prefix, k.pathId);
  }

  lemma AdvMoreNode(t: Tree, tables: Tables, p: PeerId, v: nat, done: set<Prefix>, prefix: Prefix)
    requires Stores(t, tables) && prefix in t && prefix !in done
    ensures
      var view := View(TableFor(tables, PeerOwner(p)), TableFor(tables, GroupOwner), v);
      var paths := VisiblePaths(PathsAt(t[prefix], PeerOwner(p)), PathsAt(t[prefix], GroupOwner), v);
      |AdvAtPrefixes(view, done + {prefix})| == |AdvAtPrefixes(view, done)| + |AdvPaths(paths)|
  {
    var view := View(TableFor(tables, PeerOwner(p)), TableFor(tables, GroupOwner), v);
    var paths := VisiblePaths(PathsAt(t[prefix], PeerOwner(p)), PathsAt(t[prefix], GroupOwner), v);
    var a, b, c := AdvAtPrefixes(view, done), KeysAt(prefix, AdvPaths(paths)), AdvAtPrefixes(view, done + {prefix});
    forall k
      ensures k in c <==> k in a || k in b
      ensures !(k in a && k in b)
    {
      AdvNode(t, tables, p, v, prefix, k);
    }
    assert c == a + b;
    KeysAtCard(prefix, AdvPaths(paths));
  }

  lemma AdvAllNodes(t: Tree, tables: Tables, p: PeerId, v: nat)
    requires Stores(t, tables)
    ensures
      var view := View(TableFor(tables, PeerOwner(p)), TableFor(tables, GroupOwner), v);
      AdvAtPrefixes(view, t.Keys) == Adv(view)
  {
    var view := View(TableFor(tables, PeerOwner(p)), TableFor(tables, GroupOwner), v);
    forall k | k in Adv(view)
      ensures k.prefix in t
    {
      assert Has(t, PeerOwner(p), k) || Has(t, GroupOwner, k);
    }
  }

  /** Settle one node: the shared paths first, while the peer's own ones still tell them apart. */
  method SettleNode(ownerMap: OwnerMap, p: PeerId, v: nat, count: nat) returns (r: nat)
    ensures r == Lowered(count,
      |AdvPaths(VisiblePaths(PathsAt(ownerMap, PeerOwner(p)), PathsAt(ownerMap, GroupOwner), v))|)
  {
    var own, group := PathsAt(ownerMap, PeerOwner(p)), PathsAt(ownerMap, GroupOwner);
    VisibleCard(own, group, v);
    r := SettlePaths(SharedPaths(own, group, v), count);
    r := SettlePaths(own, r);
  }

  /** Erase a departing peer's entries and lower its count by exactly what it advertised. */
  method CleanUpPeerRibOut(t: Tree, p: PeerId, v: nat, count: nat, ghost tables: Tables) returns (left: Tree, r: nat)
    requires Stores(t, tables)
    ensures left == WithoutOwners(t, {PeerOwner(p)})
    ensures
      var advertised := |Adv(View(TableFor(tables, PeerOwner(p)), TableFor(tables, GroupOwner), v))|;
      r == Lowered(count, advertised) && (count == advertised ==> r == 0)
  {
    ghost var view := View(TableFor(tables, PeerOwner(p)), TableFor(tables, GroupOwner), v);
    left, r := t, count;
    var todo, emptyNodes, os := t.Keys, {}, {PeerOwner(p)};
    ghost var done: set<Prefix> := {};
    assert AdvAtPrefixes(view, {}) == {};
    while todo != {}
      invariant Visited(t, os, left, todo, done, emptyNodes)
      invariant r == Lowered(count, |AdvAtPrefixes(view, done)|)
    {
      var prefix :| prefix in todo;
      r := SettleNode(left[prefix], p, v, r);
      AdvMoreNode(t, tables, p, v, done, prefix);
      VisitedNext(t, os, left, todo, done, emptyNodes, prefix);
      var ownerMap := left[prefix] - os;
      left := left[prefix := ownerMap];
      if ownerMap == map[] {
        emptyNodes := emptyNodes + {prefix};
      }
      todo, done := todo - {prefix}, done + {prefix};
    }
    VisitedAll(t, os, left, done, emptyNodes);
    AdvAllNodes(t, tables, p, v);
    left := left - emptyNodes;
  }
}
