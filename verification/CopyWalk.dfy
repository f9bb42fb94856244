/**
  Moving and splitting as they are carried out: a walk over the source tree that copies,
  node by node, each owner's paths into the target tree and erases the moved owners.
 */
module CopyWalk {
  import opened Types
  import opened Advertised
  import opened GroupState
  import opened OwnerTree
  import opened CollapseWalk

  /** The routes of some paths at one prefix. */
  function TableAt(prefix: Prefix, paths: Paths): Table {
    map k | k in KeysAt(prefix, paths.Keys) :: paths[k.pathId]
  }

  lemma TableAtHas(prefix: Prefix, paths: Paths, k: Key)
    ensures k in TableAt(prefix, paths) <==> k.prefix == prefix && k.pathId in paths
  {
    assert k == Key(k.prefix, k.pathId);
  }

  lemma TableAtMore(prefix: Prefix, paths: Paths, id: PathId, e: Entry)
    ensures TableAt(prefix, paths[id := e]) == TableAt(prefix, paths)[Key(prefix, id) := e]
  {
    forall k
      ensures k in TableAt(prefix, paths[id := e]) <==> k in TableAt(prefix, paths) || k == Key(prefix, id)
    {
      TableAtHas(prefix, paths, k);
      TableAtHas(prefix, paths[id := e], k);
    }
  }

  // ---------------------------------------------------------------- one node

  /** `after` is `before` with a table added for one owner. */
  ghost predicate Added(before: Tables, after: Tables, o: Owner, table: Table) {
    && TableFor(after, o) == TableFor(before, o) + table
    && (forall o' | o' != o :: TableFor(after, o') == TableFor(before, o'))
  }

  lemma MergeUpdate(a: Table, b: Table, k: Key, e: Entry)
    ensures a + b[k := e] == (a + b)[k := e]
  {
  }

  lemma AddedMore(before: Tables, after: Tables, o: Owner, table: Table, k: Key, e: Entry)
    requires Added(before, after, o, table)
    ensures Added(before, after[o := TableFor(after, o)[k := e]], o, table[k := e])
  {
    MergeUpdate(TableFor(before, o), table, k, e);
  }

  lemma AddedNothing(before: Tables, o: Owner, prefix: Prefix)
    ensures Added(before, before, o, TableAt(prefix, map[]))
  {
    assert TableFor(before, o) + TableAt(prefix, map[]) == TableFor(before, o);
  }

  /** Copy one owner's paths at one prefix. */
  method CopyPaths(t: Tree, prefix: Prefix, o: Owner, paths: Paths, ghost tables: Tables)
    returns (r: Tree, ghost tables': Tables)
    requires Tidy(t) && Stores(t, tables)
    ensures Tidy(r) && Stores(r, tables')
    ensures Added(tables, tables', o, TableAt(prefix, paths))
  {
    r, tables' := t, tables;
    var todo := paths.Keys;
    ghost var done: Paths := map[];
    AddedNothing(tables, o, prefix);
    while todo != {}
      invariant forall id :: id in paths <==> id in todo || id in done
      invariant forall id | id in done :: id !in todo && done[id] == paths[id]
      invariant Added(tables, tables', o, TableAt(prefix, done))
      invariant Tidy(r) && Stores(r, tables')
    {
      var id :| id in todo;
      PutStores(r, tables', o, Key(prefix, id), paths[id]);
      r := Put(r, o, Key(prefix, id), paths[id]);
      AddedMore(tables, tables', o, TableAt(prefix, done), Key(prefix, id), paths[id]);
      TableAtMore(prefix, done, id, paths[id]);
      tables' := tables'[o := TableFor(tables', o)[Key(prefix, id) := paths[id]]];
      todo, done := todo - {id}, done[id := paths[id]];
    }
    assert done == paths;
  }

  /** `after` is `before` with a batch of paths added at one prefix. */
  ghost predicate BatchAdded(before: Tables, after: Tables, prefix: Prefix, batch: map<Owner, Paths>) {
    forall o :: TableFor(after, o)
      == if o in batch then TableFor(before, o) + TableAt(prefix, batch[o]) else TableFor(before, o)
  }

  lemma BatchMore(before: Tables, now: Tables, after: Tables, prefix: Prefix, done: map<Owner, Paths>, o: Owner, paths: Paths)
    requires o !in done && BatchAdded(before, now, prefix, done) && Added(now, after, o, TableAt(prefix, paths))
    ensures BatchAdded(before, after, prefix, done[o := paths])
  {
  }

  /** Copy the paths of several owners at one prefix. */
  method CopyNode(t: Tree, prefix: Prefix, batch: map<Owner, Paths>, ghost tables: Tables)
    returns (r: Tree, ghost tables': Tables)
    requires Tidy(t) && Stores(t, tables)
    ensures Tidy(r) && Stores(r, tables')
    ensures BatchAdded(tables, tables', prefix, batch)
  {
    r, tables' := t, tables;
    var todo := batch.Keys;
    ghost var done: map<Owner, Paths> := map[];
    while todo != {}
      invariant forall o :: o in batch <==> o in todo || o in done
      invariant forall o | o in done :: o !in todo && done[o] == batch[o]
      invariant BatchAdded(tables, tables', prefix, done)
      invariant Tidy(r) && Stores(r, tables')
    {
      var o :| o in todo;
      ghost var now := tables';
      r, tables' := CopyPaths(r, prefix, o, batch[o], tables');
      BatchMore(tables, now, tables', prefix, done, o, batch[o]);
      todo, done := todo - {o}, done[o := batch[o]];
    }
    assert done == batch;
  }

  // ---------------------------------------------------------------- plans

  /** The part of a table at some prefixes. */
  ghost function Restrict(table: Table, prefixes: set<Prefix>): Table {
    map k | k in table && k.prefix in prefixes :: table[k]
  }

  /** `after` is `before` once a plan, a table per owner, is copied at some prefixes. */
  ghost predicate PlanAdded(before: Tables, after: Tables, plan: Tables, done: set<Prefix>) {
    forall o :: TableFor(after, o)
      == if o in plan then TableFor(before, o) + Restrict(plan[o], done) else TableFor(before, o)
  }

  /** A batch is what the plan says about its prefix. */
  ghost predicate Follows(batch: map<Owner, Paths>, plan: Tables, prefix: Prefix) {
    && (forall o :: o in batch <==> o in plan)
    && (forall o | o in batch :: TableAt(prefix, batch[o]) == Restrict(plan[o], {prefix}))
  }

  lemma RestrictMore(table: Table, plan: Table, done: set<Prefix>, prefix: Prefix)
    ensures table + Restrict(plan, done) + Restrict(plan, {prefix}) == table + Restrict(plan, done + {prefix})
  {
  }

  lemma PlanMore(before: Tables, now: Tables, after: Tables, plan: Tables, done: set<Prefix>, prefix: Prefix,
                 batch: map<Owner, Paths>)
    requires PlanAdded(before, now, plan, done) && BatchAdded(now, after, prefix, batch) && Follows(batch, plan, prefix)
    ensures PlanAdded(before, after, plan, done + {prefix})
  {
    forall o
      ensures TableFor(after, o)
        == if o in plan then TableFor(before, o) + Restrict(plan[o], done + {prefix}) else TableFor(before, o)
    {
      if o in plan { RestrictMore(TableFor(before, o), plan[o], done, prefix); }
    }
  }

  lemma PlanNothing(before: Tables, plan: Tables)
    ensures PlanAdded(before, before, plan, {})
  {
    forall o | o in plan
      ensures TableFor(before, o) + Restrict(plan[o], {}) == TableFor(before, o)
    {
    }
  }

  /** Once every node is done the plan is. */
  lemma PlanAll(before: Tables, after: Tables, plan: Tables, t: Tree)
    requires PlanAdded(before, after, plan, t.Keys)
    requires forall o, k | o in plan && k in plan[o] :: k.prefix in t
    ensures forall o | o in plan :: TableFor(after, o) == TableFor(before, o) + plan[o]
    ensures forall o | o !in plan :: TableFor(after, o) == TableFor(before, o)
  {
    forall o | o in plan ensures Restrict(plan[o], t.Keys) == plan[o] { }
  }

  // ---------------------------------------------------------------- what is copied

  /**
    A move copies what each peer, given with its detach version, is showing; a split copies
    the group's entries and the peers' own ones.
   */
  datatype Copying = Showing(versions: map<PeerId, nat>) | Stored(ps: set<PeerId>)

  function MovedPeers(c: Copying): set<PeerId> {
    match c
    case Showing(versions) => versions.Keys
    case Stored(ps) => ps
  }

  function CopiedOwners(c: Copying): set<Owner> {
    match c
    case Showing(versions) => OwnersOf(versions.Keys)
    case Stored(ps) => OwnersOf(ps) + {GroupOwner}
  }

  function VisiblePaths(own: Paths, group: Paths, detachVersion: nat): Paths {
    own + (map id | id in group && IsEntryShared(id in own, detachVersion, group[id].version) :: group[id])
  }

  function PathsFor(c: Copying, om: OwnerMap, o: Owner): Paths {
    if c.Showing? && o.PeerOwner? && o.p in c.versions
    then VisiblePaths(PathsAt(om, o), PathsAt(om, GroupOwner), c.versions[o.p])
    else PathsAt(om, o)
  }

  function BatchFor(c: Copying, om: OwnerMap): map<Owner, Paths> {
    map o | o in CopiedOwners(c) :: PathsFor(c, om, o)
  }

  function PlannedTable(c: Copying, tables: Tables, o: Owner): Table {
    if c.Showing? && o.PeerOwner? && o.p in c.versions
    then View(TableFor(tables, o), TableFor(tables, GroupOwner), c.versions[o.p])
    else TableFor(tables, o)
  }

  function PlanFor(c: Copying, tables: Tables): Tables {
    map o | o in CopiedOwners(c) :: PlannedTable(c, tables, o)
  }

  lemma PlannedAt(c: Copying, t: Tree, tables: Tables, o: Owner, prefix: Prefix, k: Key)
    requires Stores(t, tables) && prefix in t
    ensures
      var a, b := TableAt(prefix, PathsFor(c, t[prefix], o)), Restrict(PlannedTable(c, tables, o), {prefix});
      (k in a <==> k in b) && (k in a ==> a[k] == b[k])
  {
    TableAtHas(prefix, PathsFor(c, t[prefix], o), k);
    assert Has(t, o, k) <==> k in TableFor(tables, o);
    assert Has(t, GroupOwner, k) <==> k in TableFor(tables, GroupOwner);
  }

  lemma BatchFollows(c: Copying, t: Tree, tables: Tables, prefix: Prefix)
    requires Stores(t, tables) && prefix in t
    ensures Follows(BatchFor(c, t[prefix]), PlanFor(c, tables), prefix)
  {
    forall o | o in CopiedOwners(c)
      ensures TableAt(prefix, PathsFor(c, t[prefix], o)) == Restrict(PlannedTable(c, tables, o), {prefix})
    {
      forall k
        ensures
          var a, b := TableAt(prefix, PathsFor(c, t[prefix], o)), Restrict(PlannedTable(c, tables, o), {prefix});
          (k in a <==> k in b) && (k in a ==> a[k] == b[k])
      {
        PlannedAt(c, t, tables, o, prefix, k);
      }
    }
  }

  lemma PlanWithin(c: Copying, t: Tree, tables: Tables)
    requires Stores(t, tables)
    ensures forall o, k | o in PlanFor(c, tables) && k in PlanFor(c, tables)[o] :: k.prefix in t
  {
    forall o, k | o in PlanFor(c, tables) && k in PlanFor(c, tables)[o]
      ensures k.prefix in t
    {
      assert Has(t, o, k) || Has(t, GroupOwner, k);
    }
  }

  // ---------------------------------------------------------------- the walk

  /** Copy into the target tree and erase the moved peers' own entries from the source tree. */
  method CopyEntries(t: Tree, c: Copying, target: Tree, ghost tables: Tables, ghost targetTables: Tables)
    returns (left: Tree, r: Tree, ghost after: Tables)
    requires Stores(t, tables) && Tidy(target) && Stores(target, targetTables)
    ensures left == WithoutOwners(t, OwnersOf(MovedPeers(c)))
    ensures Tidy(r) && Stores(r, after) && PlanAdded(targetTables, after, PlanFor(c, tables), t.Keys)
  {
    left, r, after := t, target, targetTables;
    var os := OwnersOf(MovedPeers(c));
    ghost var plan := PlanFor(c, tables);
    var todo, emptyNodes := t.Keys, {};
    ghost var done: set<Prefix> := {};
    PlanNothing(targetTables, plan);
    while todo != {}
      invariant Visited(t, os, left, todo, done, emptyNodes)
      invariant Tidy(r) && Stores(r, after) && PlanAdded(targetTables, after, plan, done)
    {
      var prefix :| prefix in todo;
      ghost var now := after;
      r, after := CopyNode(r, prefix, BatchFor(c, left[prefix]), after);
      BatchFollows(c, t, tables, prefix);
      PlanMore(targetTables, now, after, plan, done, prefix, BatchFor(c, t[prefix]));
      VisitedNext(t, os, left, todo, done, emptyNodes, prefix);
      var ownerMap := left[prefix] - os;
      left := left[prefix := ownerMap];
      if ownerMap == map[] {
        emptyNodes := emptyNodes + {prefix};
      }
      todo, done := todo - {prefix}, done + {prefix};
    }
    VisitedAll(t, os, left, done, emptyNodes);
    left := left - emptyNodes;
  }
}
