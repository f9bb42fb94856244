/** The stored RIB-OUT as an object, updated in place; `tables` is what it stands for. */
module RibOutTree {
  import opened Types
  import opened PackingList
  import opened Advertised
  import opened GroupState
  import opened OwnerTree
  import opened CollapseWalk
  import opened CopyWalk
  import opened CleanUp
  import opened Counts
  import opened Teardown

  /** An owner's table once the detached peers, given with their detach versions, got their copy of `k`. */
  function ClonedFor(tables: Tables, detached: map<PeerId, nat>, k: Key, o: Owner): Table {
    if o.PeerOwner? && o.p in detached
    then Cloned(TableFor(tables, o), TableFor(tables, GroupOwner), detached[o.p], k)
    else TableFor(tables, o)
  }

  /** In every node re-key the peer's paths to the group, then erase the nodes left empty. */
  method PromoteEntriesIn(t: Tree, o: Owner) returns (r: Tree)
    requires o.PeerOwner?
    ensures r == PromotedTree(t, o)
  {
    r := t;
    var todo, emptyNodes := t.Keys, {};
    while todo != {}
      invariant todo <= t.Keys && r.Keys == t.Keys
      invariant forall prefix | prefix in t ::
        r[prefix] == if prefix in todo then t[prefix] else PromotedNode(t[prefix], o)
      invariant forall prefix ::
        prefix in emptyNodes <==> prefix in t && prefix !in todo && PromotedNode(t[prefix], o) == map[]
    {
      var prefix :| prefix in todo;
      var ownerMap := r[prefix];
      if o in ownerMap {
        var promoted := ownerMap[o];
        ownerMap := ownerMap - {o} - {GroupOwner};
        ownerMap := ownerMap[GroupOwner := promoted];
      } else {
        ownerMap := ownerMap - {GroupOwner};
      }
      assert ownerMap == PromotedNode(t[prefix], o);
      r := r[prefix := ownerMap];
      if ownerMap == map[] {
        emptyNodes := emptyNodes + {prefix};
      }
      todo := todo - {prefix};
    }
    r := r - emptyNodes;
  }

  class AdjRibTree {
    var tree: Tree
    ghost var tables: Tables

    ghost predicate Valid()
      reads this
    {
      Tidy(tree) && Stores(tree, tables)
    }

    constructor ()
      ensures Valid() && tables == map[]
    {
      tree := map[];
      tables := map[];
    }

    method Find(o: Owner, k: Key) returns (e: Option<Entry>)
      requires Valid()
      ensures e == if k in TableFor(tables, o) then Some(TableFor(tables, o)[k]) else None
    {
      if Has(tree, o, k) {
        e := Some(EntryOf(tree, o, k));
      } else {
        e := None;
      }
    }

    method Add(o: Owner, k: Key, e: Entry)
      requires Valid()
      modifies this
      ensures Valid() && tables == old(tables)[o := TableFor(old(tables), o)[k := e]]
    {
      PutStores(tree, tables, o, k, e);
      tree, tables := Put(tree, o, k, e), tables[o := TableFor(tables, o)[k := e]];
    }

    method Delete(o: Owner, k: Key)
      requires Valid()
      modifies this
      ensures Valid() && tables == old(tables)[o := TableFor(old(tables), o) - {k}]
    {
      EraseStores(tree, tables, o, k);
      tree, tables := Erase(tree, o, k), tables[o := TableFor(tables, o) - {k}];
    }

    /** Copy the group's entry at `k` to every detached peer that still shares it. */
    method LazyClone(k: Key, detached: map<PeerId, nat>)
      requires Valid()
      modifies this
      ensures Valid()
      ensures forall o :: TableFor(tables, o) == ClonedFor(old(tables), detached, k, o)
    {
      var groupEntry := Find(GroupOwner, k);
      if groupEntry.None? {
        return;
      }
      ghost var before := tables;
      var todo := detached.Keys;
      while todo != {}
        invariant Valid() && todo <= detached.Keys
        invariant forall o ::
          TableFor(tables, o)
          == if o.PeerOwner? && o.p in todo then TableFor(before, o) else ClonedFor(before, detached, k, o)
      {
        var p :| p in todo;
        var own := Find(PeerOwner(p), k);
        if IsEntryShared(own.Some?, detached[p], groupEntry.value.version) {
          Add(PeerOwner(p), k, groupEntry.value);
        }
        todo := todo - {p};
      }
    }

    /** Erase a departing detached peer's entries and lower its count by what it advertised. */
    method CleanUpPeer(p: PeerId, v: nat, count: nat) returns (r: nat)
      requires Valid()
      modifies this
      ensures Valid() && tables == old(tables) - {PeerOwner(p)}
      ensures r == Lowered(count, |Adv(View(TableFor(old(tables), PeerOwner(p)), TableFor(old(tables), GroupOwner), v))|)
    {
      WithoutOwnersStores(tree, tables, {PeerOwner(p)});
      tree, r := CleanUpPeerRibOut(tree, p, v, count, tables);
      tables := tables - {PeerOwner(p)};
    }

    /** Fold the candidates' entries back into the group's, with the corrections each one needs. */
    method Collapse(ps: set<PeerId>, info: map<PeerId, Peer>)
      returns (packings: map<PeerId, Packing>, failed: set<PeerId>)
      requires Valid() && ps <= info.Keys
      modifies this
      ensures Valid() && tables == old(tables) - OwnersOf(ps)
      ensures Queued(ps, packings, AllCorrections(ps, info, old(tables)), failed)
    {
      WithoutOwnersStores(tree, tables, OwnersOf(ps));
      tree, packings, failed := CollapseEntries(tree, ps, info, tables);
      tables := tables - OwnersOf(ps);
    }

    /** Make one peer's entries the group's, dropping those the group had. */
    method PromoteEntries(p: PeerId)
      requires Valid()
      modifies this
      ensures Valid() && tables == PromotedTables(old(tables), PeerOwner(p))
    {
      PromotedStores(tree, tables, p);
      tree := PromoteEntriesIn(tree, PeerOwner(p));
      tables := PromotedTables(tables, PeerOwner(p));
    }

    /** Copy into another tree, and drop the moved peers' own entries from this one. */
    method CopyTo(c: Copying, target: AdjRibTree)
      requires Valid() && target.Valid() && target != this
      modifies this, target
      ensures Valid() && tables == old(tables) - OwnersOf(MovedPeers(c))
      ensures target.Valid()
      ensures forall o | o in CopiedOwners(c) ::
        TableFor(target.tables, o) == TableFor(old(target.tables), o) + PlannedTable(c, old(tables), o)
      ensures forall o | o !in CopiedOwners(c) :: TableFor(target.tables, o) == TableFor(old(target.tables), o)
    {
      ghost var after;
      WithoutOwnersStores(tree, tables, OwnersOf(MovedPeers(c)));
      PlanWithin(c, tree, tables);
      ghost var t, plan := tree, PlanFor(c, tables);
      tree, target.tree, after := CopyEntries(tree, c, target.tree, tables, target.tables);
      PlanAll(target.tables, after, plan, t);
      tables, target.tables := tables - OwnersOf(MovedPeers(c)), after;
    }

    /** Move peers, given with their detach versions: each takes along everything it is showing. */
    method MoveMaterialized(versions: map<PeerId, nat>, target: AdjRibTree)
      requires Valid() && target.Valid() && target != this
      requires forall p | p in versions :: TableFor(target.tables, PeerOwner(p)) == map[]
      modifies this, target
      ensures Valid() && target.Valid()
      ensures forall p | p in versions :: TableFor(tables, PeerOwner(p)) == map[]
      ensures forall p | p in versions ::
        TableFor(target.tables, PeerOwner(p))
        == View(TableFor(old(tables), PeerOwner(p)), TableFor(old(tables), GroupOwner), versions[p])
      ensures forall o | o !in OwnersOf(versions.Keys) ::
        TableFor(tables, o) == TableFor(old(tables), o) && TableFor(target.tables, o) == TableFor(old(target.tables), o)
    {
      CopyTo(Showing(versions), target);
      forall p | p in versions ensures PeerOwner(p) in OwnersOf(versions.Keys) { }
    }

    /** Split peers off: the target gets the group's entries too, and this tree keeps them. */
    method CopyShared(ps: set<PeerId>, target: AdjRibTree)
      requires Valid() && target.Valid() && target != this && target.tables == map[]
      modifies this, target
      ensures Valid() && target.Valid()
      ensures TableFor(target.tables, GroupOwner) == TableFor(old(tables), GroupOwner)
      ensures forall p ::
        TableFor(target.tables, PeerOwner(p)) == if p in ps then TableFor(old(tables), PeerOwner(p)) else map[]
      ensures TableFor(tables, GroupOwner) == TableFor(old(tables), GroupOwner)
      ensures forall p ::
        TableFor(tables, PeerOwner(p)) == if p in ps then map[] else TableFor(old(tables), PeerOwner(p))
    {
      CopyTo(Stored(ps), target);
      forall p ensures PeerOwner(p) in OwnersOf(ps) <==> p in ps { }
    }
  }
}
