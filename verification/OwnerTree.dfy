/**
  The RIB-OUT tree as it is stored: one node per prefix, in it one map of paths per owner,
  the owner being the group or one of its peers.  Walks over the tree collect the nodes
  they empty and erase those at the end.
 */
module OwnerTree {
  import opened Types
  import opened Advertised

  datatype Owner = GroupOwner | PeerOwner(p: PeerId)

  type Paths = map<PathId, Entry>

  type OwnerMap = map<Owner, Paths>

  type Tree = map<Prefix, OwnerMap>

  type Tables = map<Owner, Table>

  /** No owner without a path, and no node without an owner. */
  ghost predicate TidyNode(om: OwnerMap) {
    forall o | o in om :: om[o] != map[]
  }

  ghost predicate Tidy(t: Tree) {
    forall prefix | prefix in t :: TidyNode(t[prefix]) && t[prefix] != map[]
  }

  predicate Has(t: Tree, o: Owner, k: Key) {
    k.prefix in t && o in t[k.prefix] && k.pathId in t[k.prefix][o]
  }

  function EntryOf(t: Tree, o: Owner, k: Key): Entry
    requires Has(t, o, k)
  {
    t[k.prefix][o][k.pathId]
  }

  function TableFor(tables: Tables, o: Owner): Table {
    if o in tables then tables[o] else map[]
  }

  /** The tree stores exactly one table per owner. */
  ghost predicate Stores(t: Tree, tables: Tables) {
    forall o, k {:trigger Has(t, o, k)} ::
      && (Has(t, o, k) <==> k in TableFor(tables, o))
      && (Has(t, o, k) ==> EntryOf(t, o, k) == TableFor(tables, o)[k])
  }

  // ---------------------------------------------------------------- one entry

  function PathsAt(om: OwnerMap, o: Owner): Paths {
    if o in om then om[o] else map[]
  }

  function NodeAt(t: Tree, prefix: Prefix): OwnerMap {
    if prefix in t then t[prefix] else map[]
  }

  function Put(t: Tree, o: Owner, k: Key, e: Entry): Tree {
    var om := NodeAt(t, k.prefix);
    t[k.prefix := om[o := PathsAt(om, o)[k.pathId := e]]]
  }

  /** Erase one path, then the owner if it has none left, then the node if it has none left. */
  function Erase(t: Tree, o: Owner, k: Key): Tree {
    if !Has(t, o, k) then t
    else
      var paths := t[k.prefix][o] - {k.pathId};
      var om := if paths == map[] then t[k.prefix] - {o} else t[k.prefix][o := paths];
      if om == map[] then t - {k.prefix} else t[k.prefix := om]
  }

  lemma PutAt(t: Tree, o: Owner, k: Key, e: Entry, o': Owner, j: Key)
    ensures Has(Put(t, o, k, e), o', j) <==> Has(t, o', j) || (o' == o && j == k)
    ensures Has(Put(t, o, k, e), o', j) ==>
      EntryOf(Put(t, o, k, e), o', j) == if o' == o && j == k then e else EntryOf(t, o', j)
  {
  }

  lemma PutTidy(t: Tree, o: Owner, k: Key, e: Entry)
    requires Tidy(t)
    ensures Tidy(Put(t, o, k, e))
  {
    assert k.pathId in Put(t, o, k, e)[k.prefix][o];
  }

  lemma PutStores(t: Tree, tables: Tables, o: Owner, k: Key, e: Entry)
    requires Tidy(t) && Stores(t, tables)
    ensures Tidy(Put(t, o, k, e))
    ensures Stores(Put(t, o, k, e), tables[o := TableFor(tables, o)[k := e]])
  {
    PutTidy(t, o, k, e);
    var t', tables' := Put(t, o, k, e), tables[o := TableFor(tables, o)[k := e]];
    forall o', j
      ensures Has(t', o', j) <==> j in TableFor(tables', o')
      ensures Has(t', o', j) ==> EntryOf(t', o', j) == TableFor(tables', o')[j]
    {
      PutAt(t, o, k, e, o', j);
      assert Has(t, o', j) <==> j in TableFor(tables, o');
    }
  }

  lemma EraseAt(t: Tree, o: Owner, k: Key, o': Owner, j: Key)
    ensures Has(Erase(t, o, k), o', j) <==> Has(t, o', j) && !(o' == o && j == k)
    ensures Has(Erase(t, o, k), o', j) ==> EntryOf(Erase(t, o, k), o', j) == EntryOf(t, o', j)
  {
    if Has(t, o, k) && Has(t, o', j) && j.prefix == k.prefix && !(o' == o && j == k) {
      var paths := t[k.prefix][o] - {k.pathId};
      if o' == o {
        assert j.pathId in paths;
        assert o in t[k.prefix][o := paths];
      } else {
        assert o' in (if paths == map[] then t[k.prefix] - {o} else t[k.prefix][o := paths]);
      }
    }
  }

  lemma EraseTidy(t: Tree, o: Owner, k: Key)
    requires Tidy(t)
    ensures Tidy(Erase(t, o, k))
  {
  }

  lemma EraseStores(t: Tree, tables: Tables, o: Owner, k: Key)
    requires Tidy(t) && Stores(t, tables)
    ensures Tidy(Erase(t, o, k))
    ensures Stores(Erase(t, o, k), tables[o := TableFor(tables, o) - {k}])
  {
    EraseTidy(t, o, k);
    var t', tables' := Erase(t, o, k), tables[o := TableFor(tables, o) - {k}];
    forall o', j
      ensures Has(t', o', j) <==> j in TableFor(tables', o')
      ensures Has(t', o', j) ==> EntryOf(t', o', j) == TableFor(tables', o')[j]
    {
      EraseAt(t, o, k, o', j);
      assert Has(t, o', j) <==> j in TableFor(tables, o');
    }
  }

  // ---------------------------------------------------------------- walks over all nodes

  /** The tree with its empty nodes erased. */
  function Pruned(t: Tree): Tree {
    map prefix | prefix in t && t[prefix] != map[] :: t[prefix]
  }

  function WithoutOwners(t: Tree, os: set<Owner>): Tree {
    Pruned(map prefix | prefix in t :: t[prefix] - os)
  }


  lemma WithoutOwnersAt(t: Tree, os: set<Owner>, o: Owner, j: Key)
    ensures Has(WithoutOwners(t, os), o, j) <==> Has(t, o, j) && o !in os
    ensures Has(WithoutOwners(t, os), o, j) ==> EntryOf(WithoutOwners(t, os), o, j) == EntryOf(t, o, j)
  {
    if Has(t, o, j) && o !in os {
      assert o in t[j.prefix] - os;
    }
  }

  lemma WithoutOwnersTidy(t: Tree, os: set<Owner>)
    requires Tidy(t)
    ensures Tidy(WithoutOwners(t, os))
  {
  }

  lemma WithoutOwnersStores(t: Tree, tables: Tables, os: set<Owner>)
    requires Tidy(t) && Stores(t, tables)
    ensures Tidy(WithoutOwners(t, os)) && Stores(WithoutOwners(t, os), tables - os)
  {
    WithoutOwnersTidy(t, os);
    var t' := WithoutOwners(t, os);
    forall o, j
      ensures Has(t', o, j) <==> j in TableFor(tables - os, o)
      ensures Has(t', o, j) ==> EntryOf(t', o, j) == TableFor(tables - os, o)[j]
    {
      WithoutOwnersAt(t, os, o, j);
      assert Has(t, o, j) <==> j in TableFor(tables, o);
    }
  }

  /** Re-key one owner's paths of a node to the group, dropping the group's. */
  function PromotedNode(om: OwnerMap, o: Owner): OwnerMap {
    if o in om then (om - {o})[GroupOwner := om[o]] else om - {GroupOwner}
  }

  function PromotedTree(t: Tree, o: Owner): Tree {
    Pruned(map prefix | prefix in t :: PromotedNode(t[prefix], o))
  }

  lemma PromotedAt(t: Tree, p: PeerId, o: Owner, j: Key)
    ensures
      var from := if o == GroupOwner then PeerOwner(p) else o;
      var t' := PromotedTree(t, PeerOwner(p));
      (Has(t', o, j) <==> Has(t, from, j) && o != PeerOwner(p))
      && (Has(t', o, j) ==> EntryOf(t', o, j) == EntryOf(t, from, j))
  {
    var from := if o == GroupOwner then PeerOwner(p) else o;
    if Has(t, from, j) && o != PeerOwner(p) {
      assert o in PromotedNode(t[j.prefix], PeerOwner(p));
    }
  }

  lemma PromotedTidy(t: Tree, o: Owner)
    requires Tidy(t)
    ensures Tidy(PromotedTree(t, o))
  {
  }

  function PromotedTables(tables: Tables, o: Owner): Tables {
    (tables - {o})[GroupOwner := TableFor(tables, o)]
  }

  lemma PromotedStores(t: Tree, tables: Tables, p: PeerId)
    requires Tidy(t) && Stores(t, tables)
    ensures Tidy(PromotedTree(t, PeerOwner(p)))
    ensures Stores(PromotedTree(t, PeerOwner(p)), PromotedTables(tables, PeerOwner(p)))
  {
    PromotedTidy(t, PeerOwner(p));
    var t', tables' := PromotedTree(t, PeerOwner(p)), PromotedTables(tables, PeerOwner(p));
    forall o, j
      ensures Has(t', o, j) <==> j in TableFor(tables', o)
      ensures Has(t', o, j) ==> EntryOf(t', o, j) == TableFor(tables', o)[j]
    {
      PromotedAt(t, p, o, j);
      assert Has(t, o, j) <==> j in TableFor(tables, o);
      assert Has(t, PeerOwner(p), j) <==> j in TableFor(tables, PeerOwner(p));
    }
  }
}
