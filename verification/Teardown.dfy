/**
  Tearing down one owner's RIB-OUT when its session ends and no update group cleans up for
  it.  The loop erases a node it emptied at once only if that node is the first one, and
  then starts over from the new first node; other emptied nodes are erased after the loop.
 */
module Teardown {
  import opened Types
  import opened Advertised
  import opened OwnerTree

  /** The tree in iteration order. */
  datatype Node = Node(prefix: Prefix, owners: OwnerMap)

  predicate DistinctPrefixes(nodes: seq<Node>) {
    forall i, j | 0 <= i < j < |nodes| :: nodes[i].prefix != nodes[j].prefix
  }

  /** The advertised paths among some. */
  function AdvPaths(paths: Paths): set<PathId> {
    set id | id in paths && paths[id].post.Some?
  }

  /** A counter lowered once per item, never below zero. */
  function Lowered(count: nat, n: nat): nat {
    if n <= count then count - n else 0
  }

  /** One node without the owner; nothing if the owner had it to itself. */
  function Kept(n: Node, o: Owner): (r: seq<Node>) {
    if o in n.owners && n.owners - {o} == map[] then [] else [n.(owners := n.owners - {o})]
  }

  function Without(nodes: seq<Node>, o: Owner): (r: seq<Node>) {
    if nodes == [] then [] else Kept(nodes[0], o) + Without(nodes[1..], o)
  }

  /** How many routes the owner advertises. */
  function AdvCount(nodes: seq<Node>, o: Owner): nat {
    if nodes == [] then 0 else |AdvPaths(PathsAt(nodes[0].owners, o))| + AdvCount(nodes[1..], o)
  }

  // ---------------------------------------------------------------- what is left

  /** The owner is gone, nobody else's paths change, and only nodes the owner had to itself disappear. */
  lemma {:induction false} WithoutMeans(nodes: seq<Node>, o: Owner, prefix: Prefix, owners: OwnerMap)
    ensures Node(prefix, owners) in Without(nodes, o) <==>
      exists n | n in nodes ::
        n.prefix == prefix && owners == n.owners - {o} && !(o in n.owners && owners == map[])
  {
    if nodes != [] {
      WithoutMeans(nodes[1..], o, prefix, owners);
      assert nodes == [nodes[0]] + nodes[1..];
      assert Without(nodes, o) == Kept(nodes[0], o) + Without(nodes[1..], o);
    }
  }

  lemma {:induction false} WithoutSnoc(nodes: seq<Node>, n: Node, o: Owner)
    ensures Without(nodes + [n], o) == Without(nodes, o) + Kept(n, o)
  {
    if nodes == [] {
      assert [] + [n] == [n] && [n][1..] == [];
      assert Without([n], o) == Kept(n, o) + Without([], o);
    } else {
      assert (nodes + [n])[1..] == nodes[1..] + [n];
      WithoutSnoc(nodes[1..], n, o);
      Associate(Kept(nodes[0], o), Without(nodes[1..], o), Kept(n, o));
    }
  }

  lemma Associate(a: seq<Node>, b: seq<Node>, c: seq<Node>)
    ensures a + (b + c) == a + b + c
  {
  }

  lemma {:induction false} AdvCountSnoc(nodes: seq<Node>, n: Node, o: Owner)
    ensures AdvCount(nodes + [n], o) == AdvCount(nodes, o) + |AdvPaths(PathsAt(n.owners, o))|
  {
    if nodes == [] {
      assert [] + [n] == [n];
    } else {
      assert (nodes + [n])[1..] == nodes[1..] + [n];
      AdvCountSnoc(nodes[1..], n, o);
    }
  }

  // ---------------------------------------------------------------- one node

  lemma AdvMore(paths: Paths, id: PathId, e: Entry)
    requires id !in paths
    ensures |AdvPaths(paths[id := e])| == |AdvPaths(paths)| + (if e.post.Some? then 1 else 0)
  {
    var a, b := AdvPaths(paths), AdvPaths(paths[id := e]);
    forall x ensures x in b <==> x in a || (x == id && e.post.Some?) { }
    assert b == if e.post.Some? then a + {id} else a;
  }

  /** Lower the counter once per advertised path. */
  method SettlePaths(paths: Paths, count: nat) returns (r: nat)
    ensures r == Lowered(count, |AdvPaths(paths)|)
  {
    r := count;
    var todo := paths.Keys;
    ghost var done: Paths := map[];
    assert AdvPaths(done) == {};
    while todo != {}
      invariant forall id :: id in paths <==> id in todo || id in done
      invariant forall id | id in done :: id !in todo && done[id] == paths[id]
      invariant r == Lowered(count, |AdvPaths(done)|)
    {
      var id :| id in todo;
      AdvMore(done, id, paths[id]);
      if paths[id].post.Some? && r > 0 {
        r := r - 1;
      }
      todo, done := todo - {id}, done[id := paths[id]];
    }
    assert done == paths;
  }

  // ---------------------------------------------------------------- the loop

  /** Drop the nodes noted as empty. */
  function Sweep(nodes: seq<Node>, emptied: set<Prefix>): (r: seq<Node>) {
    if nodes == [] then []
    else (if nodes[0].prefix in emptied then [] else [nodes[0]]) + Sweep(nodes[1..], emptied)
  }

  lemma {:induction false} SweepConcat(a: seq<Node>, b: seq<Node>, emptied: set<Prefix>)
    ensures Sweep(a + b, emptied) == Sweep(a, emptied) + Sweep(b, emptied)
  {
    if a == [] {
      assert a + b == b;
    } else {
      assert (a + b)[1..] == a[1..] + b;
      SweepConcat(a[1..], b, emptied);
    }
  }

  /** A prefix that occurs in no node does not matter. */
  lemma {:induction false} SweepFrame(nodes: seq<Node>, emptied: set<Prefix>, prefix: Prefix)
    requires forall n | n in nodes :: n.prefix != prefix
    ensures Sweep(nodes, emptied + {prefix}) == Sweep(nodes, emptied)
  {
    if nodes != [] {
      assert nodes[0] in nodes;
      SweepFrame(nodes[1..], emptied, prefix);
    }
  }

  /** What holds when `i` of the original nodes have been visited and `itr` of them are still there. */
  ghost predicate Progress(nodes0: seq<Node>, o: Owner, nodes: seq<Node>, itr: nat, emptied: set<Prefix>, i: nat) {
    && i <= |nodes0| && itr <= |nodes| && itr <= i
    && nodes[itr..] == nodes0[i..]
    && Sweep(nodes[..itr], emptied) == Without(nodes0[..i], o)
    && (forall prefix | prefix in emptied :: exists j | 0 <= j < i :: nodes0[j].prefix == prefix)
    && (forall a | 0 <= a < itr :: exists j | 0 <= j < i :: nodes0[j].prefix == nodes[a].prefix)
  }

  lemma NextNode(nodes0: seq<Node>, o: Owner, nodes: seq<Node>, itr: nat, emptied: set<Prefix>, i: nat)
    requires Progress(nodes0, o, nodes, itr, emptied, i) && itr < |nodes| && DistinctPrefixes(nodes0)
    ensures i < |nodes0| && nodes[itr] == nodes0[i] && nodes0[..i + 1] == nodes0[..i] + [nodes0[i]]
    ensures nodes0[i].prefix !in emptied
    ensures forall a | 0 <= a < itr :: nodes[a].prefix != nodes0[i].prefix
    ensures Without(nodes0[..i + 1], o) == Without(nodes0[..i], o) + Kept(nodes0[i], o)
  {
    assert nodes[itr..][0] == nodes[itr];
    WithoutSnoc(nodes0[..i], nodes0[i], o);
  }

  lemma SweepOne(n: Node, emptied: set<Prefix>)
    ensures Sweep([n], emptied) == if n.prefix in emptied then [] else [n]
  {
    assert Sweep([n][1..], emptied) == [];
  }

  /** A node that stays. */
  lemma KeepNode(nodes0: seq<Node>, o: Owner, nodes: seq<Node>, itr: nat, emptied: set<Prefix>, i: nat)
    requires Progress(nodes0, o, nodes, itr, emptied, i) && itr < |nodes| && DistinctPrefixes(nodes0)
    requires !(o in nodes[itr].owners && nodes[itr].owners - {o} == map[])
    ensures Progress(nodes0, o, nodes[itr := nodes[itr].(owners := nodes[itr].owners - {o})], itr + 1, emptied, i + 1)
  {
    NextNode(nodes0, o, nodes, itr, emptied, i);
    var n := nodes[itr].(owners := nodes[itr].owners - {o});
    var after := nodes[itr := n];
    assert after[..itr + 1] == nodes[..itr] + [n] && after[itr + 1..] == nodes[itr..][1..];
    SweepConcat(nodes[..itr], [n], emptied);
    SweepOne(n, emptied);
  }

  /** An emptied node that is not the first is noted and swept at the end. */
  lemma NoteNode(nodes0: seq<Node>, o: Owner, nodes: seq<Node>, itr: nat, emptied: set<Prefix>, i: nat)
    requires Progress(nodes0, o, nodes, itr, emptied, i) && itr < |nodes| && DistinctPrefixes(nodes0)
    requires o in nodes[itr].owners && nodes[itr].owners - {o} == map[]
    ensures Progress(nodes0, o, nodes[itr := nodes[itr].(owners := map[])], itr + 1, emptied + {nodes[itr].prefix}, i + 1)
  {
    NextNode(nodes0, o, nodes, itr, emptied, i);
    var n, prefix := nodes[itr].(owners := map[]), nodes[itr].prefix;
    var after := nodes[itr := n];
    assert after[..itr + 1] == nodes[..itr] + [n] && after[itr + 1..] == nodes[itr..][1..];
    SweepConcat(nodes[..itr], [n], emptied + {prefix});
    SweepFrame(nodes[..itr], emptied, prefix);
    SweepOne(n, emptied + {prefix});
  }

  /** An emptied first node is erased at once. */
  lemma DropFirst(nodes0: seq<Node>, o: Owner, nodes: seq<Node>, emptied: set<Prefix>, i: nat)
    requires Progress(nodes0, o, nodes, 0, emptied, i) && nodes != [] && DistinctPrefixes(nodes0)
    requires o in nodes[0].owners && nodes[0].owners - {o} == map[]
    ensures Progress(nodes0, o, nodes[1..], 0, emptied, i + 1)
  {
    NextNode(nodes0, o, nodes, 0, emptied, i);
    assert nodes[1..][..0] == nodes[..0] && nodes[1..][0..] == nodes[0..][1..];
  }

  /** A node without the owner is passed over. */
  lemma PassNode(nodes0: seq<Node>, o: Owner, nodes: seq<Node>, itr: nat, emptied: set<Prefix>, i: nat)
    requires Progress(nodes0, o, nodes, itr, emptied, i) && itr < |nodes| && DistinctPrefixes(nodes0)
    requires o !in nodes[itr].owners
    ensures Progress(nodes0, o, nodes, itr + 1, emptied, i + 1)
  {
    KeepNode(nodes0, o, nodes, itr, emptied, i);
    assert nodes[itr].owners - {o} == nodes[itr].owners;
    assert nodes[itr := nodes[itr].(owners := nodes[itr].owners - {o})] == nodes;
  }

  lemma CountNext(nodes0: seq<Node>, o: Owner, i: nat, count: nat)
    requires i < |nodes0|
    ensures
      var owners := nodes0[i].owners;
      Lowered(count, AdvCount(nodes0[..i + 1], o))
      == if o in owners then Lowered(Lowered(count, AdvCount(nodes0[..i], o)), |AdvPaths(owners[o])|)
         else Lowered(count, AdvCount(nodes0[..i], o))
  {
    assert nodes0[..i + 1] == nodes0[..i] + [nodes0[i]];
    AdvCountSnoc(nodes0[..i], nodes0[i], o);
    assert AdvPaths(map[]) == {};
  }

  /** Drop the owner from the node at the iterator, and the node with it if it is the first and now empty. */
  method DropOwner(nodes: seq<Node>, o: Owner, itr: nat, emptied: set<Prefix>, ghost nodes0: seq<Node>, ghost i: nat)
    returns (nodes': seq<Node>, itr': nat, emptied': set<Prefix>)
    requires Progress(nodes0, o, nodes, itr, emptied, i) && DistinctPrefixes(nodes0)
    requires itr < |nodes| && o in nodes[itr].owners
    ensures Progress(nodes0, o, nodes', itr', emptied', i + 1) && |nodes'| - itr' < |nodes| - itr
  {
    nodes', itr', emptied' := nodes, itr + 1, emptied;
    var owners := nodes[itr].owners - {o};
    if owners == map[] {
      if itr == 0 {
        DropFirst(nodes0, o, nodes, emptied, i);
        nodes', itr' := nodes[1..], 0;
        return;
      }
      NoteNode(nodes0, o, nodes, itr, emptied, i);
      emptied' := emptied + {nodes[itr].prefix};
    } else {
      KeepNode(nodes0, o, nodes, itr, emptied, i);
    }
    nodes' := nodes[itr := nodes[itr].(owners := owners)];
  }

  /** The teardown removes exactly the owner, leaves no node it emptied, and lowers the count once per advertised path. */
  method TearDown(nodes0: seq<Node>, o: Owner, count: nat) returns (nodes: seq<Node>, count': nat)
    requires DistinctPrefixes(nodes0)
    ensures nodes == Without(nodes0, o)
    ensures count' == Lowered(count, AdvCount(nodes0, o))
  {
    nodes, count' := nodes0, count;
    var itr: nat, emptied: set<Prefix> := 0, {};
    ghost var i := 0;
    assert nodes0[..0] == [];
    while itr < |nodes|
      invariant Progress(nodes0, o, nodes, itr, emptied, i)
      invariant count' == Lowered(count, AdvCount(nodes0[..i], o))
      decreases |nodes| - itr
    {
      NextNode(nodes0, o, nodes, itr, emptied, i);
      CountNext(nodes0, o, i, count);
      if o in nodes[itr].owners {
        count' := SettlePaths(nodes[itr].owners[o], count');
        nodes, itr, emptied := DropOwner(nodes, o, itr, emptied, nodes0, i);
      } else {
        PassNode(nodes0, o, nodes, itr, emptied, i);
        itr := itr + 1;
      }
      i := i + 1;
    }
    assert nodes[..itr] == nodes && nodes0[..i] == nodes0;
    nodes := Sweep(nodes, emptied);
  }
}
