/**
  What a peer has been told: RIB-OUT tables, messages, and the two conditions under which
  "everything sent so far, then the message in flight, then the packing list" spells out
  exactly the routes of a table.
 */
module Advertised {
  import opened Types
  import opened PackingList

  /**
    A RIB-OUT entry.  `post` is `None` when policy denied the route.  An entry exists only
    while its pre-policy attributes are set, so `pre` is not optional.
   */
  datatype Entry = Entry(pre: BgpPath, post: Option<BgpPath>, version: nat, nexthopByPolicy: bool)

  type Table = map<Key, Entry>

  /** The attributes a table advertises for a route; `None` when it advertises none. */
  function Post(t: Table, k: Key): Option<BgpPath> {
    if k in t then t[k].post else None
  }

  datatype Message =
    | Update(attrs: Option<BgpPath>, keys: set<Key>)
    | EndOfRib(afi: Afi)

  /** The routes a receiver holds, given the messages that reached its queue. */
  type Received = map<Key, BgpPath>

  function Holds(r: Received, k: Key): Option<BgpPath> {
    if k in r then Some(r[k]) else None
  }

  function Receive(r: Received, m: Message): Received {
    match m
    case EndOfRib(_) => r
    case Update(None, keys) => r - keys
    case Update(Some(a), keys) => r + (map k | k in keys :: a)
  }

  function ReceiveAll(r: Received, ms: seq<Message>): Received
    decreases ms
  {
    if ms == [] then r else ReceiveAll(Receive(r, ms[0]), ms[1..])
  }

  /** Every pending route goes out with the attributes the table has for it now. */
  ghost predicate Tracks(pl: Packing, t: Table) {
    forall b, k | Under(pl, k, b) :: b.attrs == Post(t, k)
  }

  /** Every route that is not pending is already what the receiver will hold. */
  ghost predicate Settled(t: Table, pl: Packing, inFlight: seq<Message>, sent: Received) {
    forall k | !Pending(pl, k) :: Holds(ReceiveAll(sent, inFlight), k) == Post(t, k)
  }

  ghost predicate Told(t: Table, pl: Packing, inFlight: seq<Message>, sent: Received) {
    WellPacked(pl) && Tracks(pl, t) && Settled(t, pl, inFlight, sent)
  }

  lemma ReceiveAt(r: Received, m: Message, k: Key)
    ensures Holds(Receive(r, m), k) ==
      if m.Update? && k in m.keys then m.attrs else Holds(r, k)
  {
  }

  lemma ReceiveAllSnoc(r: Received, ms: seq<Message>, m: Message)
    ensures ReceiveAll(r, ms + [m]) == Receive(ReceiveAll(r, ms), m)
    decreases ms
  {
    if ms == [] {
      assert [m][1..] == [];
      assert ms + [m] == [m];
    } else {
      assert (ms + [m])[1..] == ms[1..] + [m];
      ReceiveAllSnoc(Receive(r, ms[0]), ms[1..], m);
    }
  }

  /** A drained list leaves the receiver with exactly the table's advertised routes. */
  lemma DrainedMeansTold(t: Table, inFlight: seq<Message>, sent: Received, k: Key)
    requires Told(t, map[], inFlight, sent)
    ensures Holds(ReceiveAll(sent, inFlight), k) == Post(t, k)
  {
    assert !Pending(map[], k);
  }

  /** Changing the advertised attributes of one route and repacking it keeps the table told. */
  lemma RepackTold(t: Table, t': Table, k: Key, flag: bool, pl: Packing, inFlight: seq<Message>, sent: Received)
    requires Told(t, pl, inFlight, sent)
    requires forall j | j != k :: Post(t', j) == Post(t, j)
    ensures Told(t', Repack(pl, k, Post(t, k), Post(t', k), flag), inFlight, sent)
  {
    var pl' := Repack(pl, k, Post(t, k), Post(t', k), flag);
    RepackAt(pl, k, Post(t, k), Post(t', k), flag);
    RepackWellPackedIff(pl, k, Post(t, k), Post(t', k), flag);
    assert Under(pl', k, Bucket(Post(t', k), AfiOf(k.prefix), flag));
    forall j | j != k && Pending(pl, j)
      ensures Pending(pl', j)
    {
      var b :| Under(pl, j, b);
      assert Under(pl', j, b);
    }
  }

  /** Entries may change freely as long as the advertised attributes stay. */
  lemma SamePostTold(t: Table, t': Table, pl: Packing, inFlight: seq<Message>, sent: Received)
    requires Told(t, pl, inFlight, sent)
    requires forall k :: Post(t', k) == Post(t, k)
    ensures Told(t', pl, inFlight, sent)
  {
  }

  /** Take some routes of one bucket off the list. */
  function TakeFrom(pl: Packing, b: Bucket, keys: set<Key>): Packing
    requires b in pl
  {
    if pl[b] - keys == {} then pl - {b} else pl[b := pl[b] - keys]
  }

  lemma TakeFromAt(pl: Packing, b: Bucket, keys: set<Key>)
    requires b in pl && keys <= pl[b] && WellPacked(pl)
    ensures WellPacked(TakeFrom(pl, b, keys))
    ensures forall c, k :: Under(TakeFrom(pl, b, keys), k, c) <==> Under(pl, k, c) && !(c == b && k in keys)
    ensures forall k :: Pending(TakeFrom(pl, b, keys), k) <==> Pending(pl, k) && k !in keys
  {
    var pl' := TakeFrom(pl, b, keys);
    assert forall k | k in pl[b] && k !in keys :: k in pl[b] - keys;
    assert forall k | k in keys :: Under(pl, k, b);
    forall c, k
      ensures Under(pl', k, c) <==> Under(pl, k, c) && !(c == b && k in keys)
    {
    }
    forall k | Pending(pl, k) && k !in keys
      ensures Pending(pl', k)
    {
      var c :| Under(pl, k, c);
      assert Under(pl', k, c);
    }
  }

  /** Moving part of a bucket into a message that is now in flight keeps the table told. */
  lemma SendTold(t: Table, pl: Packing, b: Bucket, keys: set<Key>, inFlight: seq<Message>, sent: Received)
    requires Told(t, pl, inFlight, sent)
    requires b in pl && keys <= pl[b]
    ensures Told(t, TakeFrom(pl, b, keys), inFlight + [Update(b.attrs, keys)], sent)
  {
    var pl' := TakeFrom(pl, b, keys);
    var m := Update(b.attrs, keys);
    TakeFromAt(pl, b, keys);
    ReceiveAllSnoc(sent, inFlight, m);
    forall k | !Pending(pl', k)
      ensures Holds(ReceiveAll(sent, inFlight + [m]), k) == Post(t, k)
    {
      ReceiveAt(ReceiveAll(sent, inFlight), m, k);
      if k in keys { assert Under(pl, k, b); }
    }
  }

  /** An End-of-RIB marker changes no route. */
  lemma EndOfRibTold(t: Table, pl: Packing, afi: Afi, inFlight: seq<Message>, sent: Received)
    requires Told(t, pl, inFlight, sent)
    ensures Told(t, pl, inFlight + [EndOfRib(afi)], sent)
  {
    ReceiveAllSnoc(sent, inFlight, EndOfRib(afi));
  }

  /** The first message in flight reaching the queue. */
  lemma LandTold(t: Table, pl: Packing, inFlight: seq<Message>, sent: Received)
    requires inFlight != []
    requires Told(t, pl, inFlight, sent)
    ensures Told(t, pl, inFlight[1..], Receive(sent, inFlight[0]))
  {
  }

  /** Send the buckets of a packing list one whole bucket at a time, in the given order. */
  function DrainAll(r: Received, pl: Packing, order: seq<Bucket>): Received
    requires forall b | b in order :: b in pl
    decreases order
  {
    if order == [] then r else DrainAll(Receive(r, Update(order[0].attrs, pl[order[0]])), pl, order[1..])
  }

  lemma {:induction false} DrainOutside(r: Received, pl: Packing, order: seq<Bucket>, b: Bucket)
    requires b in pl && b !in order && forall c | c in order :: c in pl
    ensures DrainAll(r, pl, order) == DrainAll(r, pl - {b}, order)
    decreases order
  {
    if order != [] {
      DrainOutside(Receive(r, Update(order[0].attrs, pl[order[0]])), pl, order[1..], b);
    }
  }

  /** Whatever order the buckets go out in, the receiver ends up with exactly the table's routes. */
  lemma {:induction false} AnyOrderTells(t: Table, pl: Packing, sent: Received, order: seq<Bucket>, k: Key)
    requires Told(t, pl, [], sent)
    requires forall b :: b in order <==> b in pl
    requires forall i, j | 0 <= i < j < |order| :: order[i] != order[j]
    ensures Holds(DrainAll(sent, pl, order), k) == Post(t, k)
    decreases order
  {
    if order == [] {
      assert pl == map[];
      DrainedMeansTold(t, [], sent, k);
    } else {
      var b, rest := order[0], order[1..];
      var m := Update(b.attrs, pl[b]);
      SendTold(t, pl, b, pl[b], [], sent);
      assert [] + [m] == [m] && [m][1..] == [] && pl[b] - pl[b] == {};
      LandTold(t, pl - {b}, [m], sent);
      assert b !in rest && forall c :: c in order <==> c == b || c in rest;
      AnyOrderTells(t, pl - {b}, Receive(sent, m), rest, k);
      DrainOutside(Receive(sent, m), pl, rest, b);
    }
  }
}
