/**
  The packing list: routes that still have to be sent, bucketed by the attributes
  they go out with.  A bucket whose attributes are `None` holds withdrawals.
 */
module PackingList {
  import opened Types

  datatype Bucket = Bucket(attrs: Option<BgpPath>, afi: Afi, nexthopByPolicy: bool)

  type Packing = map<Bucket, set<Key>>

  ghost predicate Under(pl: Packing, k: Key, b: Bucket) {
    b in pl && k in pl[b]
  }

  ghost predicate Pending(pl: Packing, k: Key) {
    exists b :: Under(pl, k, b)
  }

  /** No empty bucket, every route in a bucket of its own family, and no route in two buckets. */
  ghost predicate WellPacked(pl: Packing) {
    && (forall b | b in pl :: pl[b] != {})
    && (forall b, k | Under(pl, k, b) :: b.afi == AfiOf(k.prefix))
    && (forall b, c, k | Under(pl, k, b) && Under(pl, k, c) :: b == c)
  }

  /** Take `k` out of one bucket, dropping the bucket when nothing is left in it. */
  function Unpack(pl: Packing, k: Key, b: Bucket): (r: Packing) {
    if b !in pl then pl
    else if pl[b] - {k} == {} then pl - {b}
    else pl[b := pl[b] - {k}]
  }

  function Pack(pl: Packing, k: Key, b: Bucket): (r: Packing) {
    if b in pl then pl[b := pl[b] + {k}] else pl[b := {k}]
  }

  /** Move `k` from its old attributes, under either nexthop flag, to its new ones. */
  function Repack(pl: Packing, k: Key, was: Option<BgpPath>, now: Option<BgpPath>, flag: bool): (r: Packing) {
    var afi := AfiOf(k.prefix);
    var cleaned := Unpack(Unpack(pl, k, Bucket(was, afi, true)), k, Bucket(was, afi, false));
    Pack(cleaned, k, Bucket(now, afi, flag))
  }

  /** The in-place update of the packing list refines `Repack`. */
  method TryUpdateAttrToPrefixMap(pl: Packing, k: Key, was: Option<BgpPath>, now: Option<BgpPath>, flag: bool)
    returns (r: Packing)
    ensures r == Repack(pl, k, was, now, flag)
  {
    r := pl;
    var afi := AfiOf(k.prefix);
    var flags := [true, false];
    for i := 0 to 2
      invariant i == 0 ==> r == pl
      invariant i == 1 ==> r == Unpack(pl, k, Bucket(was, afi, true))
      invariant i == 2 ==> r == Unpack(Unpack(pl, k, Bucket(was, afi, true)), k, Bucket(was, afi, false))
    {
      var oldKey := Bucket(was, afi, flags[i]);
      if oldKey in r {
        var prefixes := r[oldKey] - {k};
        if prefixes == {} {
          r := r - {oldKey};
        } else {
          r := r[oldKey := prefixes];
        }
      }
    }
    var newKey := Bucket(now, afi, flag);
    if newKey !in r {
      r := r[newKey := {k}];
    } else {
      r := r[newKey := r[newKey] + {k}];
    }
  }

  lemma UnpackAt(pl: Packing, k: Key, b: Bucket)
    ensures forall c, j :: Under(Unpack(pl, k, b), j, c) <==> Under(pl, j, c) && !(c == b && j == k)
    ensures (forall c | c in pl :: pl[c] != {}) ==> forall c | c in Unpack(pl, k, b) :: Unpack(pl, k, b)[c] != {}
  {
    if b in pl {
      assert forall j | j in pl[b] && j != k :: j in pl[b] - {k};
    }
  }

  lemma RepackAt(pl: Packing, k: Key, was: Option<BgpPath>, now: Option<BgpPath>, flag: bool)
    ensures forall c, j :: Under(Repack(pl, k, was, now, flag), j, c) <==>
      (j == k && c == Bucket(now, AfiOf(k.prefix), flag))
      || (Under(pl, j, c) && !(j == k && c.attrs == was && c.afi == AfiOf(k.prefix)))
    ensures (forall c | c in pl :: pl[c] != {}) ==>
      forall c | c in Repack(pl, k, was, now, flag) :: Repack(pl, k, was, now, flag)[c] != {}
  {
    var afi := AfiOf(k.prefix);
    var one := Unpack(pl, k, Bucket(was, afi, true));
    UnpackAt(pl, k, Bucket(was, afi, true));
    UnpackAt(one, k, Bucket(was, afi, false));
  }

  /**
    `Repack` keeps the list well packed exactly when the caller names the attributes the
    route really sits under.  Naming others leaves it in two buckets.
   */
  lemma RepackWellPackedIff(pl: Packing, k: Key, was: Option<BgpPath>, now: Option<BgpPath>, flag: bool)
    requires WellPacked(pl)
    ensures WellPacked(Repack(pl, k, was, now, flag)) <==>
      forall b | Under(pl, k, b) :: b.attrs == was || b == Bucket(now, AfiOf(k.prefix), flag)
  {
    RepackAt(pl, k, was, now, flag);
    var r := Repack(pl, k, was, now, flag);
    var target := Bucket(now, AfiOf(k.prefix), flag);
    assert Under(r, k, target);
    if b :| Under(pl, k, b) && b.attrs != was && b != target {
      assert Under(r, k, b);
    }
  }
}
