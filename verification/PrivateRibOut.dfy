/** What one change does to a RIB-OUT nobody shares, and why its owner stays told. */
module PrivateRibOut {
  import opened Types
  import opened PackingList
  import opened Advertised
  import opened GroupState

  /** The attributes a change asks to be advertised. */
  function Wanted(c: Change): Option<BgpPath> {
    if c.Announce? && c.mayAnnounce then c.result else None
  }

  predicate Removes(c: Change) {
    c.Withdraw? || !c.mayAnnounce
  }

  /** A change sets what its route advertises and touches no other route. */
  lemma ProcessTable(r: RibOut, c: Change, refresh: bool)
    ensures Post(Process(r, c, refresh).table, c.key) == Wanted(c)
    ensures c.key in Process(r, c, refresh).table <==> !Removes(c)
    ensures !Removes(c) ==> Process(r, c, refresh).table[c.key].version == c.version
    ensures forall k | k != c.key :: k in Process(r, c, refresh).table <==> k in r.table
    ensures forall k | k != c.key && k in r.table :: Process(r, c, refresh).table[k] == r.table[k]
    ensures forall k | k != c.key :: Post(Process(r, c, refresh).table, k) == Post(r.table, k)
  {
  }

  /** The table does not depend on the packing list, nor on why the route is looked at. */
  lemma PrivateTableOnly(r: RibOut, s: RibOut, c: Change, refresh: bool)
    requires r.table == s.table
    ensures Process(r, c, refresh).table == Process(s, c, false).table
  {
  }

  /** Whoever was told the table before the change is told the new one after it. */
  lemma ProcessTold(r: RibOut, c: Change, refresh: bool, inFlight: seq<Message>, sent: Received)
    requires Told(r.table, r.packing, inFlight, sent)
    ensures Told(Process(r, c, refresh).table, Process(r, c, refresh).packing, inFlight, sent)
  {
    var r' := Process(r, c, refresh);
    ProcessTable(r, c, refresh);
    if r'.packing == r.packing {
      SamePostTold(r.table, r'.table, r.packing, inFlight, sent);
    } else {
      var flag := c.Announce? && c.mayAnnounce && c.result.Some? && c.nexthopByPolicy;
      assert r'.packing == Repack(r.packing, c.key, Post(r.table, c.key), Post(r'.table, c.key), flag);
      RepackTold(r.table, r'.table, c.key, flag, r.packing, inFlight, sent);
    }
  }

  /** A change never takes a route off the packing list. */
  lemma ProcessKeepsPending(r: RibOut, c: Change, refresh: bool, k: Key)
    requires Pending(r.packing, k)
    ensures Pending(Process(r, c, refresh).packing, k)
  {
    var r' := Process(r, c, refresh);
    if r'.packing != r.packing {
      var was, now := Post(r.table, c.key), Wanted(c);
      var flag := c.Announce? && c.mayAnnounce && c.result.Some? && c.nexthopByPolicy;
      assert r'.packing == Repack(r.packing, c.key, was, now, flag);
      RepackAt(r.packing, c.key, was, now, flag);
      if k == c.key {
        assert Under(r'.packing, k, Bucket(now, AfiOf(k.prefix), flag));
      } else {
        var b :| Under(r.packing, k, b);
        assert Under(r'.packing, k, b);
      }
    }
  }

  /** A change looks at the entry of its own route only. */
  lemma ProcessLocal(r: RibOut, s: RibOut, c: Change, refresh: bool)
    requires r.packing == s.packing
    requires c.key in r.table <==> c.key in s.table
    requires c.key in r.table ==> r.table[c.key] == s.table[c.key]
    ensures Process(r, c, refresh).packing == Process(s, c, refresh).packing
    ensures c.key in Process(r, c, refresh).table <==> c.key in Process(s, c, refresh).table
    ensures c.key in Process(r, c, refresh).table ==>
      Process(r, c, refresh).table[c.key] == Process(s, c, refresh).table[c.key]
  {
  }
}
