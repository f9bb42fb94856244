/**
  Distributing one message: a loop over the members that skips those out of sync, defers
  the push to a blocked peer, and detaches a slow one unless it is the last in-sync peer.
 */
module DistributionLoop {
  import opened Types
  import opened Advertised
  import opened GroupState
  import opened GroupInvariant
  import opened Distribution

  /** Push to one in-sync peer. */
  function PushOne(g: Group, m: Message, p: PeerId, stuck: bool, slow: bool): Group
    requires p in g.peers
  {
    var q := Pushed(g, g.peers[p], m, stuck, slow);
    var h := g.(peers := g.peers[p := q]);
    if stuck && slow then
      h.(sync := g.sync - {p}, detached := g.detached + {p}, blocked := g.blocked - {p}, eorPeers := g.eorPeers - {p},
         numInSync := if g.numInSync > 0 then g.numInSync - 1 else 0,
         numDetachedAfterJoin := if g.lastSeen != 0 then g.numDetachedAfterJoin + 1 else g.numDetachedAfterJoin)
    else if stuck then h.(blocked := g.blocked + {p})
    else h.(eorPeers := if q.owes == {} then g.eorPeers - {p} else g.eorPeers)
  }

  lemma PushedSame(g: Group, h: Group, q: Peer, m: Message, stuck: bool, slow: bool)
    requires h.packing == g.packing && h.lastSeen == g.lastSeen && h.postOut == g.postOut
    ensures Pushed(h, q, m, stuck, slow) == Pushed(g, q, m, stuck, slow)
  {
  }

  /** The members after one more push. */
  lemma NextPeers(g: Group, m: Message, done: set<PeerId>, stuck: set<PeerId>, slow: set<PeerId>, p: PeerId, isStuck: bool,
                  isSlow: bool, stuck': set<PeerId>, slow': set<PeerId>)
    requires p in g.peers && p !in done && stuck <= done && slow <= stuck
    requires stuck' == (if isStuck then stuck + {p} else stuck)
    requires slow' == (if isStuck && isSlow then slow + {p} else slow)
    ensures Push(g, m, done, stuck, slow).peers[p := Pushed(g, g.peers[p], m, isStuck, isSlow)]
      == Push(g, m, done + {p}, stuck', slow').peers
  {
    var a := Push(g, m, done, stuck, slow).peers[p := Pushed(g, g.peers[p], m, isStuck, isSlow)];
    var b := Push(g, m, done + {p}, stuck', slow').peers;
    forall r | r in g.peers
      ensures a[r] == b[r]
    {
      if r == p { PushedFlags(g, g.peers[p], m, isStuck, isSlow, p in stuck', p in slow'); }
    }
  }

  lemma PushedFlags(g: Group, q: Peer, m: Message, stuck: bool, slow: bool, stuck': bool, slow': bool)
    requires stuck' == stuck && slow' == (stuck && slow)
    ensures Pushed(g, q, m, stuck, slow) == Pushed(g, q, m, stuck', slow')
  {
  }

  /** One more push that lands. */
  lemma NextLanded(g: Group, m: Message, done: set<PeerId>, stuck: set<PeerId>, slow: set<PeerId>, p: PeerId, isSlow: bool)
    requires EorPeersOk(g) && p in g.peers && p in g.sync && p !in done && stuck <= done && slow <= stuck
    ensures PushOne(Push(g, m, done, stuck, slow), m, p, false, isSlow) == Push(g, m, done + {p}, stuck, slow)
  {
    var h := Push(g, m, done, stuck, slow);
    PushedSame(g, h, g.peers[p], m, false, isSlow);
    NextPeers(g, m, done, stuck, slow, p, false, isSlow, stuck, slow);
    var a, b := PushOne(h, m, p, false, isSlow), Push(g, m, done + {p}, stuck, slow);
    assert a.peers == b.peers;
    forall r ensures r in a.eorPeers <==> r in b.eorPeers { }
    assert a.eorPeers == b.eorPeers;
  }

  lemma PushedOwes(g: Group, q: Peer, m: Message, slow: bool)
    ensures Pushed(g, q, m, true, slow).owes == q.owes
  {
  }

  /** One more push that is deferred. */
  lemma NextDeferred(g: Group, m: Message, done: set<PeerId>, stuck: set<PeerId>, slow: set<PeerId>, p: PeerId)
    requires EorPeersOk(g) && p in g.peers && p in g.sync && p !in done && stuck <= done && slow <= stuck
    ensures PushOne(Push(g, m, done, stuck, slow), m, p, true, false) == Push(g, m, done + {p}, stuck + {p}, slow)
  {
    var h := Push(g, m, done, stuck, slow);
    PushedSame(g, h, g.peers[p], m, true, false);
    PushedOwes(g, g.peers[p], m, false);
    NextPeers(g, m, done, stuck, slow, p, true, false, stuck + {p}, slow);
    var a, b := PushOne(h, m, p, true, false), Push(g, m, done + {p}, stuck + {p}, slow);
    assert a.peers == b.peers;
    forall r ensures r in a.eorPeers <==> r in b.eorPeers { }
    assert a.eorPeers == b.eorPeers;
    assert a.blocked == b.blocked;
  }

  /** One more push that is deferred to a peer detached for it. */
  lemma NextSlow(g: Group, m: Message, done: set<PeerId>, stuck: set<PeerId>, slow: set<PeerId>, p: PeerId)
    requires EorPeersOk(g) && p in g.peers && p in g.sync && p !in done && stuck <= done && slow <= stuck
    requires |slow| < g.numInSync
    ensures PushOne(Push(g, m, done, stuck, slow), m, p, true, true) == Push(g, m, done + {p}, stuck + {p}, slow + {p})
  {
    var h := Push(g, m, done, stuck, slow);
    PushedSame(g, h, g.peers[p], m, true, true);
    PushedOwes(g, g.peers[p], m, true);
    NextPeers(g, m, done, stuck, slow, p, true, true, stuck + {p}, slow + {p});
    var a, b := PushOne(h, m, p, true, true), Push(g, m, done + {p}, stuck + {p}, slow + {p});
    assert a.peers == b.peers;
    forall r ensures r in a.eorPeers <==> r in b.eorPeers { }
    assert a.eorPeers == b.eorPeers;
    assert a.blocked == b.blocked && a.sync == b.sync && a.detached == b.detached;
    assert |slow + {p}| == |slow| + 1;
  }

  /** The loop so far: the pushes to `done` make up one `Push`. */
  ghost predicate PushedTo(g: Group, m: Message, done: set<PeerId>, stuck: set<PeerId>, slow: set<PeerId>, h: Group) {
    PushArgs(g, done, stuck, slow) && h == Push(g, m, done, stuck, slow)
  }

  lemma PushedToNobody(g: Group, m: Message)
    requires EorPeersOk(g)
    ensures PushedTo(g, m, {}, {}, {}, g)
  {
    var h := Push(g, m, {}, {}, {});
    assert h.peers == g.peers;
    forall r ensures r in h.eorPeers <==> r in g.eorPeers { }
    assert h.eorPeers == g.eorPeers && h.sync == g.sync && h.blocked == g.blocked && h.detached == g.detached;
  }

  lemma LandNext(g: Group, m: Message, done: set<PeerId>, stuck: set<PeerId>, slow: set<PeerId>, h: Group, p: PeerId)
    requires EorPeersOk(g) && p in g.peers && p in g.sync && p !in done && PushedTo(g, m, done, stuck, slow, h)
    ensures p in h.peers && PushedTo(g, m, done + {p}, stuck, slow, PushOne(h, m, p, false, false))
  {
    NextLanded(g, m, done, stuck, slow, p, false);
  }

  lemma DeferNext(g: Group, m: Message, done: set<PeerId>, stuck: set<PeerId>, slow: set<PeerId>, h: Group, p: PeerId)
    requires EorPeersOk(g) && p in g.peers && p in g.sync && p !in done && PushedTo(g, m, done, stuck, slow, h)
    ensures p in h.peers && PushedTo(g, m, done + {p}, stuck + {p}, slow, PushOne(h, m, p, true, false))
  {
    NextDeferred(g, m, done, stuck, slow, p);
  }

  lemma DetachNext(g: Group, m: Message, done: set<PeerId>, stuck: set<PeerId>, slow: set<PeerId>, h: Group, p: PeerId)
    requires EorPeersOk(g) && p in g.peers && p in g.sync && p !in done && PushedTo(g, m, done, stuck, slow, h)
    requires |slow| < g.numInSync && g.sync - (slow + {p}) != {}
    ensures p in h.peers && PushedTo(g, m, done + {p}, stuck + {p}, slow + {p}, PushOne(h, m, p, true, true))
  {
    NextSlow(g, m, done, stuck, slow, p);
  }

  lemma StillInSync(g: Group, m: Message, done: set<PeerId>, stuck: set<PeerId>, slow: set<PeerId>, h: Group, p: PeerId)
    requires SetsOk(g) && PushedTo(g, m, done, stuck, slow, h) && p !in done && g.numInSync == |g.sync|
    ensures p in h.sync <==> p in g.sync
    ensures p in g.sync ==> p in h.peers && h.numInSync == |g.sync| - |slow|
  {
    if p in g.sync { ProperCard(slow, g.sync, p); }
  }

  predicate Distinct(members: seq<PeerId>) {
    forall i, j | 0 <= i < j < |members| :: members[i] != members[j]
  }

  function SyncAmong(g: Group, members: seq<PeerId>): set<PeerId> {
    set p | p in members && p in g.sync
  }

  lemma SyncAmongNext(g: Group, members: seq<PeerId>)
    requires members != [] && Distinct(members)
    ensures
      var init, p := members[..|members| - 1], members[|members| - 1];
      && Distinct(init) && p !in SyncAmong(g, init)
      && SyncAmong(g, members) == if p in g.sync then SyncAmong(g, init) + {p} else SyncAmong(g, init)
  {
    assert members == members[..|members| - 1] + [members[|members| - 1]];
  }

  lemma ProperCard<T>(a: set<T>, b: set<T>, x: T)
    requires a <= b && x in b && x !in a
    ensures |a| < |b|
    ensures |b| - |a| > 1 ==> b - (a + {x}) != {}
    ensures |b| - |a| <= 1 ==> b - a == {x}
  {
    assert b == (b - a) + a;
    assert |b - a| == |b| - |a|;
    assert b - a == (b - (a + {x})) + {x};
    assert |b - a| == |b - (a + {x})| + 1;
  }

  /** The group in the middle of a distribution, and the peers detached by it. */
  datatype Spread = Spread(h: Group, slow: set<PeerId>)

  /** Push to one member: at once, deferred, or deferred with the peer detached unless it is the last in sync. */
  function SpreadOne(s: Spread, m: Message, p: PeerId, full: bool, overdue: bool): Spread {
    if p !in s.h.sync || p !in s.h.peers then s
    else if full && overdue && s.h.numInSync > 1 then Spread(PushOne(s.h, m, p, true, true), s.slow + {p})
    else Spread(PushOne(s.h, m, p, full, false), s.slow)
  }

  function SpreadTo(g: Group, m: Message, members: seq<PeerId>, full: set<PeerId>, overdue: set<PeerId>): Spread {
    if members == [] then Spread(g, {})
    else
      var p := members[|members| - 1];
      SpreadOne(SpreadTo(g, m, members[..|members| - 1], full, overdue), m, p, p in full, p in overdue)
  }

  /** Which of the overdue peers pushed to so far were detached, and which one was spared. */
  ghost predicate Accounted(g: Group, done: set<PeerId>, full: set<PeerId>, overdue: set<PeerId>, stuck: set<PeerId>,
                            slow: set<PeerId>, last: Option<PeerId>) {
    && (forall p :: p in stuck <==> p in done && p in full)
    && (forall p | p in slow :: p in stuck && p in overdue)
    && (last.None? ==> forall p | p in stuck && p in overdue :: p in slow)
    && (last.Some? ==> last.value in g.sync * full * overdue && last.value in done && g.sync - slow == {last.value})
  }

  lemma AccountNext(g: Group, done: set<PeerId>, full: set<PeerId>, overdue: set<PeerId>, stuck: set<PeerId>, slow: set<PeerId>,
                    last: Option<PeerId>, p: PeerId, isSlow: bool)
    requires Accounted(g, done, full, overdue, stuck, slow, last) && p in g.sync && p !in done
    requires isSlow ==> p in full && p in overdue
    requires p in full && p in overdue && !isSlow ==> g.sync - slow == {p}
    ensures Accounted(g, done + {p}, full, overdue, if p in full then stuck + {p} else stuck,
                      if isSlow then slow + {p} else slow,
                      if p in full && p in overdue && !isSlow then Some(p) else last)
  {
    assert p in g.sync - slow;
  }

  /** One member's push as a step of the whole. */
  lemma SpreadStep(g: Group, m: Message, done: set<PeerId>, stuck: set<PeerId>, s: Spread, p: PeerId, full: bool, overdue: bool)
    requires SetsOk(g) && EorPeersOk(g) && g.numInSync == |g.sync| && p in g.sync
    requires PushedTo(g, m, done, stuck, s.slow, s.h) && p !in done
    ensures
      var s' := SpreadOne(s, m, p, full, overdue);
      var isSlow := p in s'.slow;
      && (isSlow ==> full && overdue)
      && (full && overdue && !isSlow ==> g.sync - s.slow == {p})
      && s'.slow == (if isSlow then s.slow + {p} else s.slow)
      && PushedTo(g, m, done + {p}, if full then stuck + {p} else stuck, s'.slow, s'.h)
  {
    StillInSync(g, m, done, stuck, s.slow, s.h, p);
    ProperCard(s.slow, g.sync, p);
    if !full {
      LandNext(g, m, done, stuck, s.slow, s.h, p);
    } else if overdue && s.h.numInSync > 1 {
      DetachNext(g, m, done, stuck, s.slow, s.h, p);
    } else {
      DeferNext(g, m, done, stuck, s.slow, s.h, p);
    }
  }

  /** The pushes to the members, one after the other, make up one `Push`. */
  lemma {:induction false} SpreadIsPush(g: Group, m: Message, members: seq<PeerId>, full: set<PeerId>, overdue: set<PeerId>)
    returns (stuck: set<PeerId>, last: Option<PeerId>)
    requires SetsOk(g) && EorPeersOk(g) && g.numInSync == |g.sync| && Distinct(members)
    ensures
      var s := SpreadTo(g, m, members, full, overdue);
      && PushedTo(g, m, SyncAmong(g, members), stuck, s.slow, s.h)
      && Accounted(g, SyncAmong(g, members), full, overdue, stuck, s.slow, last)
    decreases members
  {
    if members == [] {
      stuck, last := {}, None;
      assert SyncAmong(g, members) == {};
      PushedToNobody(g, m);
    } else {
      var init, p := members[..|members| - 1], members[|members| - 1];
      var s, done := SpreadTo(g, m, init, full, overdue), SyncAmong(g, init);
      SyncAmongNext(g, members);
      stuck, last := SpreadIsPush(g, m, init, full, overdue);
      StillInSync(g, m, done, stuck, s.slow, s.h, p);
      if p in g.sync {
        var isSlow := p in SpreadOne(s, m, p, p in full, p in overdue).slow;
        SpreadStep(g, m, done, stuck, s, p, p in full, p in overdue);
        AccountNext(g, done, full, overdue, stuck, s.slow, last, p, isSlow);
        last := if p in full && p in overdue && !isSlow then Some(p) else last;
        stuck := if p in full then stuck + {p} else stuck;
      }
    }
  }

  /** Every overdue peer is detached, except one that would have been the last in sync. */
  lemma SpreadOutcome(g: Group, m: Message, members: seq<PeerId>, full: set<PeerId>, overdue: set<PeerId>)
    requires SetsOk(g) && EorPeersOk(g) && g.numInSync == |g.sync|
    requires Distinct(members) && forall p :: p in members <==> p in g.peers
    ensures
      var s := SpreadTo(g, m, members, full, overdue);
      && PushArgs(g, g.sync, g.sync * full, s.slow) && s.slow <= overdue
      && s.h == Push(g, m, g.sync, g.sync * full, s.slow)
      && (s.slow == g.sync * full * overdue || exists p | p in g.sync * full * overdue :: g.sync - s.slow == {p})
  {
    var slow := SpreadTo(g, m, members, full, overdue).slow;
    var stuck, last := SpreadIsPush(g, m, members, full, overdue);
    assert SyncAmong(g, members) == g.sync && stuck == g.sync * full;
    assert last.None? ==> slow == g.sync * full * overdue;
  }
}
