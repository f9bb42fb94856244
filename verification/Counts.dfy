/**
  Prefix counts.  A group counts the routes it advertises, a detached peer those of its own
  view, and a global total counts every route once per peer it was sent to.
 */
module Counts {
  import opened Types
  import opened Sums
  import opened PackingList
  import opened Advertised
  import opened GroupState
  import opened GroupInvariant
  import opened PrivateRibOut
  import opened GroupProcessing
  import opened Distribution
  import opened DetachedPeer
  import opened Membership
  import opened Rejoin
  import opened GroupSteps
  import opened SharingInvisible

  // ---------------------------------------------------------------- products

  /** `n` containers of `v` each. */
  ghost function Times(n: nat, v: nat): nat {
    if n == 0 then 0 else v + Times(n - 1, v)
  }

  lemma {:induction false} TimesIs(n: nat, v: nat)
    ensures Times(n, v) == n * v
  {
    if n > 0 {
      TimesIs(n - 1, v);
      assert n * v == (n - 1) * v + v;
    }
  }

  lemma {:induction false} Distribute(a: nat, b: nat, v: nat)
    ensures Times(a + b, v) == Times(a, v) + Times(b, v)
  {
    if a > 0 { Distribute(a - 1, b, v); }
  }

  lemma {:induction false} TimesMore(n: nat, v: nat)
    ensures Times(n, v + 1) == Times(n, v) + n
  {
    if n > 0 { TimesMore(n - 1, v); }
  }

  lemma SumConstantStep(m: map<nat, nat>, rest: map<nat, nat>, added: set<nat>, v: nat, x: nat)
    requires x in added && added !! rest.Keys && m.Keys == rest.Keys + added
    requires forall y | y in rest :: m[y] == rest[y]
    requires forall y | y in added :: m[y] == v
    ensures Sum(m) == v + Sum(m - {x})
    ensures (m - {x}).Keys == rest.Keys + (added - {x})
    ensures |added| == |added - {x}| + 1
  {
    SumRemove(m, x);
  }

  lemma {:induction false} SumConstant(m: map<nat, nat>, rest: map<nat, nat>, added: set<nat>, v: nat)
    requires added !! rest.Keys && m.Keys == rest.Keys + added
    requires forall x | x in rest :: m[x] == rest[x]
    requires forall x | x in added :: m[x] == v
    ensures Sum(m) == Sum(rest) + Times(|added|, v)
    decreases added
  {
    if added == {} {
      assert m == rest;
    } else {
      var x :| x in added;
      SumConstantStep(m, rest, added, v, x);
      SumConstant(m - {x}, rest, added - {x}, v);
      Distribute(|added - {x}|, 1, v);
    }
  }

  // ---------------------------------------------------------------- what the counts mean

  function Adv(t: Table): set<Key> {
    set k | k in t && t[k].post.Some?
  }

  ghost predicate CountsOk(g: Group) {
    && g.postOut == |Adv(g.routes)|
    && (forall p | p in g.detached && p in g.peers :: g.peers[p].postOut == |Adv(TableOf(g, p))|)
  }

  function DetachedCounts(g: Group): map<nat, nat> {
    map p | p in g.detached && p in g.peers :: g.peers[p].postOut
  }

  /** What the members of a group have been sent: in-sync peers times the group's count, plus the detached ones' own. */
  ghost function Contribution(g: Group): nat {
    Times(|g.sync|, g.postOut) + Sum(DetachedCounts(g))
  }

  lemma AdvAt(t: Table, k: Key)
    ensures k in Adv(t) <==> Post(t, k).Some?
  {
  }

  lemma CardOneMore<T>(a: set<T>, b: set<T>, x: T)
    requires x !in a && x in b && forall y | y != x :: y in a <==> y in b
    ensures |b| == |a| + 1
  {
    assert b == a + {x};
  }

  /** The counter of one container follows the table, one changed route at a time. */
  lemma RecountFollows(t: Table, t': Table, k: Key)
    requires forall j | j != k :: Post(t', j) == Post(t, j)
    ensures Recount(|Adv(t)|, Post(t, k), Post(t', k)) == |Adv(t')|
  {
    var a, b := Adv(t), Adv(t');
    forall j
      ensures j in a <==> Post(t, j).Some?
      ensures j in b <==> Post(t', j).Some?
    {
      AdvAt(t, j);
      AdvAt(t', j);
    }
    if k !in a && k in b {
      CardOneMore(a, b, k);
    } else if k in a && k !in b {
      CardOneMore(b, a, k);
    } else {
      assert a == b;
    }
  }

  lemma SamePostsSameCount(t: Table, u: Table)
    requires SamePosts(t, u)
    ensures |Adv(t)| == |Adv(u)|
  {
    forall k
      ensures k in Adv(t) <==> k in Adv(u)
    {
      assert Post(t, k) == Post(u, k);
    }
    assert Adv(t) == Adv(u);
  }

  // ---------------------------------------------------------------- the global total

  /** The change of the global total when one container's counter moves, for `n` peers. */
  function Retotal(total: nat, count: nat, was: Option<BgpPath>, now: Option<BgpPath>, n: nat): nat {
    if was.None? && now.Some? then total + n
    else if was.Some? && now.None? && count > 0 then Less(total, n)
    else total
  }

  function Less(total: nat, n: nat): nat {
    if n > total then 0 else total - n
  }

  function TotalForGroup(total: nat, g: Group, c: Change): nat {
    if AfiOf(c.key.prefix) !in g.families then total
    else Retotal(total, g.postOut, Post(g.routes, c.key), Post(ProcessForGroup(g, c).routes, c.key), g.numInSync)
  }

  function TotalForAll(total: nat, g: Group, cs: seq<Change>): nat
    decreases cs
  {
    if cs == [] then total else TotalForAll(TotalForGroup(total, g, cs[0]), ProcessForGroup(g, cs[0]), cs[1..])
  }

  /** Settling a departing detached peer: one decrement per advertised entry of its view. */
  function Settle(total: nat, count: nat, advertised: nat): nat {
    Less(total, if advertised <= count then advertised else count)
  }

  /** A departing detached peer is settled route by route, one in sync by the group's count. */
  function TotalWithout(total: nat, g: Group, p: PeerId): nat
    requires p in g.peers
  {
    if p in g.detached then Settle(total, g.peers[p].postOut, |Adv(TableOf(g, p))|) else Less(total, g.postOut)
  }

  /** One route of a detached peer's own. */
  function TotalForPeer(total: nat, q: Peer, routes: Table, c: Change, refresh: bool): nat {
    Retotal(total, q.postOut, Post(Writable(q, routes, c.key), c.key), Post(AfterChange(q, routes, c, refresh).own, c.key), 1)
  }

  ghost function NextTotal(total: nat, g: Group, e: Event): nat
    requires Enabled(g, e)
  {
    match e
    case Dumped(cs, _) => TotalForAll(total, g, cs)
    case Consumed(cs, _) => TotalForAll(total, g, cs)
    case PeerChanged(p, c, refresh) =>
      if AfiOf(c.key.prefix) !in g.families then total else TotalForPeer(total, g.peers[p], g.routes, c, refresh)
    case PeerUnregistered(p) => TotalWithout(total, g, p)
    case _ => total
  }

  /** A rejoin that had nothing to correct, or any step that is not a rejoin. */
  predicate NoFailedRejoin(g: Group, e: Event) {
    e.PeersCollapsed? ==> Accepted(g, e.candidates) == e.candidates
  }

  // ---------------------------------------------------------------- members changing sides

  lemma LeaveSum(g: Group, h: Group, leaving: set<PeerId>)
    requires leaving !! g.detached && g.detached + leaving <= g.peers.Keys
    requires h.peers.Keys == g.peers.Keys && h.detached == g.detached + leaving
    requires forall p | p in g.detached :: h.peers[p].postOut == g.peers[p].postOut
    requires forall p | p in leaving :: h.peers[p].postOut == g.postOut
    ensures Sum(DetachedCounts(h)) == Sum(DetachedCounts(g)) + Times(|leaving|, g.postOut)
  {
    SumConstant(DetachedCounts(h), DetachedCounts(g), leaving, g.postOut);
  }

  lemma LeaveTimes(sync: set<PeerId>, leaving: set<PeerId>, count: nat)
    requires leaving <= sync
    ensures Times(|sync - leaving|, count) + Times(|leaving|, count) == Times(|sync|, count)
  {
    CardMinus(sync, leaving);
    Distribute(|sync - leaving|, |leaving|, count);
  }

  lemma LeaveContribution(g: Group, h: Group, leaving: set<PeerId>)
    requires SetsOk(g) && leaving <= g.sync
    requires h.peers.Keys == g.peers.Keys && h.sync == g.sync - leaving && h.detached == g.detached + leaving
    requires h.postOut == g.postOut
    requires forall p | p in g.detached :: h.peers[p].postOut == g.peers[p].postOut
    requires forall p | p in leaving :: h.peers[p].postOut == g.postOut
    ensures Contribution(h) == Contribution(g)
  {
    LeaveSum(g, h, leaving);
    LeaveTimes(g.sync, leaving, g.postOut);
  }

  lemma SameContribution(g: Group, h: Group)
    requires h.sync == g.sync && h.detached == g.detached && h.postOut == g.postOut
    requires h.peers.Keys == g.peers.Keys
    requires forall p | p in g.detached && p in g.peers :: h.peers[p].postOut == g.peers[p].postOut
    ensures Contribution(h) == Contribution(g)
  {
    assert DetachedCounts(h) == DetachedCounts(g);
  }

  /** Detached peers keep their count, and start from the group's when they detach. */
  ghost predicate CountsCarried(g: Group, h: Group) {
    && h.postOut == g.postOut
    && (forall p | p in h.detached && p in h.peers ::
          p in g.peers && h.peers[p].postOut == if p in g.detached then g.peers[p].postOut else g.postOut)
  }

  /** Counts of a step that changes no table. */
  lemma FrameCounts(g: Group, h: Group)
    requires CountsOk(g) && Abs(h) == Abs(g) && CountsCarried(g, h)
    ensures CountsOk(h)
  {
    AbsAt(g);
    AbsAt(h);
  }

  lemma AbsAt(g: Group)
    ensures Abs(g).shared == g.routes && Abs(g).tables.Keys == g.peers.Keys
    ensures forall p | p in g.peers :: Abs(g).tables[p] == TableOf(g, p)
  {
  }

  // ---------------------------------------------------------------- group-side changes

  lemma LazyCloneFrame(peers: map<PeerId, Peer>, detached: set<PeerId>, routes: Table, k: Key)
    ensures
      var cloned := LazyClone(peers, detached, routes, k);
      cloned.Keys == peers.Keys && forall p | p in peers :: cloned[p].postOut == peers[p].postOut
  {
  }

  lemma ChangeKeepsSets(g: Group, c: Change)
    requires SetsOk(g)
    ensures var h := ProcessForGroup(g, c);
      SetsOk(h) && h.sync == g.sync && h.detached == g.detached && h.numInSync == g.numInSync
      && h.peers.Keys == g.peers.Keys && h.families == g.families
      && forall p | p in g.peers :: h.peers[p].postOut == g.peers[p].postOut
  {
    LazyCloneFrame(g.peers, g.detached, g.routes, c.key);
    var h := ProcessForGroup(g, c);
    assert h.sync == g.sync && h.detached == g.detached && h.blocked == g.blocked;
    assert h.peers.Keys == g.peers.Keys;
    forall p
      ensures p in h.peers <==> p in h.sync || p in h.detached
    {
      assert p in h.peers <==> p in h.peers.Keys;
    }
  }

  lemma ChangeCounts(g: Group, c: Change)
    requires SetsOk(g) && CountsOk(g) && Invisible(g, c)
    ensures CountsOk(ProcessForGroup(g, c))
  {
    var h := ProcessForGroup(g, c);
    ChangeKeepsSets(g, c);
    GroupChangeInvisibleIff(g, c);
    if AfiOf(c.key.prefix) in g.families {
      ProcessTable(RibOut(g.routes, g.packing), c, false);
      RecountFollows(g.routes, h.routes, c.key);
    }
  }

  lemma RetotalFollows(rest: nat, n: nat, count: nat, others: nat, was: Option<BgpPath>, now: Option<BgpPath>,
                       total: nat)
    requires (was.Some? ==> count > 0) && total == rest + (Times(n, count) + others)
    ensures Retotal(total, count, was, now, n) == rest + (Times(n, Recount(count, was, now)) + others)
  {
    if was.None? && now.Some? {
      TimesMore(n, count);
    } else if was.Some? && now.None? {
      TimesMore(n, count - 1);
    }
  }

  lemma ChangeContribution(g: Group, c: Change)
    requires SetsOk(g) && AfiOf(c.key.prefix) in g.families
    ensures
      var h := ProcessForGroup(g, c);
      Contribution(h) == Times(|g.sync|, Recount(g.postOut, Post(g.routes, c.key), Post(h.routes, c.key)))
        + Sum(DetachedCounts(g))
  {
    ChangeKeepsSets(g, c);
    assert DetachedCounts(ProcessForGroup(g, c)) == DetachedCounts(g);
  }

  lemma ChangeTotal(g: Group, c: Change, rest: nat, total: nat)
    requires SetsOk(g) && CountsOk(g) && g.numInSync == |g.sync| && total == rest + Contribution(g)
    ensures TotalForGroup(total, g, c) == rest + Contribution(ProcessForGroup(g, c))
  {
    if AfiOf(c.key.prefix) in g.families {
      var now := Post(ProcessForGroup(g, c).routes, c.key);
      AdvAt(g.routes, c.key);
      RetotalFollows(rest, |g.sync|, g.postOut, Sum(DetachedCounts(g)), Post(g.routes, c.key), now, total);
      ChangeContribution(g, c);
    }
  }

  lemma ChangeOk(g: Group, c: Change, h: Group)
    requires SetsOk(g) && CountsOk(g) && Invisible(g, c) && h == ProcessForGroup(g, c)
    ensures SetsOk(h) && CountsOk(h) && (g.numInSync == |g.sync| ==> h.numInSync == |h.sync|)
  {
    ChangeKeepsSets(g, c);
    ChangeCounts(g, c);
  }

  lemma {:induction false} BatchCounts(g: Group, cs: seq<Change>, bound: nat)
    requires SetsOk(g) && CountsOk(g) && Consumable(g, cs, bound)
    ensures CountsOk(ProcessAll(g, cs)) && SetsOk(ProcessAll(g, cs))
    decreases cs
  {
    if cs != [] {
      ChangeOk(g, cs[0], ProcessForGroup(g, cs[0]));
      BatchCounts(ProcessForGroup(g, cs[0]), cs[1..], bound);
    }
  }

  lemma ChangeNext(g: Group, c: Change, rest: nat, total: nat, h: Group)
    requires SetsOk(g) && CountsOk(g) && g.numInSync == |g.sync| && Invisible(g, c)
    requires total == rest + Contribution(g) && h == ProcessForGroup(g, c)
    ensures SetsOk(h) && CountsOk(h) && h.numInSync == |h.sync|
    ensures TotalForGroup(total, g, c) == rest + Contribution(h)
  {
    ChangeOk(g, c, h);
    ChangeTotal(g, c, rest, total);
  }

  lemma {:induction false} BatchTotal(g: Group, cs: seq<Change>, bound: nat, rest: nat, total: nat)
    requires SetsOk(g) && CountsOk(g) && g.numInSync == |g.sync| && Consumable(g, cs, bound)
    requires total == rest + Contribution(g)
    ensures TotalForAll(total, g, cs) == rest + Contribution(ProcessAll(g, cs))
    decreases cs
  {
    if cs != [] {
      var h := ProcessForGroup(g, cs[0]);
      ChangeNext(g, cs[0], rest, total, h);
      BatchTotal(h, cs[1..], bound, rest, TotalForGroup(total, g, cs[0]));
    }
  }

  lemma LastSeenCounts(g: Group, v: nat)
    requires CountsOk(g)
    ensures CountsOk(g.(lastSeen := v)) && Contribution(g.(lastSeen := v)) == Contribution(g)
  {
    SameContribution(g, g.(lastSeen := v));
  }

  lemma MarkCounts(g: Group)
    requires SetsOk(g) && CountsOk(g)
    ensures CountsOk(MarkAll(g)) && Contribution(MarkAll(g)) == Contribution(g)
  {
    MarkTables(g);
    FrameCounts(g, MarkAll(g));
    SameContribution(g, MarkAll(g));
  }

  lemma ConsumeCounts(g: Group, cs: seq<Change>, v: nat, rest: nat, total: nat)
    requires SetsOk(g) && CountsOk(g) && g.numInSync == |g.sync| && Consumable(g, cs, Max(g.lastSeen, v))
    requires total == rest + Contribution(g)
    ensures CountsOk(Consume(g, cs, v)) && SetsOk(Consume(g, cs, v))
    ensures TotalForAll(total, g, cs) == rest + Contribution(Consume(g, cs, v))
  {
    BatchCounts(g, cs, Max(g.lastSeen, v));
    BatchTotal(g, cs, Max(g.lastSeen, v), rest, total);
    var h := ProcessAll(g, cs);
    LastSeenCounts(h, Max(h.lastSeen, v));
  }

  // ---------------------------------------------------------------- a peer's own changes

  lemma PeerChangeCounts(g: Group, p: PeerId, c: Change, refresh: bool, h: Group)
    requires SetsOk(g) && CountsOk(g) && CanProcess(g, p, c) && AfiOf(c.key.prefix) in g.families
    requires h == g.(peers := g.peers[p := AfterChange(g.peers[p], g.routes, c, refresh)])
    ensures CountsOk(h)
    ensures h.peers[p].postOut == |Adv(TableOf(h, p))|
  {
    var q := g.peers[p];
    var view := View(q.own, g.routes, q.detachVersion);
    CopyOnWriteViewIff(q, g.routes, c, refresh);
    WritableAt(q, g.routes, c.key);
    ProcessTable(RibOut(view, q.packing), c, refresh);
    ProcessTable(RibOut(Writable(q, g.routes, c.key), q.packing), c, refresh);
    RecountFollows(view, Process(RibOut(view, q.packing), c, refresh).table, c.key);
  }

  lemma OneCount(g: Group, h: Group, p: PeerId)
    requires p in g.detached && p in g.peers && p in h.peers && h.peers == g.peers[p := h.peers[p]]
    requires h.sync == g.sync && h.detached == g.detached && h.postOut == g.postOut
    ensures Contribution(g) >= g.peers[p].postOut
    ensures Contribution(h) == Contribution(g) - g.peers[p].postOut + h.peers[p].postOut
  {
    SumUpdate(DetachedCounts(g), p, h.peers[p].postOut);
    assert DetachedCounts(h) == DetachedCounts(g)[p := h.peers[p].postOut];
  }

  lemma RetotalOne(total: nat, count: nat, was: Option<BgpPath>, now: Option<BgpPath>)
    requires total >= count && (was.Some? ==> count > 0)
    ensures Retotal(total, count, was, now, 1) == total - count + Recount(count, was, now)
  {
  }

  /** A detached peer that shows a route has counted it. */
  lemma ShownIsCounted(g: Group, p: PeerId, k: Key)
    requires CountsOk(g) && p in g.detached && p in g.peers && p !in g.sync
    ensures Post(Writable(g.peers[p], g.routes, k), k).Some? ==> g.peers[p].postOut > 0
  {
    var q := g.peers[p];
    WritableAt(q, g.routes, k);
    AdvAt(View(q.own, g.routes, q.detachVersion), k);
  }

  lemma AfterChangeCount(q: Peer, routes: Table, c: Change, refresh: bool, r: Peer)
    requires r == AfterChange(q, routes, c, refresh)
    ensures r.postOut == Recount(q.postOut, Post(Writable(q, routes, c.key), c.key), Post(r.own, c.key))
  {
  }

  lemma PeerTotalIs(total: nat, q: Peer, routes: Table, c: Change, refresh: bool, r: Peer)
    requires r == AfterChange(q, routes, c, refresh) && total >= q.postOut
    requires Post(Writable(q, routes, c.key), c.key).Some? ==> q.postOut > 0
    ensures TotalForPeer(total, q, routes, c, refresh) == total - q.postOut + r.postOut
  {
    AfterChangeCount(q, routes, c, refresh, r);
    RetotalOne(total, q.postOut, Post(Writable(q, routes, c.key), c.key), Post(r.own, c.key));
  }

  lemma PeerChangeTotal(g: Group, p: PeerId, c: Change, refresh: bool, h: Group, rest: nat, total: nat)
    requires SetsOk(g) && CountsOk(g) && p in g.detached && p in g.peers && total == rest + Contribution(g)
    requires h == g.(peers := g.peers[p := AfterChange(g.peers[p], g.routes, c, refresh)])
    ensures TotalForPeer(total, g.peers[p], g.routes, c, refresh) == rest + Contribution(h)
  {
    ShownIsCounted(g, p, c.key);
    OneCount(g, h, p);
    PeerTotalIs(total, g.peers[p], g.routes, c, refresh, h.peers[p]);
  }

  // ---------------------------------------------------------------- members changing sides

  lemma PushCounts(g: Group, m: Message, targets: set<PeerId>, stuck: set<PeerId>, slow: set<PeerId>)
    requires SetsOk(g) && PushArgs(g, targets, stuck, slow)
    ensures Contribution(Push(g, m, targets, stuck, slow)) == Contribution(g)
    ensures CountsCarried(g, Push(g, m, targets, stuck, slow))
  {
    LeaveContribution(g, Push(g, m, targets, stuck, slow), slow);
  }

  lemma SendUpdateCounts(g: Group, b: Bucket, keys: set<Key>, stuck: set<PeerId>, slow: set<PeerId>)
    requires Inv(g) && CountsOk(g) && CanSendUpdate(g, b, keys, stuck, slow)
    ensures CountsOk(SendUpdate(g, b, keys, stuck, slow))
    ensures Contribution(SendUpdate(g, b, keys, stuck, slow)) == Contribution(g)
  {
    var g0, h := g.(packing := TakeFrom(g.packing, b, keys)), SendUpdate(g, b, keys, stuck, slow);
    SendUpdateTables(g, b, keys, stuck, slow);
    PushCounts(g0, Update(b.attrs, keys), g.sync, stuck, slow);
    SameContribution(g, g0);
    SameContribution(Push(g0, Update(b.attrs, keys), g.sync, stuck, slow), h);
    FrameCounts(g, h);
  }

  lemma SendEndOfRibCounts(g: Group, afi: Afi, stuck: set<PeerId>, slow: set<PeerId>)
    requires Inv(g) && CountsOk(g) && CanSendEndOfRib(g, afi, stuck, slow)
    ensures CountsOk(SendEndOfRib(g, afi, stuck, slow))
    ensures Contribution(SendEndOfRib(g, afi, stuck, slow)) == Contribution(g)
  {
    var h := SendEndOfRib(g, afi, stuck, slow);
    SendEndOfRibTables(g, afi, stuck, slow);
    PushCounts(g, EndOfRib(afi), Owing(g, afi), stuck, slow);
    SameContribution(Push(g, EndOfRib(afi), Owing(g, afi), stuck, slow), h);
    FrameCounts(g, h);
  }

  lemma DetachCounts(g: Group, p: PeerId)
    requires Inv(g) && CountsOk(g) && p in g.sync
    ensures CountsOk(Detach(g, p)) && Contribution(Detach(g, p)) == Contribution(g)
  {
    DetachTables(g, p);
    LeaveContribution(g, LeftSync(g, p), {p});
    SameContribution(LeftSync(g, p), Detach(g, p));
    FrameCounts(g, Detach(g, p));
  }

  /** Peers rejoining with the group's count leave the total alone. */
  lemma JoinContribution(g: Group, h: Group, joining: set<PeerId>)
    requires SetsOk(h) && joining !! g.sync && joining <= g.detached
    requires h.peers.Keys == g.peers.Keys && h.sync == g.sync + joining && h.detached == g.detached - joining
    requires h.postOut == g.postOut
    requires forall p | p in h.detached :: h.peers[p].postOut == g.peers[p].postOut
    requires forall p | p in joining :: g.peers[p].postOut == g.postOut
    ensures Contribution(h) == Contribution(g)
  {
    assert g.sync == h.sync - joining && g.detached == h.detached + joining;
    LeaveContribution(h, g, joining);
  }

  lemma AcceptCounts(g: Group, candidates: set<PeerId>, h: Group)
    requires SetsOk(g) && PeersOk(g) && RoutesOk(g.routes, g.lastSeen) && CanAccept(g, candidates) && CountsOk(g)
    requires Accepted(g, candidates) == candidates && CollapsedTo(g, candidates, h) && h.postOut == g.postOut
    ensures CountsOk(h) && Contribution(h) == Contribution(g)
  {
    CollapseSets(g, candidates, h);
    forall p | p in candidates
      ensures p in g.detached && g.peers[p].postOut == g.postOut
    {
      CollapseTables(g, candidates, h, p);
      SamePostsSameCount(TableOf(g, p), g.routes);
    }
    forall p | p in h.detached && p in h.peers
      ensures h.peers[p].postOut == |Adv(TableOf(h, p))|
    {
      CollapseTables(g, candidates, h, p);
    }
    JoinContribution(g, h, candidates);
  }

  lemma FastRejoinCounts(g: Group, p: PeerId)
    requires Inv(g) && CountsOk(g) && CanFastRejoin(g, p)
    ensures CountsOk(FastRejoin(g, p)) && Contribution(FastRejoin(g, p)) == Contribution(g)
  {
    FastRejoinTables(g, p);
    UntouchedView(g.peers[p], g.routes);
    FastRejoinSets(g, p);
    JoinContribution(g, FastRejoin(g, p), {p});
    FrameCounts(g, FastRejoin(g, p));
  }

  lemma FastRejoinSets(g: Group, p: PeerId)
    requires SetsOk(g) && p in g.detached
    ensures SetsOk(FastRejoin(g, p))
  {
  }

  /** The detached counts once `p` is no longer among the detached peers. */
  lemma CountsWithout(g: Group, h: Group, p: PeerId)
    requires p in g.detached && p in g.peers && h.detached == g.detached - {p}
    requires forall r | r in h.detached :: r in h.peers <==> r in g.peers
    requires forall r | r in h.detached && r in g.peers :: h.peers[r].postOut == g.peers[r].postOut
    ensures Sum(DetachedCounts(g)) == g.peers[p].postOut + Sum(DetachedCounts(h))
  {
    SumRemove(DetachedCounts(g), p);
    assert DetachedCounts(h) == DetachedCounts(g) - {p};
  }

  lemma PromoteFields(g: Group, p: PeerId)
    requires p in g.detached && p in g.peers && g.sync == {}
    ensures
      var h := Promote(g, p);
      h.sync == {p} && h.detached == g.detached - {p} && h.postOut == g.peers[p].postOut
      && forall r | r in h.detached && r in g.peers :: h.peers[r].postOut == g.peers[r].postOut
  {
  }

  lemma PromoteContribution(g: Group, p: PeerId, h: Group)
    requires p in g.detached && p in g.peers && g.sync == {} && h.peers.Keys == g.peers.Keys
    requires h.sync == {p} && h.detached == g.detached - {p} && h.postOut == g.peers[p].postOut
    requires forall r | r in h.detached && r in g.peers :: h.peers[r].postOut == g.peers[r].postOut
    ensures Contribution(h) == Contribution(g)
  {
    CountsWithout(g, h, p);
    assert |h.sync| == 1 && |g.sync| == 0;
    assert Times(1, h.postOut) == h.postOut + Times(0, h.postOut);
  }

  lemma PromoteCounts(g: Group, p: PeerId, h: Group)
    requires MembersOk(g) && Positive(g.routes) && CanPromote(g, p) && Positive(g.peers[p].own) && CountsOk(g)
    requires h == Promote(g, p)
    ensures CountsOk(h) && Contribution(h) == Contribution(g)
  {
    PromoteTables(g, p);
    PromoteFields(g, p);
    PromoteContribution(g, p, h);
  }

  // ---------------------------------------------------------------- joining and leaving

  lemma RegisterContribution(g: Group, p: PeerId)
    requires SetsOk(g) && (g.initialized || g.postOut == 0) && p !in g.peers
    ensures Contribution(Register(g, p)) == Contribution(g)
  {
    assert p !in g.detached && p !in g.sync;
    if g.initialized {
      RegisterDetachedSum(g, p);
    } else {
      assert DetachedCounts(Register(g, p)) == DetachedCounts(g);
    }
  }

  lemma RegisterDetachedSum(g: Group, p: PeerId)
    requires SetsOk(g) && g.initialized && p !in g.peers && p !in g.detached
    ensures Sum(DetachedCounts(Register(g, p))) == Sum(DetachedCounts(g))
  {
    assert DetachedCounts(Register(g, p)) == DetachedCounts(g)[p := 0];
    SumAdd(DetachedCounts(g), p, 0);
  }

  lemma RegisterTablesCount(g: Group, p: PeerId, h: Group)
    requires CountsOk(g) && p !in g.peers && h.postOut == g.postOut
    requires p in h.peers && h.peers == g.peers[p := h.peers[p]] && h.peers[p].postOut == 0
    requires (forall r | r != p :: r in h.detached <==> r in g.detached) && Abs(h) == Abs(g).(tables := Abs(g).tables[p := map[]])
    ensures CountsOk(h)
  {
    AbsAt(g);
    AbsAt(h);
    assert Adv(map[]) == {};
    forall r | r in h.detached && r in h.peers
      ensures h.peers[r].postOut == |Adv(TableOf(h, r))|
    {
      assert Abs(h).tables[r] == if r == p then map[] else Abs(g).tables[r];
    }
  }

  lemma RegisterCounts(g: Group, p: PeerId)
    requires SetsOk(g) && Positive(g.routes) && (!g.initialized ==> g.routes == map[]) && CountsOk(g) && p !in g.peers
    ensures CountsOk(Register(g, p)) && Contribution(Register(g, p)) == Contribution(g)
  {
    assert g.routes == map[] ==> Adv(g.routes) == {};
    RegisterTables(g, p);
    RegisterTablesCount(g, p, Register(g, p));
    RegisterContribution(g, p);
  }

  lemma WithoutContribution(g: Group, p: PeerId, h: Group)
    requires SetsOk(g) && p in g.peers
    requires h.sync == g.sync - {p} && h.detached == g.detached - {p} && h.peers == g.peers - {p} && h.postOut == g.postOut
    ensures Contribution(g) == Contribution(h) + (if p in g.detached then g.peers[p].postOut else g.postOut)
  {
    if p in g.detached {
      assert h.sync == g.sync;
      CountsWithout(g, h, p);
    } else {
      WithoutSync(g, p, h);
    }
  }

  lemma WithoutSync(g: Group, p: PeerId, h: Group)
    requires SetsOk(g) && p in g.sync
    requires h.sync == g.sync - {p} && h.detached == g.detached - {p} && h.peers == g.peers - {p} && h.postOut == g.postOut
    ensures Contribution(g) == Contribution(h) + g.postOut
  {
    assert DetachedCounts(h) == DetachedCounts(g);
    var n: nat := |g.sync - {p}|;
    CardMinus(g.sync, {p});
    Distribute(n, 1, g.postOut);
  }

  lemma UnregisterFields(g: Group, p: PeerId)
    requires p in g.peers
    ensures
      var h := Unregister(g, p);
      h.sync == g.sync - {p} && h.detached == g.detached - {p} && h.peers == g.peers - {p} && h.postOut == g.postOut
      && h.routes == g.routes
  {
  }

  lemma WithoutCounts(g: Group, p: PeerId, h: Group)
    requires CountsOk(g) && h.routes == g.routes && h.postOut == g.postOut
    requires h.detached == g.detached - {p} && h.peers == g.peers - {p}
    ensures CountsOk(h)
  {
    forall r | r in h.detached && r in h.peers ensures TableOf(h, r) == TableOf(g, r) { }
  }

  lemma UnregisterCounts(g: Group, p: PeerId, rest: nat, total: nat)
    requires SetsOk(g) && p in g.peers && CountsOk(g) && total == rest + Contribution(g)
    ensures CountsOk(Unregister(g, p)) && TotalWithout(total, g, p) == rest + Contribution(Unregister(g, p))
  {
    UnregisterFields(g, p);
    WithoutCounts(g, p, Unregister(g, p));
    WithoutContribution(g, p, Unregister(g, p));
  }

  // ---------------------------------------------------------------- every step

  lemma QuietCounts(g: Group, e: Event)
    requires SetsOk(g) && CountsOk(g) && Enabled(g, e)
    requires e.BuildStarted? || e.BuildResumed? || e.BuildFinished? || e.PushLanded? || e.PeerSent?
      || e.PeerSentEndOfRib? || e.PeerOwed? || e.PeerSaw? || e.PeerTurned?
    ensures CountsOk(Step(g, e)) && Contribution(Step(g, e)) == Contribution(g)
  {
    QuietFollows(g, e);
    if e.PushLanded? || e.PeerSent? || e.PeerSentEndOfRib? { QuietSends(g, e); } else { QuietFlags(g, e); }
    FrameCounts(g, Step(g, e));
    SameContribution(g, Step(g, e));
  }

  ghost predicate CountsUntouched(g: Group, h: Group) {
    && h.sync == g.sync && h.detached == g.detached && h.postOut == g.postOut && h.peers.Keys == g.peers.Keys
    && forall p | p in g.peers :: h.peers[p].postOut == g.peers[p].postOut
  }

  lemma QuietSends(g: Group, e: Event)
    requires Enabled(g, e) && (e.PushLanded? || e.PeerSent? || e.PeerSentEndOfRib?)
    ensures CountsUntouched(g, Step(g, e))
  {
  }

  lemma QuietFlags(g: Group, e: Event)
    requires Enabled(g, e)
    requires e.BuildStarted? || e.BuildResumed? || e.BuildFinished? || e.PeerOwed? || e.PeerSaw? || e.PeerTurned?
    ensures CountsUntouched(g, Step(g, e))
  {
  }

  lemma PeerChangedCounts(g: Group, p: PeerId, c: Change, refresh: bool, rest: nat, total: nat)
    requires SetsOk(g) && CountsOk(g) && CanProcess(g, p, c) && total == rest + Contribution(g)
    ensures CountsOk(ProcessForPeer(g, p, c, refresh))
    ensures TotalAfter(total, g, p, c, refresh) == rest + Contribution(ProcessForPeer(g, p, c, refresh))
  {
    if AfiOf(c.key.prefix) in g.families {
      PeerChangeCounts(g, p, c, refresh, ProcessForPeer(g, p, c, refresh));
      PeerChangeTotal(g, p, c, refresh, ProcessForPeer(g, p, c, refresh), rest, total);
    }
  }

  /** Members coming back: the total stays. */
  lemma JoinConserves(g: Group, e: Event)
    requires Inv(g) && CountsOk(g) && Enabled(g, e) && NoFailedRejoin(g, e)
    requires e.PeersCollapsed? || e.PeerRejoinedFast? || e.PeerPromoted?
    ensures CountsOk(Step(g, e)) && Contribution(Step(g, e)) == Contribution(g)
  {
    match e
    case PeersCollapsed(candidates) =>
      AcceptIsCollapse(g, candidates);
      AcceptCounts(g, candidates, Accept(g, candidates));
    case PeerRejoinedFast(p) => FastRejoinCounts(g, p);
    case PeerPromoted(p) =>
      assert DetachedOk(g.peers[p], g.routes, g.lastSeen);
      PromoteCounts(g, p, Promote(g, p));
  }

  /** Members leaving or registering, and the builder sending: the total stays. */
  lemma LeaveConserves(g: Group, e: Event)
    requires Inv(g) && CountsOk(g) && Enabled(g, e)
    requires e.UpdateSent? || e.EndOfRibSent? || e.PeerDetached? || e.PeerRegistered?
    ensures CountsOk(Step(g, e)) && Contribution(Step(g, e)) == Contribution(g)
  {
    match e
    case UpdateSent(b, keys, stuck, slow) => SendUpdateCounts(g, b, keys, stuck, slow);
    case EndOfRibSent(afi, stuck, slow) => SendEndOfRibCounts(g, afi, stuck, slow);
    case PeerDetached(p) => DetachCounts(g, p);
    case PeerRegistered(p) => RegisterCounts(g, p);
  }

  predicate Quiet(e: Event) {
    e.BuildStarted? || e.BuildResumed? || e.BuildFinished? || e.PushLanded? || e.PeerSent?
    || e.PeerSentEndOfRib? || e.PeerOwed? || e.PeerSaw? || e.PeerTurned?
  }

  predicate ComesBack(e: Event) {
    e.PeersCollapsed? || e.PeerRejoinedFast? || e.PeerPromoted?
  }

  predicate GoesAway(e: Event) {
    e.UpdateSent? || e.EndOfRibSent? || e.PeerDetached? || e.PeerRegistered?
  }

  lemma TotalStays(total: nat, g: Group, e: Event)
    requires Enabled(g, e) && (Quiet(e) || ComesBack(e) || GoesAway(e))
    ensures NextTotal(total, g, e) == total
  {
  }

  /** The counters hold after the step, and the total moved with the group's share. */
  ghost predicate Conserved(g: Group, e: Event, rest: nat, total: nat)
    requires Enabled(g, e)
  {
    CountsOk(Step(g, e)) && NextTotal(total, g, e) == rest + Contribution(Step(g, e))
  }

  lemma StayedConserved(g: Group, e: Event, rest: nat, total: nat)
    requires Enabled(g, e) && NextTotal(total, g, e) == total && total == rest + Contribution(g)
    requires CountsOk(Step(g, e)) && Contribution(Step(g, e)) == Contribution(g)
    ensures Conserved(g, e, rest, total)
  {
  }

  /** The step leads to `h` and the total to `next`. */
  ghost predicate LeadsTo(g: Group, e: Event, total: nat, h: Group, next: nat) {
    Enabled(g, e) && Step(g, e) == h && NextTotal(total, g, e) == next
  }

  lemma OutcomeConserved(g: Group, e: Event, rest: nat, total: nat, h: Group, next: nat)
    requires LeadsTo(g, e, total, h, next) && CountsOk(h) && next == rest + Contribution(h)
    ensures Conserved(g, e, rest, total)
  {
  }

  lemma DumpOutcome(g: Group, cs: seq<Change>, v: nat, total: nat)
    requires CanDump(g, cs, v)
    ensures LeadsTo(g, Dumped(cs, v), total, Dump(g, cs, v), TotalForAll(total, g, cs))
  {
  }

  lemma ConsumeOutcome(g: Group, cs: seq<Change>, v: nat, total: nat)
    requires g.initialized && Consumable(g, cs, Max(g.lastSeen, v))
    ensures LeadsTo(g, Consumed(cs, v), total, Consume(g, cs, v), TotalForAll(total, g, cs))
  {
  }

  lemma UnregisterOutcome(g: Group, p: PeerId, total: nat)
    requires p in g.peers
    ensures LeadsTo(g, PeerUnregistered(p), total, Unregister(g, p), TotalWithout(total, g, p))
  {
  }

  lemma PeerChangeOutcome(g: Group, p: PeerId, c: Change, refresh: bool, total: nat)
    requires CanProcess(g, p, c)
    ensures LeadsTo(g, PeerChanged(p, c, refresh), total, ProcessForPeer(g, p, c, refresh), TotalAfter(total, g, p, c, refresh))
  {
  }

  function TotalAfter(total: nat, g: Group, p: PeerId, c: Change, refresh: bool): nat
    requires p in g.peers
  {
    if AfiOf(c.key.prefix) !in g.families then total else TotalForPeer(total, g.peers[p], g.routes, c, refresh)
  }

  /** What a conserving step needs to know of the invariant. */
  ghost predicate Countable(g: Group) {
    SetsOk(g) && g.numInSync == |g.sync|
  }

  lemma DumpConserves(g: Group, cs: seq<Change>, v: nat, rest: nat, total: nat)
    requires Countable(g) && CountsOk(g) && CanDump(g, cs, v) && total == rest + Contribution(g)
    ensures Conserved(g, Dumped(cs, v), rest, total)
  {
    ConsumeCounts(g, cs, v, rest, total);
    MarkCounts(Consume(g, cs, v));
    DumpOutcome(g, cs, v, total);
    OutcomeConserved(g, Dumped(cs, v), rest, total, Dump(g, cs, v), TotalForAll(total, g, cs));
  }

  lemma BatchConserves(g: Group, cs: seq<Change>, v: nat, rest: nat, total: nat)
    requires Countable(g) && CountsOk(g) && g.initialized && Consumable(g, cs, Max(g.lastSeen, v))
    requires total == rest + Contribution(g)
    ensures Conserved(g, Consumed(cs, v), rest, total)
  {
    ConsumeCounts(g, cs, v, rest, total);
    ConsumeOutcome(g, cs, v, total);
    OutcomeConserved(g, Consumed(cs, v), rest, total, Consume(g, cs, v), TotalForAll(total, g, cs));
  }

  lemma UnregisterConserves(g: Group, p: PeerId, rest: nat, total: nat)
    requires SetsOk(g) && CountsOk(g) && p in g.peers && total == rest + Contribution(g)
    ensures Conserved(g, PeerUnregistered(p), rest, total)
  {
    UnregisterCounts(g, p, rest, total);
    UnregisterOutcome(g, p, total);
    OutcomeConserved(g, PeerUnregistered(p), rest, total, Unregister(g, p), TotalWithout(total, g, p));
  }

  lemma PeerChangeConserves(g: Group, p: PeerId, c: Change, refresh: bool, rest: nat, total: nat)
    requires SetsOk(g) && CountsOk(g) && CanProcess(g, p, c) && total == rest + Contribution(g)
    ensures Conserved(g, PeerChanged(p, c, refresh), rest, total)
  {
    PeerChangedCounts(g, p, c, refresh, rest, total);
    PeerChangeOutcome(g, p, c, refresh, total);
    OutcomeConserved(g, PeerChanged(p, c, refresh), rest, total, ProcessForPeer(g, p, c, refresh),
                     TotalAfter(total, g, p, c, refresh));
  }

  /** Routes changing and members leaving for good: the total moves with the share. */
  lemma ChangeConserves(g: Group, e: Event, rest: nat, total: nat)
    requires Countable(g) && CountsOk(g) && Enabled(g, e) && total == rest + Contribution(g)
    requires e.Dumped? || e.Consumed? || e.PeerUnregistered? || e.PeerChanged?
    ensures Conserved(g, e, rest, total)
  {
    match e
    case Dumped(cs, v) => DumpConserves(g, cs, v, rest, total);
    case Consumed(cs, v) => BatchConserves(g, cs, v, rest, total);
    case PeerUnregistered(p) => UnregisterConserves(g, p, rest, total);
    case PeerChanged(p, c, refresh) => PeerChangeConserves(g, p, c, refresh, rest, total);
  }

  lemma StayConserves(g: Group, e: Event, rest: nat, total: nat)
    requires Inv(g) && CountsOk(g) && Enabled(g, e) && NoFailedRejoin(g, e) && total == rest + Contribution(g)
    requires Quiet(e) || ComesBack(e) || GoesAway(e)
    ensures Conserved(g, e, rest, total)
  {
    if Quiet(e) { QuietCounts(g, e); } else if ComesBack(e) { JoinConserves(g, e); } else { LeaveConserves(g, e); }
    TotalStays(total, g, e);
    StayedConserved(g, e, rest, total);
  }

  /**
    Conservation.  In every step without a failed rejoin, each counter keeps equalling the
    routes it counts, and the global total moves exactly as the members' share of it.
   */
  lemma StepConserves(g: Group, e: Event, rest: nat, total: nat)
    requires Inv(g) && CountsOk(g) && Enabled(g, e) && NoFailedRejoin(g, e)
    requires total == rest + Contribution(g)
    ensures Conserved(g, e, rest, total)
  {
    if e.Dumped? || e.Consumed? || e.PeerUnregistered? || e.PeerChanged? {
      ChangeConserves(g, e, rest, total);
    } else {
      StayConserves(g, e, rest, total);
    }
  }

  /** A group's share, written with the product the counters stand for. */
  lemma ShareIs(g: Group)
    ensures Contribution(g) == |g.sync| * g.postOut + Sum(DetachedCounts(g))
  {
    TimesIs(|g.sync|, g.postOut);
  }
}
