/**
  Re-evaluating a best-path group under a new egress policy: walk the shadow RIB, skipping
  the entries already pending on the group's change list, then drain the change list.
 */
module ReEvaluation {
  import opened Types
  import opened Advertised
  import opened GroupState
  import opened PrivateRibOut
  import opened LiteTree

  datatype Best = Best(attrs: BgpPath, inUpdate: bool, inWithdraw: bool)

  datatype BestEntry = BestEntry(best: Option<Best>, version: nat)

  type BestRib = map<Prefix, BestEntry>

  /** What the announcement checks and the egress policy say about one path. */
  datatype Outcome = Outcome(result: Option<BgpPath>, nexthopByPolicy: bool, mayAnnounce: bool)

  type Policy = (Prefix, BgpPath) -> Outcome

  function KeyOf(prefix: Prefix): Key {
    Key(prefix, DEFAULT_PATH_ID)
  }

  function Announcement(policy: Policy, prefix: Prefix, attrs: BgpPath, version: nat): Change {
    var o := policy(prefix, attrs);
    Announce(KeyOf(prefix), version, attrs, o.result, o.nexthopByPolicy, o.mayAnnounce)
  }

  /** A change processed by the group. */
  function Applied(t: Table, families: set<Afi>, c: Change): Table {
    if AfiOf(c.key.prefix) in families then Process(RibOut(t, map[]), c, false).table else t
  }

  /** The entry the announcement of a best path leaves behind. */
  function Built(policy: Policy, families: set<Afi>, prefix: Prefix, attrs: BgpPath, version: nat): Option<Entry> {
    var o := policy(prefix, attrs);
    if AfiOf(prefix) in families && o.mayAnnounce then Some(Entry(attrs, o.result, version, o.nexthopByPolicy)) else None
  }

  /** The entry at a prefix of a RIB-OUT built from scratch. */
  function RebuiltAt(policy: Policy, families: set<Afi>, prefix: Prefix, e: BestEntry): Option<Entry> {
    if e.best.Some? && !e.best.value.inWithdraw then Built(policy, families, prefix, e.best.value.attrs, e.version) else None
  }

  /** The RIB-OUT built from scratch out of the shadow RIB. */
  function Rebuilt(policy: Policy, families: set<Afi>, shadow: BestRib): Table {
    map k | k in (set prefix | prefix in shadow :: KeyOf(prefix))
            && RebuiltAt(policy, families, k.prefix, shadow[k.prefix]).Some?
      :: RebuiltAt(policy, families, k.prefix, shadow[k.prefix]).value
  }

  // ---------------------------------------------------------------- one entry

  /** The walk over an entry that is not pending. */
  function WalkOne(t: Table, policy: Policy, families: set<Afi>, prefix: Prefix, e: BestEntry): Table {
    if e.best.None? || e.best.value.inWithdraw then t
    else Applied(t, families, Announcement(policy, prefix, e.best.value.attrs, e.version))
  }

  /** The change list delivering an entry. */
  function DrainOne(t: Table, policy: Policy, families: set<Afi>, prefix: Prefix, e: BestEntry): Table {
    if e.best.None? then t
    else if e.best.value.inUpdate then Applied(t, families, Announcement(policy, prefix, e.best.value.attrs, e.version))
    else if e.best.value.inWithdraw then Applied(t, families, Withdraw(KeyOf(prefix), e.version))
    else t
  }

  /** What the walk or the change list leaves at its prefix; `was` is what was there. */
  function Left(policy: Policy, families: set<Afi>, prefix: Prefix, e: BestEntry, pending: bool, was: Option<Entry>): Option<Entry> {
    if e.best.None? || AfiOf(prefix) !in families then was
    else if pending then
      if e.best.value.inUpdate then Built(policy, families, prefix, e.best.value.attrs, e.version)
      else if e.best.value.inWithdraw then None else was
    else if e.best.value.inWithdraw then was
    else Built(policy, families, prefix, e.best.value.attrs, e.version)
  }

  /** What is left at any prefix. */
  function LeftAt(t: Table, policy: Policy, families: set<Afi>, shadow: BestRib, pending: set<Prefix>, prefix: Prefix): Option<Entry> {
    if prefix in shadow then Left(policy, families, prefix, shadow[prefix], prefix in pending, Only(t, prefix))
    else Only(t, prefix)
  }

  lemma AppliedAt(t: Table, families: set<Afi>, c: Change, prefix: Prefix)
    requires Lite(t) && c.key.pathId == DEFAULT_PATH_ID
    ensures Lite(Applied(t, families, c))
    ensures prefix != c.key.prefix ==> Only(Applied(t, families, c), prefix) == Only(t, prefix)
    ensures AfiOf(c.key.prefix) in families ==>
      Only(Applied(t, families, c), c.key.prefix)
      == if Removes(c) then None else Some(Entry(c.pre, c.result, c.version, c.nexthopByPolicy))
  {
    ProcessTable(RibOut(t, map[]), c, false);
  }

  lemma StepAt(t: Table, policy: Policy, families: set<Afi>, prefix: Prefix, e: BestEntry, pending: bool, other: Prefix)
    requires Lite(t)
    ensures
      var t' := if pending then DrainOne(t, policy, families, prefix, e) else WalkOne(t, policy, families, prefix, e);
      Lite(t') && Only(t', other)
        == if other == prefix then Left(policy, families, prefix, e, pending, Only(t, prefix)) else Only(t, other)
  {
    if e.best.Some? {
      AppliedAt(t, families, Announcement(policy, prefix, e.best.value.attrs, e.version), other);
      AppliedAt(t, families, Withdraw(KeyOf(prefix), e.version), other);
    }
  }

  // ---------------------------------------------------------------- the walk and the drain

  /** The walk over everything that is not pending, then the drain of everything that is. */
  method ReEvaluate(t: Table, policy: Policy, families: set<Afi>, shadow: BestRib, pending: set<Prefix>) returns (r: Table)
    requires Lite(t) && pending <= shadow.Keys
    ensures Lite(r)
    ensures forall prefix :: Only(r, prefix) == LeftAt(t, policy, families, shadow, pending, prefix)
  {
    r := t;
    var todo := shadow.Keys;
    while todo != {}
      invariant todo <= shadow.Keys && Lite(r)
      invariant forall prefix ::
        Only(r, prefix)
        == if prefix in todo || prefix in pending then Only(t, prefix) else LeftAt(t, policy, families, shadow, pending, prefix)
    {
      var prefix :| prefix in todo;
      if prefix !in pending {
        forall other { StepAt(r, policy, families, prefix, shadow[prefix], false, other); }
        r := WalkOne(r, policy, families, prefix, shadow[prefix]);
      }
      todo := todo - {prefix};
    }
    todo := pending;
    while todo != {}
      invariant todo <= pending && Lite(r)
      invariant forall prefix ::
        Only(r, prefix)
        == if prefix in todo then Only(t, prefix) else LeftAt(t, policy, families, shadow, pending, prefix)
    {
      var prefix :| prefix in todo;
      forall other { StepAt(r, policy, families, prefix, shadow[prefix], true, other); }
      r := DrainOne(r, policy, families, prefix, shadow[prefix]);
      todo := todo - {prefix};
    }
  }

  // ---------------------------------------------------------------- incremental equals rebuild

  /** Routes that are not pending are in the RIB-OUT only while the shadow RIB has a live best path for them. */
  ghost predicate Live(t: Table, families: set<Afi>, shadow: BestRib, pending: set<Prefix>) {
    forall k | k in t && k.prefix !in pending ::
      k.prefix in shadow && AfiOf(k.prefix) in families
      && shadow[k.prefix].best.Some? && !shadow[k.prefix].best.value.inWithdraw
  }

  /**
    A pending entry the drain brings to its rebuilt state: flagged update or withdraw but not
    both, or left alone and already right, or flagged both with the announcement refused.
   */
  ghost predicate Drainable(was: Option<Entry>, policy: Policy, families: set<Afi>, prefix: Prefix, e: BestEntry) {
    if AfiOf(prefix) !in families || e.best.None? then was.None?
    else
      var b := e.best.value;
      if b.inUpdate then !b.inWithdraw || !policy(prefix, b.attrs).mayAnnounce
      else if b.inWithdraw then true
      else was == Built(policy, families, prefix, b.attrs, e.version)
  }

  lemma RebuiltOnly(policy: Policy, families: set<Afi>, shadow: BestRib, prefix: Prefix)
    ensures Lite(Rebuilt(policy, families, shadow))
    ensures Only(Rebuilt(policy, families, shadow), prefix) ==
      if prefix in shadow then RebuiltAt(policy, families, prefix, shadow[prefix]) else None
  {
    assert KeyOf(prefix).prefix == prefix;
  }

  lemma LeftIff(t: Table, policy: Policy, families: set<Afi>, shadow: BestRib, pending: set<Prefix>, prefix: Prefix)
    requires Lite(t) && Live(t, families, shadow, pending) && pending <= shadow.Keys && prefix in shadow
    ensures Left(policy, families, prefix, shadow[prefix], prefix in pending, Only(t, prefix))
        == RebuiltAt(policy, families, prefix, shadow[prefix])
      <==> (prefix in pending ==> Drainable(Only(t, prefix), policy, families, prefix, shadow[prefix]))
  {
    assert KeyOf(prefix).prefix == prefix;
  }

  lemma LiteEqual(t: Table, u: Table)
    requires Lite(t) && Lite(u)
    ensures t == u <==> forall prefix :: Only(t, prefix) == Only(u, prefix)
  {
    if forall prefix :: Only(t, prefix) == Only(u, prefix) {
      forall k | k in t || k in u
        ensures k in t && k in u && t[k] == u[k]
      {
        assert Only(t, k.prefix) == Only(u, k.prefix);
        assert k == Key(k.prefix, DEFAULT_PATH_ID);
      }
    }
  }

  /**
    Incremental equals rebuild: the re-evaluated RIB-OUT is the one built from scratch under
    the new policy if and only if every pending entry is `Drainable`.
   */
  lemma IncrementalIsRebuild(t: Table, policy: Policy, families: set<Afi>, shadow: BestRib, pending: set<Prefix>, r: Table)
    requires Lite(t) && pending <= shadow.Keys && Live(t, families, shadow, pending) && Lite(r)
    requires forall prefix :: Only(r, prefix) == LeftAt(t, policy, families, shadow, pending, prefix)
    ensures r == Rebuilt(policy, families, shadow) <==>
      forall prefix | prefix in pending :: Drainable(Only(t, prefix), policy, families, prefix, shadow[prefix])
  {
    var u := Rebuilt(policy, families, shadow);
    RebuiltOnly(policy, families, shadow, Prefix(true, 0, 0));
    LiteEqual(r, u);
    forall prefix
      ensures Only(r, prefix) == Only(u, prefix) <==>
        (prefix in pending ==> Drainable(Only(t, prefix), policy, families, prefix, shadow[prefix]))
    {
      RebuiltOnly(policy, families, shadow, prefix);
      if prefix in shadow {
        LeftIff(t, policy, families, shadow, pending, prefix);
      } else {
        assert KeyOf(prefix).prefix == prefix;
      }
    }
  }

  // ---------------------------------------------------------------- what the flags have to say

  /** The change list holds the prefix for one reason. */
  predicate FlaggedOnce(e: BestEntry) {
    e.best.Some? && e.best.value.inUpdate != e.best.value.inWithdraw
  }

  /** A RIB-OUT of the group's families in which what is not pending is live. */
  ghost predicate Admissible(t: Table, families: set<Afi>, shadow: BestRib, pending: set<Prefix>) {
    Lite(t) && Live(t, families, shadow, pending) && forall k | k in t :: AfiOf(k.prefix) in families
  }

  ghost predicate IsReEvaluated(t: Table, policy: Policy, families: set<Afi>, shadow: BestRib, pending: set<Prefix>, r: Table) {
    Lite(r) && forall prefix :: Only(r, prefix) == LeftAt(t, policy, families, shadow, pending, prefix)
  }

  /** Whatever the policies are, a re-evaluation is a rebuild if every pending best path is flagged once. */
  lemma FlaggedIsRebuild(t: Table, policy: Policy, families: set<Afi>, shadow: BestRib, pending: set<Prefix>, r: Table)
    requires pending <= shadow.Keys && Admissible(t, families, shadow, pending)
    requires IsReEvaluated(t, policy, families, shadow, pending, r)
    requires forall prefix | prefix in pending && AfiOf(prefix) in families :: FlaggedOnce(shadow[prefix])
    ensures r == Rebuilt(policy, families, shadow)
  {
    forall prefix | prefix in pending
      ensures Drainable(Only(t, prefix), policy, families, prefix, shadow[prefix])
    {
      assert KeyOf(prefix).prefix == prefix;
    }
    IncrementalIsRebuild(t, policy, families, shadow, pending, r);
  }

  /** A pending best path that is not flagged once has a RIB-OUT and a policy for which they differ. */
  lemma UnflaggedDiffers(families: set<Afi>, shadow: BestRib, pending: set<Prefix>, prefix: Prefix)
    returns (t: Table, policy: Policy)
    requires pending <= shadow.Keys && prefix in pending && AfiOf(prefix) in families && !FlaggedOnce(shadow[prefix])
    ensures Admissible(t, families, shadow, pending)
    ensures forall r | IsReEvaluated(t, policy, families, shadow, pending, r) :: r != Rebuilt(policy, families, shadow)
  {
    var attrs := BgpPath(0, [], 0, None, None, false, 0, [], 0, [], [], 0, None, 0);
    policy := (_, a) => Outcome(Some(a), false, true);
    t := if shadow[prefix].best.None? then map[KeyOf(prefix) := Entry(attrs, Some(attrs), 1, false)] else map[];
    assert KeyOf(prefix).prefix == prefix;
    assert !Drainable(Only(t, prefix), policy, families, prefix, shadow[prefix]);
    forall r | IsReEvaluated(t, policy, families, shadow, pending, r)
      ensures r != Rebuilt(policy, families, shadow)
    {
      IncrementalIsRebuild(t, policy, families, shadow, pending, r);
    }
  }

  /**
    A pending best path without a flag: the entry of the policy that let it through stays when
    the policy that denies it is re-evaluated.
   */
  lemma StaleEntryStays() returns (was: Policy, policy: Policy, shadow: BestRib, pending: set<Prefix>, prefix: Prefix, t: Table)
    ensures prefix in pending && pending <= shadow.Keys && t == Rebuilt(was, {IPv4}, shadow)
    ensures Admissible(t, {IPv4}, shadow, pending)
    ensures LeftAt(t, policy, {IPv4}, shadow, pending, prefix) == Only(t, prefix)
    ensures Only(t, prefix).Some? && Only(t, prefix).value.post.Some?
    ensures RebuiltAt(policy, {IPv4}, prefix, shadow[prefix]).Some?
      && RebuiltAt(policy, {IPv4}, prefix, shadow[prefix]).value.post.None?
  {
    var attrs := BgpPath(0, [], 0, None, None, false, 0, [], 0, [], [], 0, None, 0);
    was, policy := (_, a) => Outcome(Some(a), false, true), (_, _) => Outcome(None, false, true);
    prefix := Prefix(true, 0, 0);
    shadow, pending := map[prefix := BestEntry(Some(Best(attrs, false, false)), 1)], {prefix};
    t := Rebuilt(was, {IPv4}, shadow);
    RebuiltOnly(was, {IPv4}, shadow, prefix);
    assert KeyOf(prefix).prefix == prefix;
  }
}
