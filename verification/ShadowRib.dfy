/**
  The shadow RIB and its change list.  Every change of a prefix gets the next version and moves
  the prefix to the end of the list, so the list is the shadow RIB in version order, and where a
  consumer stands is a version: what changed after it is still due.  A path carries the version
  it was last flagged at.
 */
module ShadowRib {
  import opened Types
  import opened Advertised
  import opened GroupState
  import opened PrivateRibOut
  import opened GroupProcessing

  /** A path of the shadow RIB, withdrawn or live, and the version of its last flagged change. */
  datatype PathState = PathState(attrs: Option<BgpPath>, since: nat)

  const NO_PATH := PathState(None, 0)

  /** One prefix: the best path for groups without add-path, every path for those with it. */
  datatype ShadowEntry = ShadowEntry(version: nat, best: PathState, multi: map<PathId, PathState>)

  type Shadow = map<Prefix, ShadowEntry>

  function PathOf(s: Shadow, addPath: bool, k: Key): PathState {
    if k.prefix !in s then NO_PATH
    else if addPath then if k.pathId in s[k.prefix].multi then s[k.prefix].multi[k.pathId] else NO_PATH
    else if k.pathId == DEFAULT_PATH_ID then s[k.prefix].best
    else NO_PATH
  }

  function VersionOf(s: Shadow, prefix: Prefix): nat {
    if prefix in s then s[prefix].version else 0
  }

  /** Versions are positive, no newer than `top`, and no older than the paths they cover. */
  ghost predicate Stamped(s: Shadow, top: nat) {
    && (forall prefix | prefix in s :: 0 < s[prefix].version <= top)
    && (forall addPath, k :: PathOf(s, addPath, k).since <= VersionOf(s, k.prefix))
  }

  // ---------------------------------------------------------------- what a group makes of it

  datatype Decision = Decision(result: Option<BgpPath>, nexthopByPolicy: bool)

  /** What decides a group's RIB-OUT: its kind, the session-type and community checks, the egress policy. */
  datatype Control = Control(
    addPath: bool,
    families: set<Afi>,
    mayAnnounce: (Key, BgpPath) -> bool,
    policy: (Key, BgpPath) -> Decision)

  /** The route has an entry, denied by the policy or not. */
  predicate Entered(ctl: Control, s: Shadow, k: Key) {
    var path := PathOf(s, ctl.addPath, k);
    AfiOf(k.prefix) in ctl.families && path.attrs.Some? && ctl.mayAnnounce(k, path.attrs.value)
  }

  /** The attributes to be advertised for a route. */
  function Decided(ctl: Control, s: Shadow, k: Key): Option<BgpPath> {
    if Entered(ctl, s, k) then ctl.policy(k, PathOf(s, ctl.addPath, k).attrs.value).result else None
  }

  /** The change a consumer is handed for a route, and the one a walk makes of it. */
  function ChangeOf(ctl: Control, s: Shadow, k: Key): Change {
    var path, version := PathOf(s, ctl.addPath, k), VersionOf(s, k.prefix);
    if path.attrs.None? then Withdraw(k, version)
    else
      var d := ctl.policy(k, path.attrs.value);
      Announce(k, version, path.attrs.value, d.result, d.nexthopByPolicy, ctl.mayAnnounce(k, path.attrs.value))
  }

  /** The table holds at `k` what is decided on the shadow RIB. */
  ghost predicate RightAt(ctl: Control, s: Shadow, t: Table, k: Key) {
    if Entered(ctl, s, k)
    then k in t && t[k].post == Decided(ctl, s, k) && t[k].version <= VersionOf(s, k.prefix)
    else k !in t
  }

  /** Nothing about the route is due to a consumer that stands at `pos`. */
  predicate Passed(ctl: Control, s: Shadow, pos: nat, k: Key) {
    PathOf(s, ctl.addPath, k).since <= pos
  }

  ghost predicate RightUpTo(ctl: Control, s: Shadow, pos: nat, t: Table) {
    forall k | Passed(ctl, s, pos, k) :: RightAt(ctl, s, t, k)
  }

  /** A consumer at `pos` is at the end of the list. */
  ghost predicate AtEnd(ctl: Control, s: Shadow, pos: nat) {
    forall k :: Passed(ctl, s, pos, k)
  }

  lemma RightMeansDecided(ctl: Control, s: Shadow, t: Table, k: Key)
    requires RightAt(ctl, s, t, k)
    ensures Post(t, k) == Decided(ctl, s, k)
  {
  }

  // ---------------------------------------------------------------- batches of changes

  ghost predicate FromShadow(ctl: Control, s: Shadow, cs: seq<Change>) {
    forall c | c in cs :: c.key.prefix in s && c == ChangeOf(ctl, s, c.key)
  }

  predicate Touches(cs: seq<Change>, k: Key) {
    exists c | c in cs :: c.key == k
  }

  lemma TouchesTail(cs: seq<Change>, k: Key)
    requires cs != []
    ensures Touches(cs, k) <==> cs[0].key == k || Touches(cs[1..], k)
  {
    assert cs == [cs[0]] + cs[1..];
  }

  /** One change puts its route right. */
  lemma ProcessRight(ctl: Control, s: Shadow, r: RibOut, k: Key, refresh: bool)
    requires AfiOf(k.prefix) in ctl.families
    ensures RightAt(ctl, s, Process(r, ChangeOf(ctl, s, k), refresh).table, k)
  {
    ProcessTable(r, ChangeOf(ctl, s, k), refresh);
  }

  ghost predicate SameAt(t: Table, u: Table, k: Key) {
    (k in t <==> k in u) && (k in t ==> t[k] == u[k])
  }

  /** A batch puts every route it touches right and leaves every other one as it is, in any order. */
  lemma {:induction false} RunRight(ctl: Control, s: Shadow, r: RibOut, cs: seq<Change>, k: Key)
    requires FromShadow(ctl, s, cs)
    ensures
      var t := PrivateRun(r, cs, ctl.families).table;
      if Touches(cs, k) && AfiOf(k.prefix) in ctl.families then RightAt(ctl, s, t, k) else SameAt(t, r.table, k)
    decreases cs
  {
    if cs != [] {
      TouchesTail(cs, k);
      var c := cs[0];
      if AfiOf(c.key.prefix) !in ctl.families {
        RunRight(ctl, s, r, cs[1..], k);
      } else {
        var r1 := Process(r, c, false);
        ProcessTable(r, c, false);
        ProcessRight(ctl, s, r, c.key, false);
        RunRight(ctl, s, r1, cs[1..], k);
        RightSame(ctl, s, r1.table, PrivateRun(r1, cs[1..], ctl.families).table, k);
      }
    }
  }

  lemma RightSame(ctl: Control, s: Shadow, t: Table, u: Table, k: Key)
    ensures SameAt(u, t, k) && RightAt(ctl, s, t, k) ==> RightAt(ctl, s, u, k)
  {
  }

  /** The batch has a change for every route that is due between two positions. */
  ghost predicate Covers(ctl: Control, s: Shadow, cs: seq<Change>, pos: nat, to: nat) {
    forall k | Passed(ctl, s, to, k) && !Passed(ctl, s, pos, k) :: Touches(cs, k)
  }

  /** Consuming what is due moves the position. */
  lemma ConsumeRight(ctl: Control, s: Shadow, r: RibOut, cs: seq<Change>, pos: nat, to: nat)
    requires FromShadow(ctl, s, cs) && Covers(ctl, s, cs, pos, to) && RightUpTo(ctl, s, pos, r.table)
    requires forall k | k in r.table :: AfiOf(k.prefix) in ctl.families
    ensures RightUpTo(ctl, s, to, PrivateRun(r, cs, ctl.families).table)
    ensures forall k | k in PrivateRun(r, cs, ctl.families).table :: AfiOf(k.prefix) in ctl.families
  {
    var t := PrivateRun(r, cs, ctl.families).table;
    forall k | Passed(ctl, s, to, k)
      ensures RightAt(ctl, s, t, k)
    {
      RunRight(ctl, s, r, cs, k);
      if AfiOf(k.prefix) in ctl.families && !Touches(cs, k) {
        RightSame(ctl, s, r.table, t, k);
      }
    }
    forall k | k in t
      ensures AfiOf(k.prefix) in ctl.families
    {
      RunRight(ctl, s, r, cs, k);
    }
  }

  // ---------------------------------------------------------------- walks under a new control

  /** Some path of the prefix is due. */
  ghost predicate Due(ctl: Control, s: Shadow, pos: nat, prefix: Prefix) {
    exists id :: !Passed(ctl, s, pos, Key(prefix, id))
  }

  /**
    The prefix carries the consumer's bit: because a path is due, or without one because the
    consumer joined the list where another stood.
   */
  ghost predicate Carries(ctl: Control, s: Shadow, pos: nat, joined: set<Prefix>, prefix: Prefix) {
    prefix in joined || Due(ctl, s, pos, prefix)
  }

  /** A walk visits every live path of the prefixes without the bit, and the list is drained after it. */
  ghost predicate WalksAndDrains(ctl: Control, s: Shadow, cs: seq<Change>, pos: nat, joined: set<Prefix>) {
    forall k ::
      (PathOf(s, ctl.addPath, k).attrs.Some? && !Carries(ctl, s, pos, joined, k.prefix)) || !Passed(ctl, s, pos, k)
      ==> Touches(cs, k)
  }

  /** It visits nothing else, and the drain finds flagged only what is due. */
  ghost predicate WalksExactly(ctl: Control, s: Shadow, cs: seq<Change>, pos: nat, joined: set<Prefix>) {
    forall k :: Touches(cs, k) <==>
      (PathOf(s, ctl.addPath, k).attrs.Some? && !Carries(ctl, s, pos, joined, k.prefix)) || !Passed(ctl, s, pos, k)
  }

  predicate SameKind(ctl: Control, was: Control) {
    ctl.addPath == was.addPath && ctl.families == was.families
  }

  /** Both controls make the same of the route. */
  predicate Alike(ctl: Control, was: Control, s: Shadow, k: Key) {
    (Entered(ctl, s, k) <==> Entered(was, s, k)) && Decided(ctl, s, k) == Decided(was, s, k)
  }

  /** The controls agree on every path that is not due itself and whose prefix carries the bit. */
  ghost predicate AgreeOnSkipped(ctl: Control, was: Control, s: Shadow, pos: nat, joined: set<Prefix>) {
    forall k | Passed(ctl, s, pos, k) && Carries(ctl, s, pos, joined, k.prefix) :: Alike(ctl, was, s, k)
  }

  /** Without add-path a prefix has one path, so what is skipped and not due is in a joined prefix. */
  lemma BestPathAgreesIff(ctl: Control, was: Control, s: Shadow, pos: nat, joined: set<Prefix>)
    requires !ctl.addPath && SameKind(ctl, was)
    ensures AgreeOnSkipped(ctl, was, s, pos, joined) <==>
      forall prefix | prefix in joined && Passed(ctl, s, pos, Key(prefix, DEFAULT_PATH_ID)) ::
        Alike(ctl, was, s, Key(prefix, DEFAULT_PATH_ID))
  {
    if forall prefix | prefix in joined && Passed(ctl, s, pos, Key(prefix, DEFAULT_PATH_ID)) ::
         Alike(ctl, was, s, Key(prefix, DEFAULT_PATH_ID))
    {
      forall k | Passed(ctl, s, pos, k) && Carries(ctl, s, pos, joined, k.prefix)
        ensures Alike(ctl, was, s, k)
      {
        BestPathDue(ctl, s, pos, k);
      }
    }
    if AgreeOnSkipped(ctl, was, s, pos, joined) {
      forall prefix | prefix in joined && Passed(ctl, s, pos, Key(prefix, DEFAULT_PATH_ID))
        ensures Alike(ctl, was, s, Key(prefix, DEFAULT_PATH_ID))
      {
        assert Carries(ctl, s, pos, joined, Key(prefix, DEFAULT_PATH_ID).prefix);
      }
    }
  }

  lemma BestPathDue(ctl: Control, s: Shadow, pos: nat, k: Key)
    requires !ctl.addPath && Passed(ctl, s, pos, k)
    ensures k.pathId != DEFAULT_PATH_ID ==> PathOf(s, false, k) == NO_PATH
    ensures k.pathId == DEFAULT_PATH_ID ==> k == Key(k.prefix, DEFAULT_PATH_ID) && !Due(ctl, s, pos, k.prefix)
  {
    if k.pathId == DEFAULT_PATH_ID {
      forall id
        ensures Passed(ctl, s, pos, Key(k.prefix, id))
      {
        assert id == DEFAULT_PATH_ID ==> Key(k.prefix, id) == k;
      }
    }
  }

  lemma ReevaluatedAt(
    ctl: Control, was: Control, s: Shadow, r: RibOut, cs: seq<Change>, pos: nat, joined: set<Prefix>, k: Key)
    requires SameKind(ctl, was) && FromShadow(ctl, s, cs) && WalksAndDrains(ctl, s, cs, pos, joined)
    requires RightUpTo(was, s, pos, r.table) && AgreeOnSkipped(ctl, was, s, pos, joined)
    requires forall i | i in r.table :: AfiOf(i.prefix) in ctl.families
    ensures RightAt(ctl, s, PrivateRun(r, cs, ctl.families).table, k)
  {
    RunRight(ctl, s, r, cs, k);
    if !Touches(cs, k) || AfiOf(k.prefix) !in ctl.families {
      assert Passed(was, s, pos, k) ==> RightAt(was, s, r.table, k);
    }
  }

  /** A re-evaluation of a table that was right puts everything right if the controls agree where the walk does not look. */
  lemma ReevaluateRight(
    ctl: Control, was: Control, s: Shadow, r: RibOut, cs: seq<Change>, pos: nat, joined: set<Prefix>, to: nat)
    requires SameKind(ctl, was) && FromShadow(ctl, s, cs) && WalksAndDrains(ctl, s, cs, pos, joined)
    requires RightUpTo(was, s, pos, r.table) && AgreeOnSkipped(ctl, was, s, pos, joined)
    requires forall k | k in r.table :: AfiOf(k.prefix) in ctl.families
    ensures RightUpTo(ctl, s, to, PrivateRun(r, cs, ctl.families).table)
    ensures forall k | k in PrivateRun(r, cs, ctl.families).table :: AfiOf(k.prefix) in ctl.families
  {
    var t := PrivateRun(r, cs, ctl.families).table;
    forall k
      ensures RightAt(ctl, s, t, k)
      ensures k in t ==> AfiOf(k.prefix) in ctl.families
    {
      ReevaluatedAt(ctl, was, s, r, cs, pos, joined, k);
    }
  }

  lemma SkippedKeeps(
    ctl: Control, was: Control, s: Shadow, r: RibOut, cs: seq<Change>, pos: nat, joined: set<Prefix>, k: Key)
    requires SameKind(ctl, was) && FromShadow(ctl, s, cs) && WalksExactly(ctl, s, cs, pos, joined)
    requires RightUpTo(was, s, pos, r.table) && RightAt(ctl, s, PrivateRun(r, cs, ctl.families).table, k)
    requires Passed(ctl, s, pos, k) && Carries(ctl, s, pos, joined, k.prefix)
    ensures Alike(ctl, was, s, k)
  {
    RunRight(ctl, s, r, cs, k);
    assert !Touches(cs, k);
    assert Passed(was, s, pos, k) && RightAt(was, s, r.table, k);
  }

  /** It does so exactly then: a path the walk does not look at keeps what the old control made of it. */
  lemma ReevaluateRightIff(
    ctl: Control, was: Control, s: Shadow, r: RibOut, cs: seq<Change>, pos: nat, joined: set<Prefix>, to: nat)
    requires SameKind(ctl, was) && FromShadow(ctl, s, cs) && WalksExactly(ctl, s, cs, pos, joined)
    requires RightUpTo(was, s, pos, r.table) && AtEnd(ctl, s, to)
    requires forall k | k in r.table :: AfiOf(k.prefix) in ctl.families
    ensures RightUpTo(ctl, s, to, PrivateRun(r, cs, ctl.families).table) <==> AgreeOnSkipped(ctl, was, s, pos, joined)
  {
    var t := PrivateRun(r, cs, ctl.families).table;
    if RightUpTo(ctl, s, to, t) {
      forall k | Passed(ctl, s, pos, k) && Carries(ctl, s, pos, joined, k.prefix)
        ensures Alike(ctl, was, s, k)
      {
        assert Passed(ctl, s, to, k);
        SkippedKeeps(ctl, was, s, r, cs, pos, joined, k);
      }
    }
    if AgreeOnSkipped(ctl, was, s, pos, joined) {
      ReevaluateRight(ctl, was, s, r, cs, pos, joined, to);
    }
  }
}
