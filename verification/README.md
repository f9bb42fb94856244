# Verification of the update-group RIB-OUT machine

A BGP speaker that advertises the same routes to many peers keeps one RIB-OUT and one packing
list for the whole *update group*. A peer whose queue is full blocks; one that blocks too often
is *detached* at a RIB version, runs alone with a copy of the packing list, and later comes back:
its entries are *collapsed* into the group's, or it is *promoted* to be the group's truth, or it
is *split off* or *moved* to another group. Sharing is copy-on-write. A detached peer sees its own
entry if it has one, and otherwise the group entry whose version is not newer than its detach
version; the group copies an entry to the peers that share it before it changes the entry.

What is proved is that none of this can be seen from outside: every peer is told exactly what it
would have been told with a RIB-OUT of its own.

The project has five layers.

- **Values and steps.** `Types`, `PackingList`, `Advertised` and `GroupState` define routes, the
  packing list, what a receiver holds, and one function per source method, from one suspension
  point to the next. `GroupInvariant` states what every step keeps; `GroupProcessing`,
  `Distribution`, `DetachedPeer`, `Membership` and `Rejoin` prove it step by step, and
  `GroupSteps` puts the steps together. `SharingInvisible` relates each step to private tables;
  `Fleet` and `FleetRun` add splitting, moving, creating and destroying groups.
- **The change list.** `ShadowRib` is the RIB the groups read, in version order; `ListConsumers`
  what consuming it does to a group and to a detached peer. `Net` is the whole fleet on one list: a
  version per change, a position per group and per detached peer, and the prefixes that carry a
  consumer's bit only because it joined the list where another consumer stood. Routes reach a
  RIB-OUT only from the list or from a walk, and a walk skips the prefixes that carry the bit. A step
  asks for more than the source does only where the assumptions and findings below say so.
  `NetInvariant`, `NetGroups`, `NetPeers`, `NetSteps` and `NetFleet` prove what every step keeps.
- **Runs.** `NetKeeps` and `NetReference` prove the main theorems over every run from nothing;
  `EndOfRib`, `Counts` and `FleetCounts` the End-of-RIB and conservation laws. `NetLimits` and
  `RefusedCount` give the exact conditions under which an expected property holds; `Scenarios`,
  `SplitRun` and `FastRejoinRun` runs that reach the states in which it fails.
- **Objects.** `OwnerTree` is the tree as it is stored, prefix by prefix and owner by owner.
  `CollapseWalk`, `CopyWalk`, `RibOutTree`, `CleanUp`, `Teardown` and `DistributionLoop` are the
  loops over it and over the members. `AdjRibOutGroup` is the update group as an object (with the
  value-level facts about its records in `MemberRecords`); each method is proved to be the step on
  values it is named after and to leave every member served. `LiteTree` relates the tree without
  add-path to the general one.
- **Neighbours of the core.** `ReEvaluation` (policy re-evaluation), `PolicyCache`, `SizeLimit` (the
  size-limited drain), `Rejections` and `RejectedWalk` (the capped report of rejected routes).

`Sums` holds sums over maps and sizes of sets.

Assumptions. Versions follow the rules of `rib/RibBase.h`: every publication of a prefix gets a
version above all earlier ones. A detached peer whose policy changed, or that was moved to a group
with another policy, is re-evaluated before it consumes, is refreshed, rejoins or is promoted, which
the source does in the same event-loop turn (`peer/PeerManagerBase.cpp:5622-5715`), the group before
its detached peers. Peers move only between groups of the same address families and add-path setting. No push fails.

Findings. Properties one might expect that do not hold of the code; each has an exact condition.

- A peer that stands behind its group on the list is promoted without a check, and versions it
  has yet to see then count as seen (`PromotedBehind`, `PromoteKeepsIff`).
- A refresh walk takes away the copy that hides a shared route the checks have come to refuse
  (`RefreshReveals`, `PeerFollowsIff`).
- A re-evaluation skips every prefix that carries the consumer's bit, and drains only what is flagged.
  It leaves the old policy's decision on a live path while another path of its prefix is due
  (`HalfDueStays`), and, with or without add-path, on a prefix whose bit was set because the consumer
  joined the list where another stood (`SkippedStays`). It is right exactly when both policies agree
  there (`ReevaluateRightIff`, `GroupReevaluateKeepsIff`, `PeerReevaluateKeepsIff`). A pending best path
  that is not flagged exactly once is the same failure seen on one table (`StaleEntryStays`,
  `FlaggedIsRebuild`, `UnflaggedDiffers`).
- A peer that shows exactly the group's routes can still be refused (`SameButRefused`,
  `AcceptedIff`), though never without add-path while every
  re-evaluation was right (`BestPathNeverRefused`).
- The fast rejoin checks nothing when it happens, and the group may have moved on since the peer
  was flagged (`TakenBackUntold`, `FastRejoinKeepsIff`).
- A refused peer's count is raised for a path it already shared, and not lowered for one the
  group denies (`RefusedCountIff`).
- Masked key equality is not transitive, and the hash does not respect it, once a key lacks a path
  (`TransitiveIff`, `HashRespectsEqualIff`).
- The prefix limit wraps around when the attributes do not fit (`WrapExample`, `FullBatchFitsIff`).

The project is checked with `dafny verify dfyconfig.toml` (Dafny 4.11).

## Model

| member | source | states |
|---|---|---|
| `NetReference.FleetIsTold` | neteng/fboss/bgp/cpp/adjrib/AdjRibGroup.cpp:2071-2278 | After any run from nothing of any number of groups on one change list, in any interleaving of publishing, consuming, dumps, refresh walks, policy re-evaluation, sends, blocking, detaching, rejoining, promotion, splitting and moving: what a member was sent, then its one deferred push, then its packing list drained in any bucket order, is at every (prefix, path id) exactly the post-policy attributes of a private RIB-OUT that was handed what the member's consumer was handed; that private RIB-OUT has no step for detaching, rejoining, promoting or re-homing |
| `NetReference.FleetConverges` | neteng/fboss/bgp/cpp/adjrib/AdjRibGroup.cpp:490-515 | After any run, a member with nothing due to it about a route is told exactly what its group's checks and policy make of the path the RIB holds now |
| `NetReference.NetRunFollows` | neteng/fboss/bgp/cpp/adjrib/AdjRib.cpp:1583-1600 | Over every run on the change list the fleet keeps its invariant and every member advertises what its private reference advertises |
| `NetReference.RejoinChangesNothing` | neteng/fboss/bgp/cpp/adjrib/AdjRibOut.cpp:1746-1827 | A peer that may rejoin (both consumers at the end of the list, no re-evaluation outstanding) advertises exactly what its group advertises, so bringing it to the group's table changes nothing it is told |
| `NetReference.BestPathNeverRefused` | neteng/fboss/bgp/cpp/adjrib/AdjRibGroup.cpp:4903-5012 | Without add-path, a peer that may rejoin needs no correction: it is never sent back |
| `NetKeeps.NetStepKeeps` | neteng/fboss/bgp/cpp/rib/RibBase.h:413-450 | Every step keeps: group and detached RIB-OUTs right up to where their consumers stand, everything still due newer than what the group saw, and a peer that shares never ahead of its group |
| `NetKeeps.NetIsRun` | neteng/fboss/bgp/cpp/adjrib/AdjRib.cpp:1583-1600 | No run on the list ever asks a group to take a change a detached peer would notice, or a peer to take away a copy that hides a group entry: both conditions follow from versions and positions |
| `SharingInvisible.StepFollows` | neteng/fboss/bgp/cpp/adjrib/AdjRibGroup.cpp:1172-1589 | Each of the twenty kinds of step of one group moves every member's RIB-OUT, version by version, as a machine with private tables does in which a rejoining peer adopts the group's table |
| `GroupSteps.StepKeeps` | neteng/fboss/bgp/cpp/adjrib/AdjRibGroup.cpp:2071-2278 | Every step keeps the group invariant: membership, counters, versions, the packing list, the builder, and for each member that sent, deferred and pending messages spell out its RIB-OUT |
| `NetReference.FleetMembers` | neteng/fboss/bgp/cpp/adjrib/AdjRibGroup.cpp:2354-2376 | After any run, the members are exactly the in-sync peers plus the disjoint detached ones, blocked peers are in sync, pending End-of-RIB peers are the in-sync ones that owe one, and both counters equal what they count |
| `NetReference.FleetOrdering` | neteng/fboss/bgp/cpp/adjrib/AdjRibGroup.cpp:2386-2538 | After any run, splits that carry blocked peers over included: whenever an UPDATE or End-of-RIB can be pushed, every in-sync peer has nothing deferred |
| `FleetCounts.FleetConserves` | neteng/fboss/bgp/cpp/adjrib/AdjRibGroup.cpp:2811-2848 | Over any run without a failed rejoin every counter equals the routes it counts, and the global sent-prefix total is, summed over the groups, in-sync peers times the group count plus the detached peers' counts |
| `FleetCounts.BestPathConserves` | neteng/fboss/bgp/cpp/adjrib/AdjRibGroup.cpp:2811-2848 | Over any run of groups without add-path the same holds without asking that no rejoin fails, because none does |
| `NetReference.FleetMarks` | neteng/fboss/bgp/cpp/adjrib/AdjRibGroup.cpp:1297-1323 | After any run, End-of-RIB markers sent plus still owed never exceed the markings, family by family (section 2 of RFC 4724) |
| `ShadowRib.ConsumeRight` | neteng/fboss/bgp/cpp/adjrib/AdjRibGroup.cpp:490-515 | Consuming what is due between two positions, in any order, puts a right RIB-OUT right up to the new position |
| `ShadowRib.ReevaluateRight` | neteng/fboss/bgp/cpp/peer/PeerManagerBase.cpp:5622-5668 | A walk over the prefixes that do not carry the consumer's bit, then the drain of what is due, puts a right RIB-OUT right under a new control, if old and new agree on what neither of the two looks at |
| `ShadowRib.ReevaluateRightIff` | neteng/fboss/bgp/cpp/adjrib/AdjRibGroup.cpp:706-710 | It does if and only if both decide alike on every route that is not due itself and whose prefix carries the bit, be it for another path or since the consumer joined the list |
| `ShadowRib.BestPathAgreesIff` | neteng/fboss/bgp/cpp/adjrib/AdjRibGroup.cpp:950-1038 | Without add-path those are exactly the best paths, not due, of the prefixes whose bit was set when the consumer joined the list |
| `ListConsumers.NewerInvisible` | neteng/fboss/bgp/cpp/rib/RibBase.h:425-434 | No batch, however long, of changes newer than every detach version changes the view of any detached peer |
| `ListConsumers.ListInvisible` | neteng/fboss/bgp/cpp/adjrib/AdjRibGroup.cpp:1052-1153 | A group that stands on the list with everything due newer than what it saw can consume or walk in any order without changing the view of any detached peer |
| `ListConsumers.PeerBatchMoves` | neteng/fboss/bgp/cpp/adjrib/AdjRibOut.cpp:1033-1188 | A batch of a detached peer's own changes that takes away no shared route moves its view as it would a private RIB-OUT, and nobody else's |
| `NetInvariant.PublishKeeps` | neteng/fboss/bgp/cpp/peer/PeerManagerBase.cpp:2192-2412 | Publishing a prefix at the next version keeps the invariant of every consumer |
| `NetInvariant.ForgetKeeps` | neteng/fboss/bgp/cpp/peer/PeerManagerBase.cpp:2127-2163 | Dropping a withdrawn prefix once every consumer passed it and nobody's bit is left keeps it too |
| `NetInvariant.JoinKeeps` | neteng/fboss/bgp/cpp/changeTracker/ChangeTracker.h:905-926 | So does setting the bit of a consumer that joins the list at another's marker, on whichever newer prefixes |
| `NetGroups.GroupDumpKeeps` | neteng/fboss/bgp/cpp/adjrib/AdjRibGroup.cpp:680-804 | The first walk of a group leaves it right up to the end of the list |
| `NetGroups.GroupConsumeKeeps` | neteng/fboss/bgp/cpp/adjrib/AdjRibGroup.cpp:490-515 | So does consuming to the end of the list |
| `NetGroups.GroupReevaluateKeeps` | neteng/fboss/bgp/cpp/adjrib/AdjRibGroup.cpp:950-1038 | So does re-evaluating a new policy that agrees with the old one where the walk and the drain do not look; the detached peers keep what the old one decided |
| `NetPeers.PeerDumpReady` | neteng/fboss/bgp/cpp/peer/PeerManagerBase.cpp:1580-1744 | The dump of a newly registered detached peer leaves it right up to the end of the list |
| `NetPeers.PeerConsumeReady` | neteng/fboss/bgp/cpp/adjrib/AdjRib.cpp:1513-1640 | A detached peer that consumes up to its group's marker uncovers nothing and is right up to where it stops |
| `NetPeers.PeerReevaluateReady` | neteng/fboss/bgp/cpp/peer/PeerManagerBase.cpp:5622-5668 | The re-evaluation of a detached peer, best-path or add-path, leaves it right up to the end of the list, if its old control and the new one agree where its walk and its drain do not look |
| `NetPeers.PeerWalkCovered` | neteng/fboss/bgp/cpp/peer/PeerManagerBase.cpp:5684-5692 | Whatever such a walk looks at, it uncovers nothing, because the group was re-evaluated first |
| `NetSteps.GroupStepKeeps` | neteng/fboss/bgp/cpp/adjrib/AdjRibGroup.cpp:3709-3826 | Sends, detaching, registering, rejoining and promoting keep every consumer in its place: who leaves the group's side stands where the group stands |
| `NetFleet.SplitNetKeeps` | neteng/fboss/bgp/cpp/adjrib/AdjRibGroup.cpp:3494-3602 | A split keeps it: the new group stands at the same marker under the same checks and policy |
| `NetFleet.MoveNetKeeps` | neteng/fboss/bgp/cpp/adjrib/AdjRibGroup.cpp:3267-3339 | A move keeps it: moved peers arrive owning all they show and wait for a re-evaluation |
| `NetLimits.PromoteKeepsIff` | neteng/fboss/bgp/cpp/adjrib/AdjRibOut.cpp:1891-1911 | Promoting a peer keeps the invariant if and only if everything still due to it is newer than whatever its group or the peer has seen |
| `Scenarios.PromotedBehind` | neteng/fboss/bgp/cpp/adjrib/AdjRibOut.cpp:1891-1911 | A run reaches a peer behind its group that the source promotes; after it detaches, the next change its group is due shows up in its RIB-OUT without ever being told to it |
| `NetLimits.PeerFollowsIff` | neteng/fboss/bgp/cpp/adjrib/AdjRibGroup.cpp:368-408 | Whatever a detached peer looks at moves its RIB-OUT as a private one if and only if it does not take away a route the peer shares |
| `NetLimits.ConsumedNotShared` | neteng/fboss/bgp/cpp/adjrib/AdjRib.cpp:1583-1600 | A route its group has consumed is never such a route |
| `Scenarios.RefreshReveals` | neteng/fboss/bgp/cpp/peer/PeerManagerBase.cpp:1609-1660 | A run reaches a refresh walk that does take one away: the checks refuse the route by now, and the group, still due the change, shows the old entry again |
| `Scenarios.HalfDueStays` | neteng/fboss/bgp/cpp/adjrib/AdjRibGroup.cpp:950-1038 | A run reaches a re-evaluation of an add-path group under a policy that lets nothing through which leaves a route advertised |
| `SplitRun.SkippedStays` | neteng/fboss/bgp/cpp/peer/PeerManagerBase.cpp:5405-5433 | So does one of a best-path group: a prefix changed in its other paths carries the bit of a group just split off, whose re-evaluation leaves it advertised with nothing due |
| `NetLimits.GroupReevaluateKeepsIff` | neteng/fboss/bgp/cpp/adjrib/AdjRibGroup.cpp:706-710 | Re-evaluating a group keeps the invariant if and only if old and new policy agree on every route that is not due and whose prefix carries the group's bit |
| `NetLimits.PeerReevaluateKeepsIff` | neteng/fboss/bgp/cpp/peer/PeerManagerBase.cpp:1634-1639 | The same for a detached peer, with its own bit and the control its entries were decided under |
| `PackingList.TryUpdateAttrToPrefixMap` | neteng/fboss/bgp/cpp/adjrib/AdjRibCommon.cpp:160-267 | The in-place update over both nexthop-flag states computes `Repack` |
| `PackingList.RepackAt` | neteng/fboss/bgp/cpp/adjrib/AdjRibCommon.cpp:160-267 | After a repack the route sits under its new bucket, under none with its former attributes, every other route sits where it sat, and no bucket is left empty |
| `PackingList.RepackWellPackedIff` | neteng/fboss/bgp/cpp/adjrib/AdjRibCommon.cpp:160-267 | The precondition of the update: the list stays well packed (each route under at most one bucket) if and only if the caller names the attributes the route really sits under |
| `Advertised.RepackTold` | neteng/fboss/bgp/cpp/adjrib/AdjRibGroup.cpp:1568-1588 | Whoever is told a table keeps being told it when one route's attributes change and the route is repacked |
| `Advertised.SendTold` | neteng/fboss/bgp/cpp/adjrib/AdjRibGroup.cpp:1970-2070 | Moving part of a bucket into a message in flight loses and adds nothing |
| `Advertised.LandTold` | neteng/fboss/bgp/cpp/adjrib/AdjRibOut.cpp:234-264 | A deferred message reaching its queue loses and adds nothing |
| `Advertised.AnyOrderTells` | neteng/fboss/bgp/cpp/adjrib/AdjRibGroup.cpp:2071-2278 | Whatever order the buckets are drained in, the receiver ends with exactly the table's routes |
| `GroupProcessing.CloneInvisible` | neteng/fboss/bgp/cpp/adjrib/AdjRibGroup.cpp:4651-4690 | Copying a shared entry for a detached peer changes no view |
| `GroupProcessing.EntryChangeInvisibleIff` | neteng/fboss/bgp/cpp/adjrib/AdjRibGroup.cpp:4297-4331 | After the lazy clone, a change of the group entry is invisible to a detached peer if and only if the peer owns that route, or the group has none there, or the new entry is newer than the peer's detach version |
| `GroupProcessing.GroupChangeInvisibleIff` | neteng/fboss/bgp/cpp/adjrib/AdjRibGroup.cpp:1172-1280 | A group-side announce, denial or withdrawal leaves every detached view alone if and only if no detached peer's version gate admits the new entry |
| `GroupProcessing.SharedIsPrivate` | neteng/fboss/bgp/cpp/adjrib/AdjRibGroup.cpp:1419-1589 | The shared RIB-OUT and packing list after any batch are what each in-sync peer would have built privately from the same changes |
| `GroupProcessing.ProcessForGroupKeeps` | neteng/fboss/bgp/cpp/adjrib/AdjRibGroup.cpp:1172-1589 | One group-side change keeps the invariant of the group and of every member |
| `GroupProcessing.ConsumeKeeps` | neteng/fboss/bgp/cpp/adjrib/AdjRibGroup.cpp:1052-1153 | Consuming any batch keeps the invariant |
| `DetachedPeer.CopyOnWritePacking` | neteng/fboss/bgp/cpp/adjrib/AdjRibGroup.cpp:368-408 | Copy-on-write queues exactly what a private RIB-OUT with the same view would queue |
| `DetachedPeer.CopyOnWriteViewIff` | neteng/fboss/bgp/cpp/adjrib/AdjRibGroup.cpp:368-408 | A detached peer's change moves its view exactly as a private RIB-OUT, if and only if it does not take away the copy that hides a group entry its version gate still admits |
| `Distribution.NothingOvertakes` | neteng/fboss/bgp/cpp/adjrib/AdjRibGroup.cpp:2558-2681 | Whenever the group can push, no peer it pushes to has a deferred message |
| `Distribution.SendUpdateKeeps` | neteng/fboss/bgp/cpp/adjrib/AdjRibGroup.cpp:2386-2538 | Distributing one UPDATE keeps the invariant, whoever blocks and whoever is detached for it |
| `Distribution.SendEndOfRibKeeps` | neteng/fboss/bgp/cpp/adjrib/AdjRibGroup.cpp:2296-2352 | Distributing End-of-RIB keeps the invariant |
| `Distribution.DrainedNoDebt` | neteng/fboss/bgp/cpp/adjrib/AdjRibGroup.cpp:2260-2278 | Once the list is drained and nobody is blocked, nothing packed at the marking walk is unsent |
| `DistributionLoop.SpreadOutcome` | neteng/fboss/bgp/cpp/adjrib/AdjRibGroup.cpp:2386-2538 | The loop over the members, in any order, amounts to one push to all in-sync peers; every overdue blocked peer is detached, except one that would have been the last in sync |
| `EndOfRib.StepMarks` | neteng/fboss/bgp/cpp/adjrib/AdjRibGroup.cpp:2296-2376 | In any step a member is sent no End-of-RIB, or exactly one: for a family it owes, no longer owed afterwards, with every route of its last marking already queued |
| `Membership.DetachKeeps` | neteng/fboss/bgp/cpp/adjrib/AdjRibGroup.cpp:3709-3826 | Detaching any in-sync peer, the last one included, keeps the invariant |
| `Membership.DetachInvisible` | neteng/fboss/bgp/cpp/adjrib/AdjRibGroup.cpp:3709-3826 | Detaching changes nobody's RIB-OUT, and leaves everyone owing exactly the families they still owed |
| `Membership.ResolvePushKeeps` | neteng/fboss/bgp/cpp/adjrib/AdjRibOut.cpp:234-264 | A deferred push completing keeps the invariant |
| `Membership.RegisterKeeps` | neteng/fboss/bgp/cpp/adjrib/AdjRibGroup.cpp:2688-2784 | Registering keeps the invariant |
| `Membership.UnregisterKeeps` | neteng/fboss/bgp/cpp/adjrib/AdjRibGroup.cpp:2790-2900 | Unregistering keeps the invariant |
| `Membership.DumpKeeps` | neteng/fboss/bgp/cpp/adjrib/AdjRibGroup.cpp:680-804 | The first walk of the shadow RIB keeps the invariant |
| `Rejoin.CorrectionSound` | neteng/fboss/bgp/cpp/adjrib/AdjRibGroup.cpp:4692-4860 | No correction at a route means the peer already shows the group's attributes there; a correction names the group's attributes |
| `Rejoin.AcceptedOnlyIfSame` | neteng/fboss/bgp/cpp/adjrib/AdjRibGroup.cpp:4157-4278 | A candidate needs no correction only if it shows the group's attributes at every route |
| `Rejoin.AcceptedIff` | neteng/fboss/bgp/cpp/adjrib/AdjRibGroup.cpp:4692-4860 | A candidate is accepted if and only if it shows the group's attributes everywhere and no needless correction arises |
| `Scenarios.SameButRefused` | neteng/fboss/bgp/cpp/adjrib/AdjRibGroup.cpp:4692-4860 | Showing the same is not enough: a run of an add-path group ends with a peer that shows exactly the group's routes, may rejoin, and is sent back |
| `Rejoin.FailedConverges` | neteng/fboss/bgp/cpp/adjrib/AdjRibGroup.cpp:4198-4242 | What a refused candidate was told, with the queued corrections on top, is exactly the group's routes |
| `Rejoin.DiscrepancyHasVersion` | neteng/fboss/bgp/cpp/adjrib/AdjRibGroup.cpp:4229-4232 | The group's version is non-zero whenever a collapse finds something to correct |
| `Rejoin.AcceptKeeps` | neteng/fboss/bgp/cpp/adjrib/AdjRibGroup.cpp:4157-4278 | Collapsing any batch of candidates keeps the invariant, whichever are accepted |
| `Rejoin.AcceptTables` | neteng/fboss/bgp/cpp/adjrib/AdjRibGroup.cpp:4157-4278 | A candidate joins only if its earlier view had the group's attributes; every candidate ends with the group's RIB-OUT; nobody else's changes |
| `Rejoin.FastRejoinKeepsIff` | neteng/fboss/bgp/cpp/adjrib/AdjRibGroup.cpp:4066-4093 | The shortcut of a flagged peer, which checks nothing at the rejoin, keeps the invariant if and only if the peer owns nothing and the group advertises nothing newer than its detach |
| `FastRejoinRun.TakenBackUntold` | neteng/fboss/bgp/cpp/adjrib/AdjRibOut.cpp:1865-1880 | A run reaches a peer that met the guard when it began to wait and is taken back although its group has since sent a change: the peer has that route neither received, nor in flight, nor pending |
| `Rejoin.FastPeerUntouched` | neteng/fboss/bgp/cpp/adjrib/AdjRibOut.cpp:1734-1745 | A peer that owns nothing and detached at the version its group still stands at meets that condition |
| `Rejoin.PromoteKeeps` | neteng/fboss/bgp/cpp/adjrib/AdjRibGroup.cpp:4399-4550 | Promoting a drained detached peer keeps the invariant |
| `Rejoin.PromoteTables` | neteng/fboss/bgp/cpp/adjrib/AdjRibGroup.cpp:4468-4649 | Promotion makes the group's RIB-OUT the promoted peer's former view and changes nobody's |
| `LiteTree.LiteCorrectionIs` | neteng/fboss/bgp/cpp/adjrib/AdjRibGroup.cpp:4903-5012 | The simpler collapse of the tree without add-path is the general one |
| `LiteTree.LiteAcceptedIff` | neteng/fboss/bgp/cpp/adjrib/AdjRibGroup.cpp:4903-5012 | Without add-path a candidate is refused only for a difference, or for a denied entry only one side keeps |
| `Fleet.SplitTables` | neteng/fboss/bgp/cpp/adjrib/AdjRibGroup.cpp:3494-3602 | A split changes no RIB-OUT on either side, and both sides hold the same group entries |
| `Fleet.SplitOffKeeps` | neteng/fboss/bgp/cpp/adjrib/AdjRibGroup.cpp:3494-3602 | The new group of a split keeps the invariant |
| `Fleet.RemainderKeeps` | neteng/fboss/bgp/cpp/adjrib/AdjRibGroup.cpp:3082-3107 | What is left of a group keeps the invariant, whoever leaves |
| `Fleet.MoveTables` | neteng/fboss/bgp/cpp/adjrib/AdjRibGroup.cpp:3267-3339 | A moved peer keeps its RIB-OUT and packing list; neither the other peers' RIB-OUT nor the target's entries change |
| `Fleet.MoveIntoKeeps` | neteng/fboss/bgp/cpp/adjrib/AdjRibGroup.cpp:3267-3339 | The group peers are moved into keeps the invariant |
| `Counts.RecountFollows` | neteng/fboss/bgp/cpp/adjrib/AdjRibGroup.cpp:1249-1250 | A container's counter follows its table, one changed route at a time |
| `RefusedCount.CollapsedCountIs` | neteng/fboss/bgp/cpp/adjrib/AdjRibGroup.cpp:4692-4860 | How far the collapse leaves the count of a refused peer off: too high by the routes the group denies and by the shared paths announced again, too low by the denied routes it allows |
| `RefusedCount.RefusedCountIff` | neteng/fboss/bgp/cpp/adjrib/AdjRibGroup.cpp:4827-4843 | A refused peer shows the group's routes, and its count equals them if and only if those numbers cancel out |
| `Counts.StepConserves` | neteng/fboss/bgp/cpp/adjrib/AdjRibGroup.cpp:1557-1558 | In every step without a failed rejoin each counter keeps equalling the routes it counts, and the global total moves exactly as the members' share of it |
| `Counts.UnregisterCounts` | neteng/fboss/bgp/cpp/adjrib/AdjRibGroup.cpp:2811-2848 | Unregistering takes exactly the peer's share off the global total, detached or in sync |
| `Counts.ShareIs` | neteng/fboss/bgp/cpp/adjrib/AdjRibGroup.cpp:3910-3946 | A group's share is in-sync peers times the group's count plus the sum of the detached peers' counts |
| `FleetCounts.SplitConserves` | neteng/fboss/bgp/cpp/adjrib/AdjRibGroup.cpp:3494-3602 | The two sides of a split share what the group shared |
| `FleetCounts.MoveConserves` | neteng/fboss/bgp/cpp/adjrib/AdjRibGroup.cpp:3267-3339 | A move carries the peers' share from one group to the other |
| `OwnerTree.PutStores` | neteng/fboss/bgp/cpp/adjrib/AdjRibGroup.cpp:4353-4397 | Storing an entry under an owner changes exactly that owner's table at that route, and leaves no empty node |
| `OwnerTree.EraseStores` | neteng/fboss/bgp/cpp/adjrib/AdjRibGroup.cpp:1258-1280 | Erasing an entry changes exactly that owner's table at that route, and leaves no empty node |
| `OwnerTree.PromotedStores` | neteng/fboss/bgp/cpp/adjrib/AdjRibGroup.cpp:4559-4649 | The promoted tree stores the peer's former table for the group and every other owner's unchanged |
| `CollapseWalk.NodeCorrectionIs` | neteng/fboss/bgp/cpp/adjrib/AdjRibGroup.cpp:4692-4860 | The correction read off one node of the tree is the correction of the tables the tree stores |
| `CollapseWalk.CollapseNode` | neteng/fboss/bgp/cpp/adjrib/AdjRibGroup.cpp:4692-4860 | The collapse of one node drops exactly the candidates' entries, queues exactly their corrections there, and fails exactly those with one |
| `CollapseWalk.CollapseEntries` | neteng/fboss/bgp/cpp/adjrib/AdjRibGroup.cpp:4862-4902 | One walk over the tree, for a batch of candidates: their entries are gone, each packing list holds exactly its corrections, and exactly those with one fail |
| `CopyWalk.CopyEntries` | neteng/fboss/bgp/cpp/adjrib/AdjRibGroup.cpp:3109-3265 | One walk copies to the target exactly the planned tables (what a moved peer shows, or what is stored) and erases the moved owners from the source |
| `RibOutTree.AdjRibTree.LazyClone` | neteng/fboss/bgp/cpp/adjrib/AdjRibGroup.cpp:4651-4690 | The loop over detached peers copies the group entry for exactly those that still share it |
| `RibOutTree.AdjRibTree.MoveMaterialized` | neteng/fboss/bgp/cpp/adjrib/AdjRibGroup.cpp:3109-3265 | The target stores for each moved peer its whole view, the source stores nothing for it, and every other owner's table is unchanged in both trees |
| `RibOutTree.AdjRibTree.CopyShared` | neteng/fboss/bgp/cpp/adjrib/AdjRibGroup.cpp:3341-3461 | The target stores the group's table and the split peers' own ones; the source keeps the group's and the staying peers' |
| `AdjRibOutGroup.UpdateGroup.ProcessGroupRibWithdraw` | neteng/fboss/bgp/cpp/adjrib/AdjRibGroup.cpp:1172-1280 | In place on the object and its tree: the state after the call is the withdrawal step of the state before |
| `AdjRibOutGroup.UpdateGroup.ProcessRibAnnouncedEntryForGroup` | neteng/fboss/bgp/cpp/adjrib/AdjRibGroup.cpp:1419-1589 | In place: the announcement step, through every branch (family, checks, policy denial, unchanged attributes) |
| `AdjRibOutGroup.UpdateGroup.ConsumeChanges` | neteng/fboss/bgp/cpp/adjrib/AdjRibGroup.cpp:1052-1153 | In place: consuming a whole batch leaves every member served |
| `AdjRibOutGroup.UpdateGroup.GetWritableRibEntryForPeer` | neteng/fboss/bgp/cpp/adjrib/AdjRibGroup.cpp:368-408 | In place: the peer's entry, or a copy of the one it shares, or none; no other owner changes |
| `AdjRibOutGroup.UpdateGroup.ProcessForDetachedPeer` | neteng/fboss/bgp/cpp/adjrib/AdjRibOut.cpp:1033-1188 | In place: a detached peer's own change, and nobody else's, with every member still served |
| `AdjRibOutGroup.UpdateGroup.RegisterPeer` | neteng/fboss/bgp/cpp/adjrib/AdjRibGroup.cpp:2688-2784 | In place: the registration step, with every member served |
| `AdjRibOutGroup.UpdateGroup.UnregisterPeer` | neteng/fboss/bgp/cpp/adjrib/AdjRibGroup.cpp:2790-2900 | In place: the unregistration step, after which the tree stores nothing for the peer, every other member is still served, and the sent-prefix total has lost what the peer advertised, own and shared routes alike |
| `AdjRibOutGroup.UpdateGroup.DistributeMessageToInSyncPeers` | neteng/fboss/bgp/cpp/adjrib/AdjRibGroup.cpp:2386-2538 | In place: the loop over the members amounts to one push, with exactly the peers detached that `SpreadOutcome` allows |
| `AdjRibOutGroup.UpdateGroup.SendGroupUpdate` | neteng/fboss/bgp/cpp/adjrib/AdjRibGroup.cpp:2071-2278 | In place: one UPDATE taken from the packing list and distributed is one send step |
| `AdjRibOutGroup.UpdateGroup.TryAcceptPeersToGroup` | neteng/fboss/bgp/cpp/adjrib/AdjRibGroup.cpp:4157-4278 | In place: the collapse walk, the finalization and the bitmaps together are one accept step; the peers returned are exactly those without a correction |
| `AdjRibOutGroup.UpdateGroup.PromoteDetachedPeerToSync` | neteng/fboss/bgp/cpp/adjrib/AdjRibGroup.cpp:4468-4649 | In place: the promotion step |
| `AdjRibOutGroup.UpdateGroup.MovePeers` | neteng/fboss/bgp/cpp/adjrib/AdjRibGroup.cpp:3267-3339 | In place, on two objects: the source ends as the remainder and the target as the moved-into group |
| `AdjRibOutGroup.UpdateGroup.SplitToNewGroup` | neteng/fboss/bgp/cpp/adjrib/AdjRibGroup.cpp:3494-3602 | In place: the new object is the split-off group and this one the remainder |
| `Teardown.WithoutMeans` | neteng/fboss/bgp/cpp/adjrib/AdjRib.cpp:917-1016 | A node is left if and only if it was there before, now without the owner's entries, and the owner did not have it to itself |
| `Teardown.TearDown` | neteng/fboss/bgp/cpp/adjrib/AdjRib.cpp:917-1016 | The erase-first-and-restart, defer-other-empties loop ends, removes exactly the owner, leaves no node it emptied, and lowers the count once per advertised path |
| `CleanUp.CleanUpPeerRibOut` | neteng/fboss/bgp/cpp/adjrib/AdjRibGroup.cpp:2925-3060 | Settling a departing detached peer erases exactly its entries and lowers its count once per route of its view, own and shared; a count equal to the view ends at zero |
| `ReEvaluation.ReEvaluate` | neteng/fboss/bgp/cpp/adjrib/AdjRibGroup.cpp:950-1038 | The walk over what is not pending plus the drain of what is, route by route |
| `ReEvaluation.IncrementalIsRebuild` | neteng/fboss/bgp/cpp/adjrib/AdjRibGroup.cpp:950-1038 | The re-evaluated RIB-OUT equals the one built from scratch under the new policy if and only if every pending entry is one the drain brings to its rebuilt state |
| `ReEvaluation.FlaggedIsRebuild` | neteng/fboss/bgp/cpp/adjrib/AdjRibGroup.cpp:950-1038 | Whatever the policies, it does if every pending best path is flagged exactly one of update and withdraw |
| `ReEvaluation.UnflaggedDiffers` | neteng/fboss/bgp/cpp/adjrib/AdjRibGroup.cpp:950-1038 | For any pending best path that is not, some RIB-OUT and policy make the two differ |
| `ReEvaluation.StaleEntryStays` | neteng/fboss/bgp/cpp/adjrib/AdjRibGroup.cpp:950-1038 | A pending best path without a flag keeps the entry of the old policy under a new one that denies it |
| `PolicyCache.EqualIsEquivalence` | neteng/fboss/bgp/cpp/adjrib/AdjRibPolicyCache.cpp:98-188 | For keys with a path, masked equality is an equivalence |
| `PolicyCache.TransitiveIff` | neteng/fboss/bgp/cpp/adjrib/AdjRibPolicyCache.cpp:98-188 | With a missing path it is transitive if and only if the mask selects no path attribute |
| `PolicyCache.HashRespectsEqualIff` | neteng/fboss/bgp/cpp/adjrib/AdjRibPolicyCache.cpp:25-96 | Equal keys feed the hash the same input if and only if there is no mask, or both or neither have a path |
| `PolicyCache.HitIsFresh` | neteng/fboss/bgp/cpp/adjrib/AdjRibCommon.cpp:588-646 | If the policy reads only masked attributes, a hit gives the overridden attributes and flags of a fresh evaluation, whichever route filled the entry |
| `PolicyCache.LruPolicyCache.Lookup` | neteng/fboss/bgp/cpp/adjrib/AdjRibPolicyCache.cpp:208-333 | A hit is the one entry whose key compares equal, moved to the front with the rest in order; a miss means there is none and changes nothing; the counters tell the two apart |
| `PolicyCache.LruPolicyCache.Add` | neteng/fboss/bgp/cpp/adjrib/AdjRibPolicyCache.cpp:208-333 | The result is stored under the equal key already there, or as a new first entry for which exactly the oldest make room; no two keys ever compare equal |
| `PolicyCache.LruPolicyCache.EvictStale` | neteng/fboss/bgp/cpp/adjrib/AdjRibPolicyCache.cpp:208-333 | Only stale entries are dropped, never more than the limit, and all of them unless the limit is reached |
| `PolicyCache.LruPolicyCache.PostPolicyAttributes` | neteng/fboss/bgp/cpp/adjrib/AdjRibGroup.cpp:1743-1824 | Over any history of the cache, the attributes and flags are those of running the policy |
| `SizeLimit.NoWrap` | neteng/fboss/bgp/cpp/adjrib/AdjRibCommon.cpp:704-762 | While the attributes fit into one message the 32-bit arithmetic does not wrap |
| `SizeLimit.FullBatchFitsIff` | neteng/fboss/bgp/cpp/adjrib/AdjRibCommon.cpp:704-762 | A full batch stays within the chain budget if and only if the attributes fit, or the wrapped value is smaller than one prefix (section 4.1 of RFC 4271) |
| `SizeLimit.WrapExample` | neteng/fboss/bgp/cpp/adjrib/AdjRibCommon.cpp:704-762 | One octet of attributes too many gives a limit of over 800 million prefixes instead of none |
| `SizeLimit.PackPrefixesWithLimit` | neteng/fboss/bgp/cpp/adjrib/AdjRibCommon.cpp:704-762 | One call splits the prefixes into a batch of exactly the limit (or all) and the rest |
| `SizeLimit.DrainInBatches` | neteng/fboss/bgp/cpp/adjrib/AdjRibCommon.cpp:704-762 | With room for one prefix, repeated calls end, emit every prefix exactly once, and keep every batch's worst case within the chain budget |
| `SizeLimit.NoProgressIff` | neteng/fboss/bgp/cpp/adjrib/AdjRibCommon.cpp:704-762 | The limit is zero, so that repeated calls would never end, if and only if there is no room for one prefix |
| `Rejections.RejectKeeps` | neteng/fboss/bgp/cpp/BgpServiceUtil.cpp:489-597 | One rejection keeps every cap, the index, the prefix counts, that only what was fed is listed, and completeness while nothing was dropped |
| `Rejections.RejectOnce` | neteng/fboss/bgp/cpp/BgpServiceUtil.cpp:489-597 | Comparing with the last neighbor only is enough: no group ever lists a neighbor twice |
| `RejectedWalk.CollectRejected` | neteng/fboss/bgp/cpp/adjrib/AdjRibShow.cpp:262-318 | One neighbor's walk counts every selected rejection by policy, lists the first ones up to the cap, and is flagged exactly when it listed fewer than it counted |
| `RejectedWalk.RejectedNetworksAccumulator.AddRejectedPaths` | neteng/fboss/bgp/cpp/BgpServiceUtil.cpp:489-597 | The total stays the sum over policies, and each policy's neighbor count the size of its neighbor set |
| `RejectedWalk.WalkRejectedNetworkPeers` | neteng/fboss/bgp/cpp/BgpServiceBase.cpp:1249-1315 | The walk stops at the first timeout and nowhere else, and walked plus failed neighbors is always the number matched |
| `RejectedWalk.WalkExact` | neteng/fboss/bgp/cpp/BgpServiceBase.cpp:1249-1315 | Whatever order policies are merged in, a walk gathers exactly what the walked neighbors rejected |
| `RejectedWalk.Reported` | neteng/fboss/bgp/cpp/BgpServiceUtil.cpp:489-597 | Path totals, path counts and neighbor counts are always exact; prefix counts never exceed the truth and are exact unless keys were dropped; untruncated details list exactly the rejections, and no neighbor twice when the neighbors are distinct |

## Left out

- Push failures and the drop guard for IPv4 routes over a legacy session: every push lands or is deferred.
- Coroutines, event bases, timers and cancellation: each source method is one step between suspension points, and the queue-full and overdue decisions are parameters.
- PDU serialization, per-peer nexthop rewriting and message splitting: a message is attributes with a set of routes.
- The outbound policy, the announcement checks and the nexthop-set-by-policy decision: their results are part of each change.
- Pre-policy counts and the counts per address family: only the sent-prefix counts are modelled.
- RIB-IN processing, stale handling of graceful restart, thrift handlers, profiling, logging and command-line conversion.
- Iterator stability, radix-tree internals, shared pointers and hash-map order: trees are maps walked in any order.
- The loop that distributes End-of-RIB, the build loop as a whole, and the first walk of the shadow RIB are steps on values, not methods of the object; so are the bookkeeping loops over the members to be split off or moved, which are set operations.
- The change list as an intrusive list of items: a consumer's position is a version, and the batch it takes may be any that covers what is due to it. A consumer may come to carry its bit on any newer prefix at any time (`ListJoined`), which is more than joining at a marker does.
- A change of the session-type and community checks of a running group: only its policy changes.
- FleetIsTold: promotion, refresh walks and re-evaluations are steps of the run only under the exact conditions of `PromoteKeepsIff`, `PeerFollowsIff`, `GroupReevaluateKeepsIff` and `PeerReevaluateKeepsIff`, because the property fails outside them.
- FleetConverges: over the same runs as `FleetIsTold`.
- NetRunFollows: over the same runs as `FleetIsTold`.
- NetStepKeeps: for the steps of those runs.
- RejoinChangesNothing: in the states those runs reach.
- BestPathNeverRefused: in the states those runs reach; a best-path peer whose re-evaluation skipped a prefix both policies do not agree on can be refused.
- BestPathConserves: over the same runs as `FleetIsTold`.
- PeerReevaluateReady: a peer that waits to rejoin runs again before it is re-evaluated; the source re-evaluates it as it waits and lets it run again at the next check for peers to accept.
- FastRejoinKeepsIff: the fast rejoin is a step of the run while the group's RIB-OUT is unchanged since the peer detached, which is more than the exact condition asks only for denied routes.
- FleetConserves: covers runs without a failed rejoin, because the count of a refused peer is wrong unless the condition of `RefusedCountIff` holds.
- TryAcceptPeersToGroup: leaves the count of a refused candidate as it was; what the source makes of it is `CollapsedCount`.
- RecoverIfNoSync: an emptied group discards its packing list at once; the source does so when it destroys the group.
- AcceptedOnlyIfSame: compares post-policy attributes, as the source does, not whether the policy set the nexthop.
- RegisterPeer: asks that the tree stores nothing under the new peer's owner key, which is what unregistering leaves behind.
- WithoutMeans: models the walk over the nodes as a sequence, not the iterator that erasing invalidates.
- ReEvaluate: covers groups without add-path, where each prefix has one best path; `ReevaluateRightIff` covers both kinds on tables.
- HashRespectsEqualIff: compares the inputs of the hash, not its value.
- Reported: no neighbor twice is stated for distinct neighbor addresses, which is how the accumulator is fed.
