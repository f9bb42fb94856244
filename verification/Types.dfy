/** Values shared by every part of the RIB-OUT model. */
module Types {

  datatype Option<+T> = None | Some(value: T)

  /** A CIDR network; `v4` selects the address family. */
  datatype Prefix = Prefix(v4: bool, addr: nat, len: nat)

  type PathId = nat

  /** The path id of every route that is not sent with add-path. */
  const DEFAULT_PATH_ID: PathId := 0

  /** Identity of one advertised route: a prefix and its add-path id. */
  datatype Key = Key(prefix: Prefix, pathId: PathId)

  datatype Afi = IPv4 | IPv6

  type PeerId = nat

  /** BGP path attributes, one field per attribute a policy can match or set. */
  datatype BgpPath = BgpPath(
    origin: nat,
    asPath: seq<nat>,
    nexthop: nat,
    med: Option<nat>,
    localPref: Option<nat>,
    atomicAggregate: bool,
    aggregator: nat,
    communities: seq<nat>,
    originatorId: nat,
    clusterList: seq<nat>,
    extCommunities: seq<nat>,
    weight: nat,
    backupAddr: Option<nat>,
    topologyInfo: nat)

  function AfiOf(prefix: Prefix): Afi {
    if prefix.v4 then IPv4 else IPv6
  }

  function Max(a: nat, b: nat): nat {
    if a < b then b else a
  }
}
