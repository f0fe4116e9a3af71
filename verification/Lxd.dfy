// LXD as the manager sees it: the records it reports, and the executable form of the client
// contract for one node's endpoint.
module Lxd {
  import opened Model

  type uint64 = x: int | 0 <= x < 0x1_0000_0000_0000_0000

  datatype NodeInfo = NodeInfo(name: string, status: string)
  datatype NodeResources = NodeResources(cpu: uint64, mem: uint64, disk: uint64)
  datatype InstanceInfo = InstanceInfo(
    name: string,
    status: string,
    kind: string,
    location: string,
    config: Option<map<string, string>>)

  datatype ClusterStatus = ClusterStatus(enabled: bool, serverName: string)

  datatype InitConfig = InitConfig(
    serverName: string,
    clusterName: string,
    listenAddress: string,
    pool: string,
    driver: string,
    token: string)

  datatype JoinConfig = JoinConfig(
    serverName: string,
    clusterAddress: string,
    certificate: string,
    pool: string,
    driver: string,
    token: string)

  datatype ClientError = AlreadyBootstrapped | Unreachable

  class Fake {
    var nodes: map<string, NodeInfo>
    var clustered: bool
    var clusterStatus: Option<ClusterStatus>
    var certificate: string
    var initCalls: seq<InitConfig>
    var joinCalls: seq<JoinConfig>

    // An unreliable endpoint may fail any call; a failing InitCluster or JoinCluster may
    // nevertheless have taken effect.
    const reliable: bool

    // An endpoint that is down answers no call, and no call has an effect.
    const down: bool

    ghost predicate Valid()
      reads this
    {
      && !(reliable && down)
      && (clusterStatus.Some? ==> clusterStatus.value.enabled == clustered)
      && forall n | n in nodes :: nodes[n].name == n
    }

    constructor (reliable: bool, down: bool)
      requires !(reliable && down)
      ensures Valid() && !clustered && nodes == map[] && certificate == ""
      ensures clusterStatus == None && initCalls == [] && joinCalls == []
      ensures this.reliable == reliable && this.down == down
    {
      this.reliable, this.down := reliable, down;
      nodes, clustered, clusterStatus, certificate, initCalls, joinCalls := map[], false, None, "", [], [];
    }

    method GetClusterStatus() returns (res: Option<ClusterStatus>)
      requires Valid()
      ensures res.Some? ==> res.value.enabled == clustered
      ensures down ==> res.None?
      ensures reliable ==> res.Some?
    {
      var fail: bool := *;
      if down || (!reliable && fail) { return None; }
      if clusterStatus.Some? { return clusterStatus; }
      return Some(ClusterStatus(clustered, ""));
    }

    method GetClusterCertificate() returns (res: Option<string>)
      requires Valid()
      ensures down ==> res.None?
      ensures res.Some? ==> res.value == certificate
      ensures reliable ==> res.Some? == (certificate != "")
    {
      var fail: bool := *;
      if down || (!reliable && fail) { return None; }
      if certificate == "" { return None; }
      return Some(certificate);
    }

    // The members in the arbitrary order of a map iteration.
    method GetClusterMembers() returns (res: Option<seq<NodeInfo>>)
      requires Valid()
      ensures res.Some? ==> forall n | n in nodes :: nodes[n] in res.value
      ensures res.Some? ==> forall m | m in res.value :: m.name in nodes && nodes[m.name] == m
      ensures res.Some? ==> forall i, j | 0 <= i < j < |res.value| :: res.value[i].name != res.value[j].name
      ensures down ==> res.None?
      ensures reliable ==> res.Some?
    {
      var fail: bool := *;
      if down || (!reliable && fail) { return None; }
      var out: seq<NodeInfo> := [];
      var todo := nodes.Keys;
      while todo != {}
        invariant todo <= nodes.Keys
        invariant forall m | m in out :: m.name in nodes.Keys - todo && nodes[m.name] == m
        invariant forall n | n in nodes.Keys - todo :: nodes[n] in out
        invariant forall i, j | 0 <= i < j < |out| :: out[i].name != out[j].name
        decreases todo
      {
        var n :| n in todo;
        todo := todo - {n};
        out := out + [nodes[n]];
      }
      return Some(out);
    }

    // An unclustered node becomes clustered under the given name; a clustered one says so.
    method InitCluster(cfg: InitConfig) returns (err: Option<ClientError>)
      requires Valid()
      modifies this`clustered, this`clusterStatus, this`initCalls
      ensures Valid()
      ensures initCalls == old(initCalls) + [cfg]
      ensures err.None? ==> !old(clustered) && clustered && clusterStatus == Some(ClusterStatus(true, cfg.serverName))
      ensures err == Some(AlreadyBootstrapped) ==> old(clustered)
      ensures old(clustered) ==> clustered && clusterStatus == old(clusterStatus) && err.Some?
      ensures down ==> err == Some(Unreachable) && clustered == old(clustered)
      ensures reliable ==> err == if old(clustered) then Some(AlreadyBootstrapped) else None
    {
      initCalls := initCalls + [cfg];
      if down { return Some(Unreachable); }
      var fail, lost: bool := *, *;
      if !reliable && fail && !lost { return Some(Unreachable); }
      if clustered { return if !reliable && fail then Some(Unreachable) else Some(AlreadyBootstrapped); }
      clustered := true;
      clusterStatus := Some(ClusterStatus(true, cfg.serverName));
      return if !reliable && fail then Some(Unreachable) else None;
    }

    method JoinCluster(cfg: JoinConfig) returns (err: Option<ClientError>)
      requires Valid()
      modifies this`clustered, this`clusterStatus, this`joinCalls
      ensures Valid()
      ensures joinCalls == old(joinCalls) + [cfg]
      ensures err.None? ==> !old(clustered) && clustered && clusterStatus == Some(ClusterStatus(true, cfg.serverName))
      ensures err == Some(AlreadyBootstrapped) ==> old(clustered)
      ensures old(clustered) ==> clustered && clusterStatus == old(clusterStatus) && err.Some?
      ensures down ==> err == Some(Unreachable) && clustered == old(clustered)
      ensures reliable ==> err == if old(clustered) then Some(AlreadyBootstrapped) else None
    {
      joinCalls := joinCalls + [cfg];
      if down { return Some(Unreachable); }
      var fail, lost: bool := *, *;
      if !reliable && fail && !lost { return Some(Unreachable); }
      if clustered { return if !reliable && fail then Some(Unreachable) else Some(AlreadyBootstrapped); }
      clustered := true;
      clusterStatus := Some(ClusterStatus(true, cfg.serverName));
      return if !reliable && fail then Some(Unreachable) else None;
    }
  }
}
