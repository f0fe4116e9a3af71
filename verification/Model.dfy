// The records the control plane stores, and the few generic types the other modules share.
module Model {

  datatype Option<+T> = None | Some(value: T)

  // Why a repository call failed. Unavailable stands for every failure that is not the
  // store's own verdict: a lost connection, an exhausted random source.
  datatype Error = NotFound | Conflict | Unavailable

  datatype Result<+T> = Ok(value: T) | Err(error: Error)

  // Go's int and int64 on a 64-bit platform.
  const TWO63: int := 0x8000_0000_0000_0000
  const TWO64: int := 0x1_0000_0000_0000_0000
  type int64 = x: int | -0x8000_0000_0000_0000 <= x < 0x8000_0000_0000_0000

  // Two's complement reduction: what a 64-bit register holds after an exact result x.
  function Wrap64(x: int): (w: int64)
    ensures (w - x) % TWO64 == 0
    ensures -TWO63 <= x < TWO63 ==> w == x
  {
    (x + TWO63) % TWO64 - TWO63
  }

  // Reducing early and reducing late agree, so an accumulator that wraps at every step
  // holds the reduction of the exact sum.
  lemma WrapAbsorbs(x: int, y: int)
    ensures Wrap64(Wrap64(x) + y) == Wrap64(x + y)
    ensures Wrap64(y - Wrap64(x)) == Wrap64(y - x)
  {
    var turns := (Wrap64(x) - x) / TWO64;
    assert Wrap64(x) == x + turns * TWO64;
    FullTurns(x + y, turns);
    FullTurns(y - x, -turns);
  }

  lemma FullTurns(x: int, turns: int)
    ensures Wrap64(x + turns * TWO64) == Wrap64(x)
  {
    var q, m := (x + TWO63) / TWO64, (x + TWO63) % TWO64;
    assert x + turns * TWO64 + TWO63 == (q + turns) * TWO64 + m;
  }

  // One stored record. Clusters, nodes and instances share this shape: `owner` is the id of
  // the cluster the record belongs to, and is empty for a cluster itself.
  datatype Row<+P> = Row(id: string, owner: string, name: string, createdAt: int, body: P)

  datatype NodeStatus = Provisioning | Online | Offline | Draining | Deprovisioning | Failed

  datatype NodeBody = NodeBody(
    member: string,     // LXDMemberName
    serverId: string,   // HyperscalerServerID
    cpu: int64,
    mem: int64,
    disk: int64,
    status: NodeStatus)

  datatype InstanceStatus = Running | Stopped | Frozen | Unknown | Other(text: string)

  datatype InstanceBody = InstanceBody(
    nodeId: string,     // empty while the instance waits for a placement
    kind: string,
    status: InstanceStatus,
    cpu: int64,
    mem: int64,
    disk: int64,
    config: Option<map<string, string>>)

  // A configuration value is only ever asked whether it is a string.
  datatype ConfigValue = Text(text: string) | NotText

  datatype ClusterBody = ClusterBody(
    hyperscaler: map<string, ConfigValue>,
    scaling: map<string, ConfigValue>)

  type Node = Row<NodeBody>
  type Instance = Row<InstanceBody>
  type Cluster = Row<ClusterBody>
}
