// The reconciliation loop: scheduleCluster, executeScaleOut, reconcileCluster and reconcile
// over one set of stores, with every component optional and every call fallible.
module Orchestrator {
  import opened Model
  import opened Memory
  import opened Lxd
  import opened Reconcile
  import opened NodeSync
  import opened InstanceSync
  import opened Scheduler
  import opened Placement
  import opened Fleet
  import opened Isolation
  import Bootstrap

  datatype ServerSpec = ServerSpec(name: string, serverType: string, region: string, image: string, clusterId: string)

  class Provider {
    var calls: seq<ServerSpec>             // every server ever asked for
    ghost var answer: Option<string>       // what was answered last

    constructor ()
      ensures calls == [] && answer == None
    {
      calls, answer := [], None;
    }

    // None is an error.
    method ProvisionServer(spec: ServerSpec) returns (serverId: Option<string>)
      modifies this
      ensures calls == old(calls) + [spec] && answer == serverId
    {
      calls := calls + [spec];
      serverId := *;
      answer := serverId;
    }
  }

  // ----- configuration -----

  // The value under this key is this text.
  predicate Says(m: map<string, ConfigValue>, key: string, text: string) {
    key in m && m[key] == Text(text)
  }

  // There is a text under this key, and it is not empty.
  predicate Given(m: map<string, ConfigValue>, key: string) {
    key in m && m[key].Text? && m[key].text != ""
  }

  // The empty string stands for a missing key and for a value that is not a string.
  function Setting(m: map<string, ConfigValue>, key: string): (text: string)
    ensures if Given(m, key) then Says(m, key, text) else text == ""
  {
    if key in m && m[key].Text? then m[key].text else ""
  }

  const SPEC_KEYS := {"server_type", "region", "image"}

  // A scale-out needs all three settings as non-empty strings.
  predicate SpecGiven(c: Cluster) {
    forall key | key in SPEC_KEYS :: Given(c.body.hyperscaler, key)
  }

  // The server asked for is the one the cluster's settings describe.
  predicate Orders(c: Cluster, name: string, spec: ServerSpec) {
    && spec.name == name && spec.clusterId == c.id
    && Says(c.body.hyperscaler, "server_type", spec.serverType)
    && Says(c.body.hyperscaler, "region", spec.region)
    && Says(c.body.hyperscaler, "image", spec.image)
  }

  function SpecFor(c: Cluster, nodeName: string): (spec: Option<ServerSpec>)
    ensures spec.Some? <==> forall key | key in SPEC_KEYS :: Given(c.body.hyperscaler, key)
    ensures spec.Some? ==> Orders(c, nodeName, spec.value)
  {
    var serverType, region, image := Setting(c.body.hyperscaler, "server_type"), Setting(c.body.hyperscaler, "region"),
        Setting(c.body.hyperscaler, "image");
    assert "server_type" in SPEC_KEYS && "region" in SPEC_KEYS && "image" in SPEC_KEYS;
    if serverType == "" || region == "" || image == "" then None
    else Some(ServerSpec(nodeName, serverType, region, image, c.id))
  }

  function NodeName(c: Cluster, suffix: string): string {
    c.name + "-scale-" + suffix
  }

  function BootstrapConfigFor(c: Cluster, nodeName: string): Bootstrap.Config {
    Bootstrap.Config(
      c.name,
      Setting(c.body.scaling, "bootstrap_trust_token"),
      Setting(c.body.scaling, "storage_driver"),
      Setting(c.body.scaling, "storage_pool"),
      Bootstrap.NodeConfig(Setting(c.body.scaling, "seed_node_name"), Setting(c.body.scaling, "seed_node_address")),
      Bootstrap.NodeConfig(nodeName, Setting(c.body.hyperscaler, "listen_address")))
  }

  const SCALING_KEYS :=
      {"bootstrap_trust_token", "storage_driver", "storage_pool", "seed_node_name", "seed_node_address"}

  predicate BootstrapGiven(c: Cluster) {
    && c.name != "" && Given(c.body.hyperscaler, "listen_address")
    && forall key | key in SCALING_KEYS :: Given(c.body.scaling, key)
  }

  // A missing setting surfaces as an incomplete bootstrap configuration, and nothing else does.
  lemma MissingSettingsSurface(c: Cluster, nodeName: string)
    ensures Bootstrap.Complete(BootstrapConfigFor(c, nodeName)) <==> BootstrapGiven(c) && nodeName != ""
  {
    assert "bootstrap_trust_token" in SCALING_KEYS && "storage_driver" in SCALING_KEYS && "storage_pool" in SCALING_KEYS
        && "seed_node_name" in SCALING_KEYS && "seed_node_address" in SCALING_KEYS;
  }

  // An init of the seed carries the settings under these keys.
  ghost predicate InitsFor(c: Cluster, call: InitConfig) {
    && call.clusterName == c.name
    && Says(c.body.scaling, "seed_node_name", call.serverName)
    && Says(c.body.scaling, "seed_node_address", call.listenAddress)
    && Says(c.body.scaling, "storage_pool", call.pool)
    && Says(c.body.scaling, "storage_driver", call.driver)
    && Says(c.body.scaling, "bootstrap_trust_token", call.token)
  }

  // A join of the new server carries its name, the seed's address and certificate, and the
  // settings under these keys.
  ghost predicate JoinsFor(c: Cluster, nodeName: string, certificate: string, call: JoinConfig) {
    && call.serverName == nodeName && call.certificate == certificate
    && (exists address :: Says(c.body.scaling, "seed_node_address", address)
                          && call.clusterAddress == "https://" + address)
    && Says(c.body.scaling, "storage_pool", call.pool)
    && Says(c.body.scaling, "storage_driver", call.driver)
    && Says(c.body.scaling, "bootstrap_trust_token", call.token)
  }

  ghost predicate SeedAsked(c: Cluster, calls: seq<InitConfig>, calls': seq<InitConfig>) {
    calls' == calls || (exists call :: calls' == calls + [call] && InitsFor(c, call))
  }

  ghost predicate JoinerAsked(c: Cluster, nodeName: string, certificate: string, calls: seq<JoinConfig>,
                              calls': seq<JoinConfig>) {
    calls' == calls || (exists call :: calls' == calls + [call] && JoinsFor(c, nodeName, certificate, call))
  }

  lemma NothingAsked(c: Cluster, nodeName: string, certificate: string, inits: seq<InitConfig>, joins: seq<JoinConfig>)
    ensures SeedAsked(c, inits, inits) && JoinerAsked(c, nodeName, certificate, joins, joins)
  {
  }

  // What a bootstrap under the cluster's configuration asks of the two nodes.
  lemma AskedForCluster(c: Cluster, nodeName: string, certificate: string, inits: seq<InitConfig>,
                        inits': seq<InitConfig>, joins: seq<JoinConfig>, joins': seq<JoinConfig>)
    requires Bootstrap.InitsSince(inits, inits', BootstrapConfigFor(c, nodeName))
    requires Bootstrap.JoinsSince(joins, joins', BootstrapConfigFor(c, nodeName), certificate)
    requires Bootstrap.Complete(BootstrapConfigFor(c, nodeName)) || (inits' == inits && joins' == joins)
    ensures SeedAsked(c, inits, inits') && JoinerAsked(c, nodeName, certificate, joins, joins')
  {
    var cfg := BootstrapConfigFor(c, nodeName);
    MissingSettingsSurface(c, nodeName);
    if inits' != inits {
      var call :| inits' == inits + [call] && Bootstrap.Inits(call, cfg);
      assert InitsFor(c, call);
    }
    if joins' != joins {
      var call :| joins' == joins + [call] && Bootstrap.Joins(call, cfg, certificate);
      assert JoinsFor(c, nodeName, certificate, call) by {
        assert Says(c.body.scaling, "seed_node_address", cfg.seed.listenAddress);
      }
    }
  }

  // What LXD answers during one pass over a cluster.
  datatype Answers = Answers(
    members: Option<seq<NodeInfo>>,
    resources: map<string, NodeResources>,
    instances: Option<seq<InstanceInfo>>)

  // An endpoint that cannot be reached gives no answer.
  function AnswersOf(lxd: map<string, Answers>, c: string): (a: Answers)
    ensures if c in lxd then a == lxd[c] else a.members.None? && a.instances.None?
  {
    if c in lxd then lxd[c] else Answers(None, map[], None)
  }

  // What the syncs of a pass were given is what LXD answered.
  ghost predicate FromLxd(e: Env, lxd: Answers) {
    && (e.nodes.Some? ==> lxd.members.Some? && e.nodes.value.items == Fetched(lxd.members.value, lxd.resources))
    && (e.instances.Some? ==> lxd.instances.Some? && e.instances.value.items == lxd.instances.value)
  }

  // How many of the servers asked for were for one cluster.
  function Requests(calls: seq<ServerSpec>, c: string): nat {
    if calls == [] then 0
    else Requests(calls[..|calls| - 1], c) + if calls[|calls| - 1].clusterId == c then 1 else 0
  }

  lemma OneMoreRequest(calls: seq<ServerSpec>, spec: ServerSpec, c: string)
    ensures Requests(calls + [spec], c) == Requests(calls, c) + if spec.clusterId == c then 1 else 0
  {
    assert (calls + [spec])[..|calls|] == calls;
  }

  // Refusing one more instance does not change the turns before it.
  lemma {:induction false} EarlierTurns(nodes: seq<Node>, insts: seq<Instance>, i: nat, lost: set<string>, id: string)
    requires i <= |insts| && forall k | 0 <= k < i :: insts[k].id != id
    ensures Pass(nodes, insts, i, lost + {id}) == Pass(nodes, insts, i, lost)
  {
    hide Pass, Turn, Unplaceable, Best;
    if i == 0 {
      PassStart(nodes, insts, lost);
      PassStart(nodes, insts, lost + {id});
    } else {
      EarlierTurns(nodes, insts, i - 1, lost, id);
      PassUnfold(nodes, insts, i, lost);
      PassUnfold(nodes, insts, i, lost + {id});
      PassShape(nodes, insts, i - 1, lost);
      SameTurn(nodes, Pass(nodes, insts, i - 1, lost).0, i - 1, lost, id);
    }
  }

  lemma SameTurn(nodes: seq<Node>, cur: seq<Instance>, k: nat, lost: set<string>, id: string)
    requires k < |cur| && cur[k].id != id
    ensures Turn(nodes, cur, k, lost + {id}) == Turn(nodes, cur, k, lost)
  {
    hide Best;
  }

  // The loop of scheduleCluster after i turns: the local slice is the pass so far, and equals
  // the repository's rows of the cluster.
  ghost predicate ScheduledTo(nodes: seq<Node>, listed: seq<Instance>, before: Rows<InstanceBody>, c: string, i: nat,
                              lost: set<string>, cur: seq<Instance>, rows: Rows<InstanceBody>, flag: bool) {
    && i <= |listed| && Pass(nodes, listed, i, lost) == (cur, flag)
    && Keyed(rows) && Lists(rows, c, cur) && rows.Keys == before.Keys
    && (forall id | id in before && before[id].owner != c :: rows[id] == before[id])
    && (forall id | id in lost :: exists k | 0 <= k < i :: listed[k].id == id)
  }

  lemma StartPass(nodes: seq<Node>, listed: seq<Instance>, c: string, rows: Rows<InstanceBody>)
    requires Keyed(rows) && Lists(rows, c, listed)
    ensures ScheduledTo(nodes, listed, rows, c, 0, {}, listed, rows, false)
  {
  }

  lemma TurnSkipped(nodes: seq<Node>, listed: seq<Instance>, before: Rows<InstanceBody>, c: string, i: nat,
                    lost: set<string>, cur: seq<Instance>, rows: Rows<InstanceBody>, flag: bool)
    requires i < |listed| && ScheduledTo(nodes, listed, before, c, i, lost, cur, rows, flag)
    requires cur[i].body.nodeId != "" || Best(nodes, cur, Ask(cur[i])).None?
    ensures ScheduledTo(nodes, listed, before, c, i + 1, lost, cur, rows, flag || cur[i].body.nodeId == "")
  {
    PassUnfold(nodes, listed, i + 1, lost);
    hide Pass, Best, Lists;
  }

  lemma TurnRefused(nodes: seq<Node>, listed: seq<Instance>, before: Rows<InstanceBody>, c: string, i: nat,
                    lost: set<string>, cur: seq<Instance>, rows: Rows<InstanceBody>, flag: bool)
    requires DistinctIds(listed) && i < |listed| && ScheduledTo(nodes, listed, before, c, i, lost, cur, rows, flag)
    requires Best(nodes, cur, Ask(cur[i])).Some?
    ensures ScheduledTo(nodes, listed, before, c, i + 1, lost + {cur[i].id}, cur, rows, flag)
  {
    hide Pass, Best, Lists;
    PassShape(nodes, listed, i, lost);
    assert cur[i] == listed[i];
    EarlierTurns(nodes, listed, i, lost, cur[i].id);
    PassUnfold(nodes, listed, i + 1, lost + {cur[i].id});
  }

  lemma PlacedUpdates(nodes: seq<Node>, listed: seq<Instance>, before: Rows<InstanceBody>, c: string, i: nat,
                      lost: set<string>, cur: seq<Instance>, rows: Rows<InstanceBody>, flag: bool, to: string)
    requires Sound(rows) && i < |listed| && ScheduledTo(nodes, listed, before, c, i, lost, cur, rows, flag)
    ensures var placed := Placed(cur[i], to);
            Verdict(rows, Op.Update(placed)) == None && Apply(rows, Op.Update(placed)) == rows[placed.id := placed]
  {
    assert cur[i].id in rows && rows[cur[i].id] == cur[i];
  }

  lemma TurnTaken(nodes: seq<Node>, listed: seq<Instance>, before: Rows<InstanceBody>, c: string, i: nat,
                  lost: set<string>, cur: seq<Instance>, rows: Rows<InstanceBody>, flag: bool)
    requires DistinctIds(listed) && i < |listed| && ScheduledTo(nodes, listed, before, c, i, lost, cur, rows, flag)
    requires cur[i].body.nodeId == "" && Best(nodes, cur, Ask(cur[i])).Some?
    ensures var placed := Placed(cur[i], Best(nodes, cur, Ask(cur[i])).value.id);
            ScheduledTo(nodes, listed, before, c, i + 1, lost, cur[i := placed], rows[placed.id := placed], flag)
  {
    var placed := Placed(cur[i], Best(nodes, cur, Ask(cur[i])).value.id);
    SliceTaken(nodes, listed, i, lost);
    hide Pass, Best;
    PatchedLists(rows, c, cur, i, placed);
    hide Lists;
  }

  lemma SliceTaken(nodes: seq<Node>, listed: seq<Instance>, i: nat, lost: set<string>)
    requires DistinctIds(listed) && i < |listed|
    requires var cur := Pass(nodes, listed, i, lost).0; cur[i].body.nodeId == "" && Best(nodes, cur, Ask(cur[i])).Some?
    requires forall id | id in lost :: exists k | 0 <= k < i :: listed[k].id == id
    ensures var (cur, flag) := Pass(nodes, listed, i, lost);
            Pass(nodes, listed, i + 1, lost) == (cur[i := Placed(cur[i], Best(nodes, cur, Ask(cur[i])).value.id)], flag)
  {
    hide Best, Pass;
    PassShape(nodes, listed, i, lost);
    PassUnfold(nodes, listed, i + 1, lost);
    var cur := Pass(nodes, listed, i, lost).0;
    assert cur[i] == listed[i] && cur[i].id !in lost;
  }

  lemma PatchedLists(rows: Rows<InstanceBody>, c: string, cur: seq<Instance>, i: nat, placed: Instance)
    requires Keyed(rows) && Lists(rows, c, cur) && i < |cur| && placed.id == cur[i].id && placed.owner == cur[i].owner
    ensures Lists(rows[placed.id := placed], c, cur[i := placed])
  {
    var next, rows' := cur[i := placed], rows[placed.id := placed];
    forall k | 0 <= k < |next| ensures next[k].id in rows' && rows'[next[k].id] == next[k] && next[k].owner == c {
      if k != i { assert cur[k].id != cur[i].id; }
    }
    forall id | id in rows' && rows'[id].owner == c ensures rows'[id] in next {
      if id == placed.id {
        assert next[i] == placed;
      } else {
        assert rows[id] in cur;
        var k :| 0 <= k < |cur| && cur[k] == rows[id];
        assert k != i && next[k] == cur[k];
      }
    }
  }

  class Orchestrator {
    const clusterRepo: Store?<ClusterBody>
    const nodeRepo: Store?<NodeBody>
    const instanceRepo: Store?<InstanceBody>
    const nodeSyncer: Syncer?
    const instanceSyncer: InstanceSyncer?
    const hasScheduler: bool
    const provider: Provider?
    const bootstrap: Bootstrap.Workflow?

    // The tables behind the repositories.
    ghost const nodes: Store<NodeBody>
    ghost const instances: Store<InstanceBody>

    constructor (clusterRepo: Store?<ClusterBody>, nodeRepo: Store?<NodeBody>, instanceRepo: Store?<InstanceBody>,
                 nodeSyncer: Syncer?, instanceSyncer: InstanceSyncer?, hasScheduler: bool, provider: Provider?,
                 bootstrap: Bootstrap.Workflow?, ghost nodes: Store<NodeBody>, ghost instances: Store<InstanceBody>)
      ensures this.clusterRepo == clusterRepo && this.nodeRepo == nodeRepo && this.instanceRepo == instanceRepo
      ensures this.nodeSyncer == nodeSyncer && this.instanceSyncer == instanceSyncer
      ensures this.hasScheduler == hasScheduler
      ensures this.provider == provider && this.bootstrap == bootstrap && this.nodes == nodes
      ensures this.instances == instances
    {
      this.clusterRepo, this.nodeRepo, this.instanceRepo := clusterRepo, nodeRepo, instanceRepo;
      this.nodeSyncer, this.instanceSyncer, this.hasScheduler := nodeSyncer, instanceSyncer, hasScheduler;
      this.provider, this.bootstrap, this.nodes, this.instances := provider, bootstrap, nodes, instances;
    }

    ghost predicate Wired() {
      && (nodeRepo != null ==> nodeRepo == nodes)
      && (instanceRepo != null ==> instanceRepo == instances)
      && (nodeSyncer != null ==> nodeSyncer.repo == nodes)
      && (instanceSyncer != null ==> instanceSyncer.nodes == nodes && instanceSyncer.instances == instances)
      && (nodes as object) != (instances as object)
      && (clusterRepo != null ==>
             (clusterRepo as object) != (nodes as object) && (clusterRepo as object) != (instances as object))
    }

    ghost function State(): Fleet
      reads nodes, instances
    {
      Fleet(nodes.rows, instances.rows)
    }

    ghost predicate Valid()
      reads nodes, instances
      reads if bootstrap == null then {} else {bootstrap.bootstrapper.seed, bootstrap.bootstrapper.joiner}
      reads if bootstrap == null then {} else set k | k in bootstrap.checks :: k.client
    {
      Wired() && Healthy(State()) && (bootstrap != null ==> bootstrap.Valid())
    }

    // ----- placement -----

    method ScheduleCluster(c: Cluster) returns (scaleOutRequired: bool, ghost lost: Option<set<string>>)
      requires Wired() && Healthy(State())
      modifies instances
      ensures Healthy(State()) && nodes.rows == old(nodes.rows)
      ensures Placing(c.id, lost, old(State()), State(), scaleOutRequired)
      ensures scaleOutRequired ==> hasScheduler && nodeRepo != null && instanceRepo != null
      ensures hasScheduler && nodeRepo != null && instanceRepo != null && Reliable() ==> lost == Some({})
    {
      if !hasScheduler || nodeRepo == null || instanceRepo == null { return false, None; }
      SoundParts(State());
      var nodeList := nodeRepo.List(c.id);
      if nodeList.Err? { return false, None; }
      var instList := instanceRepo.List(c.id);
      if instList.Err? { return false, None; }
      ghost var ids;
      scaleOutRequired, ids := PlaceAll(c.id, nodeList.value, instList.value);
      lost := Some(ids);
    }

    method PlaceAll(c: string, nodeList: seq<Node>, listed: seq<Instance>)
      returns (scaleOutRequired: bool, ghost lost: set<string>)
      requires Wired() && Healthy(State()) && instanceRepo != null
      requires Lists(nodes.rows, c, nodeList) && Lists(instances.rows, c, listed)
      modifies instances
      ensures Healthy(State()) && nodes.rows == old(nodes.rows)
      ensures Placing(c, Some(lost), old(State()), State(), scaleOutRequired)
      ensures !instances.faulty ==> lost == {}
    {
      hide Healthy, Pass, Best;
      ghost var before := State();
      SoundParts(before);
      GoodListing(nodes.rows, c, nodeList);
      var cur := listed;
      lost, scaleOutRequired := {}, false;
      StartPass(nodeList, listed, c, instances.rows);
      for i := 0 to |listed|
        invariant nodes.rows == before.nodes && Sound(instances.rows)
        invariant ScheduledTo(nodeList, listed, before.instances, c, i, lost, cur, instances.rows, scaleOutRequired)
        invariant !instances.faulty ==> lost == {}
      {
        ghost var rows := instances.rows;
        var inst := cur[i];
        if inst.body.nodeId != "" {
          TurnSkipped(nodeList, listed, before.instances, c, i, lost, cur, rows, scaleOutRequired);
          continue;
        }
        var choice := Schedule(nodeList, cur, Ask(inst));
        if choice.None? {
          TurnSkipped(nodeList, listed, before.instances, c, i, lost, cur, rows, scaleOutRequired);
          scaleOutRequired := true;
          continue;
        }
        var placed := Placed(inst, choice.value.id);
        PlacedUpdates(nodeList, listed, before.instances, c, i, lost, cur, rows, scaleOutRequired, choice.value.id);
        var res := instanceRepo.Update(placed);
        if res.Err? {
          TurnRefused(nodeList, listed, before.instances, c, i, lost, cur, rows, scaleOutRequired);
          lost := lost + {inst.id};
          continue;
        }
        TurnTaken(nodeList, listed, before.instances, c, i, lost, cur, rows, scaleOutRequired);
        cur := Patch(cur, inst.id, placed, i);
      }
      assert Scheduled(before.nodes, before.instances, c, lost, instances.rows, scaleOutRequired) by {
        assert ScheduledFrom(nodeList, listed, before.instances, c, lost, instances.rows, scaleOutRequired);
      }
      PlacingHealthy(c, Some(lost), before, State(), scaleOutRequired);
    }

    // The local slice with the first entry carrying this id replaced.
    method Patch(cur: seq<Instance>, id: string, placed: Instance, ghost at: nat) returns (next: seq<Instance>)
      requires DistinctIds(cur) && at < |cur| && cur[at].id == id
      ensures next == cur[at := placed]
    {
      for j := 0 to |cur|
        invariant forall k | 0 <= k < j :: cur[k].id != id
      {
        if cur[j].id == id {
          return cur[j := placed];
        }
      }
      return cur;
    }

    // ----- scale-out -----

    // Every check of the workflow passed in order, and the bootstrap then returned nil with
    // both names in the seed's member list.
    ghost predicate Certified(c: Cluster, nodeName: string, log: seq<Bootstrap.Event'>)
      requires bootstrap != null
      reads bootstrap, bootstrap.bootstrapper.seed, bootstrap.bootstrapper.joiner
    {
      && bootstrap.log == log + Bootstrap.ChecksPassed(|bootstrap.checks|) + [Bootstrap.Formed]
      && bootstrap.bootstrapper.seed.clustered && bootstrap.bootstrapper.joiner.clustered
      && Setting(c.body.scaling, "seed_node_name") in bootstrap.bootstrapper.seed.nodes
      && nodeName in bootstrap.bootstrapper.seed.nodes
    }

    // No endpoint fails a call, no setting is missing, and the seed has a certificate and lists
    // both members.
    ghost predicate CanBootstrap(c: Cluster, nodeName: string)
      reads if bootstrap == null then {} else {bootstrap.bootstrapper.seed}
    {
      && bootstrap != null && BootstrapGiven(c) && nodeName != ""
      && (forall k | k in bootstrap.checks :: k.client.reliable)
      && bootstrap.bootstrapper.seed.reliable && bootstrap.bootstrapper.joiner.reliable
      && bootstrap.bootstrapper.seed.certificate != ""
      && (forall name | Says(c.body.scaling, "seed_node_name", name) :: name in bootstrap.bootstrapper.seed.nodes)
      && nodeName in bootstrap.bootstrapper.seed.nodes
    }

    lemma CanBootstrapCompletes(c: Cluster, nodeName: string)
      requires CanBootstrap(c, nodeName)
      ensures bootstrap.CanComplete(BootstrapConfigFor(c, nodeName))
    {
      MissingSettingsSurface(c, nodeName);
      assert "seed_node_name" in SCALING_KEYS;
    }

    // No server of the cluster is in flight, as far as a node repository can tell.
    ghost predicate Clear(c: string, rows: Rows<NodeBody>) {
      nodeRepo != null ==> forall id :: !IsProvisioning(rows, c, id)
    }

    // A scale-out never starts while a server of the cluster is in flight, asks for at most
    // one server, and records it only after asking. The new row is online only after a
    // workflow certified it. `suffix` is the random part of the name, None a failure to make
    // one; `serverId` is what the provider answered, `server` what was put on record.
    method ExecuteScaleOut(c: Cluster, suffix: Option<string>)
      returns (ghost serverId: Option<string>, ghost server: Option<Server>)
      requires Valid() && provider != null
      modifies provider, nodes
      modifies if bootstrap == null then {} else {bootstrap, bootstrap.bootstrapper.seed, bootstrap.bootstrapper.joiner}
      ensures Valid() && Grown(c.id, server, old(State()), State())
      ensures provider.calls == old(provider.calls) || OneRequest(c, suffix, old(provider.calls), provider.calls)
      ensures provider.calls != old(provider.calls) ==> Clear(c.id, old(nodes.rows)) && CanOrder(c, suffix)
      ensures !nodes.faulty && Clear(c.id, old(nodes.rows)) && CanOrder(c, suffix) ==>
                provider.calls != old(provider.calls)
      ensures serverId == if provider.calls != old(provider.calls) then provider.answer else None
      ensures server.Some? ==>
                && serverId.Some? && server.value.name == NodeName(c, suffix.value)
                   && server.value.serverId == serverId.value
                && FinalStatus(c, server.value.name, server.value.status, old(Log()))
      ensures serverId.Some? && nodeRepo != null && !nodes.faulty
              && !Taken(old(nodes.rows), c.id, NodeName(c, suffix.value)) ==>
                server.Some?
      // the nodes are asked for nothing before the server exists, and then for what is configured
      ensures serverId.None? ==> InitCalls() == old(InitCalls()) && JoinCalls() == old(JoinCalls())
      ensures serverId.Some? ==>
                && SeedAsked(c, old(InitCalls()), InitCalls())
                && JoinerAsked(c, NodeName(c, suffix.value), Certificate(), old(JoinCalls()), JoinCalls())
      // where nothing fails, the server that was bought is online
      ensures serverId.Some? && old(CanBootstrap(c, NodeName(c, suffix.value))) ==>
                && Certified(c, NodeName(c, suffix.value), old(Log()))
                && (server.Some? && !nodes.faulty ==> server.value.status == Online)
    {
      hide Healthy, Grown, Taken, SpecFor, Given, Orders, OneRequest, FinalStatus, CanBootstrap, SeedAsked,
          JoinerAsked, Certified;
      SoundParts(State());
      StaysGrown(c.id, State());
      if nodeRepo != null {
        var clear := NoneInFlight(c.id);
        if !clear { return None, None; }
      }
      if suffix == None { return None, None; }
      var nodeName := NodeName(c, suffix.value);
      var spec := SpecFor(c, nodeName);
      if spec.None? { return None, None; }
      var answer := provider.ProvisionServer(spec.value);
      MakesOneRequest(c, suffix.value, old(provider.calls), spec.value);
      if answer.None? { return None, None; }
      server := RecordAndBootstrap(c, nodeName, answer.value);
      return answer, server;
    }

    ghost function InitCalls(): seq<InitConfig>
      reads if bootstrap == null then {} else {bootstrap.bootstrapper.seed}
    {
      if bootstrap == null then [] else bootstrap.bootstrapper.seed.initCalls
    }

    ghost function JoinCalls(): seq<JoinConfig>
      reads if bootstrap == null then {} else {bootstrap.bootstrapper.joiner}
    {
      if bootstrap == null then [] else bootstrap.bootstrapper.joiner.joinCalls
    }

    ghost function Certificate(): string
      reads if bootstrap == null then {} else {bootstrap.bootstrapper.seed}
    {
      if bootstrap == null then "" else bootstrap.bootstrapper.seed.certificate
    }

    // Steps 4 and 5: record the server, bootstrap it and record how that ended.
    method RecordAndBootstrap(c: Cluster, nodeName: string, serverId: string) returns (ghost server: Option<Server>)
      requires Valid() && Clear(c.id, nodes.rows)
      modifies nodes
      modifies if bootstrap == null then {} else {bootstrap, bootstrap.bootstrapper.seed, bootstrap.bootstrapper.joiner}
      ensures Valid() && Grown(c.id, server, old(State()), State())
      ensures server.Some? ==>
                && server.value.name == nodeName && server.value.serverId == serverId
                && FinalStatus(c, nodeName, server.value.status, old(Log()))
      ensures nodeRepo != null && !nodes.faulty && !Taken(old(nodes.rows), c.id, nodeName) ==> server.Some?
      ensures SeedAsked(c, old(InitCalls()), InitCalls())
      ensures JoinerAsked(c, nodeName, Certificate(), old(JoinCalls()), JoinCalls())
      ensures old(CanBootstrap(c, nodeName)) ==>
                && Certified(c, nodeName, old(Log()))
                && (server.Some? && !nodes.faulty ==> server.value.status == Online)
      // a certified bootstrap has called upon exactly the nodes that were not clustered
      ensures bootstrap != null && Certified(c, nodeName, old(Log())) ==>
                && (InitCalls() != old(InitCalls()) <==> !old(bootstrap.bootstrapper.seed.clustered))
                && (JoinCalls() != old(JoinCalls()) <==> !old(bootstrap.bootstrapper.joiner.clustered))
    {
      hide Healthy, Grown, Taken, Recorded, SeedAsked, JoinerAsked, Certified, BootstrapConfigFor;
      StaysGrown(c.id, State());
      NothingAsked(c, nodeName, Certificate(), InitCalls(), JoinCalls());
      ghost var before := State();
      var record := RecordServer(c.id, nodeName, serverId);
      if bootstrap == null {
        if record.Some? { server := Some(Server(nodeName, serverId, Provisioning)); }
        else { server := None; }
        return;
      }
      ghost var recorded := nodes.rows;
      var ready := RunWorkflow(c, nodeName);
      assert nodes.rows == recorded;
      server := None;
      if record.Some? {
        server := Conclude(c.id, record.value, ready, before, Server(nodeName, serverId, Provisioning));
      }
    }

    ghost function Log(): seq<Bootstrap.Event'>
      reads if bootstrap == null then {} else {bootstrap}
    {
      if bootstrap == null then [] else bootstrap.log
    }

    // Online exactly after a certified bootstrap, failed after any other; provisioning where
    // there is no bootstrap, or where a faulty repository refused the update.
    ghost predicate FinalStatus(c: Cluster, nodeName: string, status: NodeStatus, log: seq<Bootstrap.Event'>)
      reads if bootstrap == null then {} else {bootstrap, bootstrap.bootstrapper.seed, bootstrap.bootstrapper.joiner}
    {
      if bootstrap == null then status == Provisioning
      else
        || status == (if Certified(c, nodeName, log) then Online else Failed)
        || (nodes.faulty && status == Provisioning)
    }

    // Step 5, its first half: ready exactly after a certified bootstrap.
    method RunWorkflow(c: Cluster, nodeName: string) returns (ready: bool)
      requires bootstrap != null && bootstrap.Valid()
      modifies bootstrap, bootstrap.bootstrapper.seed, bootstrap.bootstrapper.joiner
      ensures bootstrap.Valid() && (ready <==> Certified(c, nodeName, old(Log())))
      ensures SeedAsked(c, old(InitCalls()), InitCalls())
      ensures JoinerAsked(c, nodeName, Certificate(), old(JoinCalls()), JoinCalls())
      ensures old(CanBootstrap(c, nodeName)) ==> ready
      ensures ready ==>
                && (InitCalls() != old(InitCalls()) <==> !old(bootstrap.bootstrapper.seed.clustered))
                && (JoinCalls() != old(JoinCalls()) <==> !old(bootstrap.bootstrapper.joiner.clustered))
    {
      hide SeedAsked, JoinerAsked, BootstrapGiven, CanBootstrap, Bootstrap.Complete, Bootstrap.InitsSince,
          Bootstrap.JoinsSince;
      if CanBootstrap(c, nodeName) { CanBootstrapCompletes(c, nodeName); }
      var result := bootstrap.Run(nodeName, BootstrapConfigFor(c, nodeName));
      AskedForCluster(c, nodeName, Certificate(), old(InitCalls()), InitCalls(), old(JoinCalls()), JoinCalls());
      return result.ready;
    }

    // Step 4: the row of the new server, if there is a repository and it accepts one.
    method RecordServer(c: string, nodeName: string, serverId: string) returns (record: Option<Node>)
      requires Wired() && Healthy(State()) && Clear(c, nodes.rows)
      modifies nodes
      ensures Healthy(State()) && instances.rows == old(instances.rows)
      ensures if record.None? then nodes.rows == old(nodes.rows)
              else var server := Server(nodeName, serverId, Provisioning);
                   && nodeRepo != null && Recorded(c, server, old(nodes.rows), nodes.rows, record.value)
                   && Grown(c, Some(server), old(State()), State())
      ensures nodeRepo != null && !nodes.faulty && !Taken(old(nodes.rows), c, nodeName) ==> record.Some?
    {
      hide Healthy, Grown;
      SoundParts(State());
      if nodeRepo == null { return None; }
      var created := nodeRepo.Create(Row("", c, nodeName, 0, NodeBody("", serverId, 0, 0, 0, Provisioning)));
      if created.Err? { return None; }
      ghost var server := Server(nodeName, serverId, Provisioning);
      GrownBy(c, server, old(nodes.rows), nodes.rows, created.value, instances.rows);
      GrownHealthy(c, Some(server), old(State()), State());
      return Some(created.value);
    }

    // Step 5: the outcome of the bootstrap, if the repository accepts it.
    method Conclude(c: string, record: Node, ready: bool, ghost before: Fleet, ghost server: Server)
      returns (ghost concluded: Option<Server>)
      requires Wired() && nodeRepo != null && Healthy(before) && Healthy(State())
      requires before.instances == instances.rows && Clear(c, before.nodes)
      requires server.status == Provisioning && Recorded(c, server, before.nodes, nodes.rows, record)
      modifies nodes
      ensures Healthy(State()) && instances.rows == old(instances.rows) && Grown(c, concluded, before, State())
      ensures concluded.Some? && concluded.value == server.(status := concluded.value.status)
      ensures || concluded.value.status == (if ready then Online else Failed)
              || (nodes.faulty && concluded.value.status == Provisioning)
      ensures nodes.rows == before.nodes[record.id := record.(body := record.body.(status := concluded.value.status))]
    {
      hide Healthy, Grown;
      SoundParts(State());
      GrownBy(c, server, before.nodes, nodes.rows, record, instances.rows);
      var updated := record.(body := record.body.(status := if ready then Online else Failed));
      var res := nodeRepo.Update(updated);
      if res.Ok? {
        assert nodes.rows == before.nodes[updated.id := updated];
        concluded := Some(server.(status := if ready then Online else Failed));
        GrownBy(c, concluded.value, before.nodes, nodes.rows, updated, instances.rows);
        GrownHealthy(c, concluded, before, State());
      } else {
        concluded := Some(server);
      }
    }

    // The anti-duplication guard.
    method NoneInFlight(c: string) returns (clear: bool)
      requires Wired() && Sound(nodes.rows) && nodeRepo != null
      ensures clear ==> forall id :: !IsProvisioning(nodes.rows, c, id)
      ensures !nodes.faulty && !clear ==> exists id :: IsProvisioning(nodes.rows, c, id)
    {
      var listing := nodeRepo.List(c);
      if listing.Err? { return false; }
      for i := 0 to |listing.value|
        invariant forall j | 0 <= j < i :: listing.value[j].body.status != Provisioning
      {
        if listing.value[i].body.status == Provisioning {
          assert IsProvisioning(nodes.rows, c, listing.value[i].id);
          return false;
        }
      }
      assert forall id | id in nodes.rows && nodes.rows[id].owner == c :: nodes.rows[id] in listing.value;
      return true;
    }

    // ----- one pass over one cluster -----

    // A pass is the two syncs, the placement and, only when an instance could not be placed,
    // a scale-out, all under answers `e` that are the ones LXD gave. It asks for
    // at most one server, and for none while one is in flight. With repositories that do not
    // fail it leaves out none of these steps.
    method ReconcileCluster(c: Cluster, lxd: Answers, suffix: Option<string>) returns (ghost e: Env, ghost trail: Trail)
      requires Valid()
      modifies nodes, instances
      modifies if provider == null then {} else {provider}
      modifies if bootstrap == null then {} else {bootstrap, bootstrap.bootstrapper.seed, bootstrap.bootstrapper.joiner}
      ensures Valid() && FromLxd(e, lxd)
      ensures PassVia(c.id, e, old(State()), trail.synced, trail.resolved, trail.placed, State(), trail.flag)
      ensures provider != null && provider.calls != old(provider.calls) ==>
                && OneRequest(c, suffix, old(provider.calls), provider.calls)
                && trail.flag && forall id :: !IsProvisioning(trail.placed.nodes, c.id, id)
      ensures Reliable() && AllComponents() ==> UndisturbedPass(c.id, lxd, old(State()), trail)
      ensures Reliable() && provider != null ==>
                (provider.calls != old(provider.calls)
                 <==> trail.flag && Clear(c.id, trail.placed.nodes) && CanOrder(c, suffix))
      // a server that was delivered is recorded, and online where its bootstrap cannot fail
      ensures Reliable() && nodeRepo != null && provider != null && provider.calls != old(provider.calls)
              && provider.answer.Some? && !Taken(trail.placed.nodes, c.id, NodeName(c, suffix.value)) ==>
                && e.server.Some? && e.server.value.name == NodeName(c, suffix.value)
                && e.server.value.serverId == provider.answer.value
                && (old(CanBootstrap(c, NodeName(c, suffix.value))) ==> e.server.value.status == Online)
    {
      hide Healthy, Grown, NodesSynced, InstancesSynced, Scheduled, IsProvisioning, OneRequest, NodesFollow,
          InstancesFollow, Clear, SpecGiven, CanBootstrap, Taken;
      ghost var s := State();
      ghost var s1, place;
      e, s1, place := SyncInventory(c, lxd);
      ghost var s2 := State();
      var scaleOutRequired, lost := ScheduleCluster(c);
      ghost var s3 := State();
      ghost var server: Option<Server> := None;
      StaysGrown(c.id, s3);
      if scaleOutRequired && provider != null {
        ghost var serverId;
        serverId, server := ExecuteScaleOut(c, suffix);
        if provider.calls != old(provider.calls) { ClearMeans(c.id, s3.nodes); }
      }
      e := e.(lost := lost, server := server);
      trail := Trail(s1, place, s2, s3, scaleOutRequired);
    }

    lemma ClearMeans(c: string, rows: Rows<NodeBody>)
      requires nodeRepo != null && Clear(c, rows)
      ensures forall id :: !IsProvisioning(rows, c, id)
    {
    }

    ghost predicate Reliable() {
      !nodes.faulty && !instances.faulty
    }

    // Failures of either sync are logged and ignored.
    method SyncInventory(c: Cluster, lxd: Answers)
      returns (ghost e: Env, ghost s1: Fleet, ghost place: map<string, string>)
      requires Wired() && Healthy(State())
      modifies nodes, instances
      ensures Healthy(State()) && FromLxd(e, lxd)
      ensures NodesSynced(c.id, e.nodes, old(State()), s1)
      ensures InstancesSynced(c.id, e.instances, s1, State())
      ensures Reliable() && nodeSyncer != null ==> NodesFollow(c.id, lxd, old(State()), s1)
      ensures Reliable() && instanceSyncer != null ==> InstancesFollow(c.id, lxd, place, s1, State())
    {
      hide Healthy, Reached, Acceptable, Completed;
      ghost var s := State();
      e, place := Env(None, None, None, None), map[];
      SoundParts(s);
      if nodeSyncer != null {
        var ok, reach := nodeSyncer.Sync(c.id, lxd.members, lxd.resources);
        if lxd.members.Some? { e := e.(nodes := Some(Sync(Fetched(lxd.members.value, lxd.resources), reach))); }
      }
      s1 := State();
      NodesSyncedHealthy(c.id, e.nodes, s, s1);
      SoundParts(s1);
      if instanceSyncer != null {
        var ok, resolved, reach := instanceSyncer.Sync(c.id, lxd.instances);
        place := resolved;
        if lxd.instances.Some? {
          e := e.(instances := Some(Sync(lxd.instances.value, reach)));
          assert InstancesReached(c.id, place, e.instances.value, s1, State());
        }
      }
      InstancesSyncedHealthy(c.id, e.instances, s1, State());
    }

    // ----- one pass over all clusters -----

    // `lxd` holds the answers of the endpoints that can be reached, `suffixes` the random part of
    // a new server's name where one can be made. The clusters are walked in the arbitrary order
    // the repository lists them; each gets one pass under its own answers, from the state the one
    // before has left, and at most one new server.
    method Reconcile(lxd: map<string, Answers>, suffixes: map<string, string>)
      returns (ghost walked: seq<Cluster>, ghost envs: Answered, ghost states: seq<Fleet>, ghost trails: seq<Trail>)
      requires Valid()
      requires clusterRepo != null ==>
                   Sound(clusterRepo.rows) && forall id | id in clusterRepo.rows :: clusterRepo.rows[id].owner == ""
      modifies nodes, instances
      modifies if provider == null then {} else {provider}
      modifies if bootstrap == null then {} else {bootstrap, bootstrap.bootstrapper.seed, bootstrap.bootstrapper.joiner}
      ensures Valid() && DistinctIds(walked) && PassedAll(Ids(walked), envs, old(State()), State())
      ensures clusterRepo == null ==> walked == []
      ensures clusterRepo != null ==>
                forall c | c in walked :: c.id in clusterRepo.rows && clusterRepo.rows[c.id] == c
      ensures clusterRepo != null && !clusterRepo.faulty ==>
                forall id | id in clusterRepo.rows :: clusterRepo.rows[id] in walked
      ensures Walk(walked, lxd, envs, states, trails) && states[0] == old(State()) && states[|walked|] == State()
      ensures Reliable() && AllComponents() ==> Undisturbed(walked, lxd, states, trails)
      ensures provider != null ==>
                && AtMostOneEach(old(provider.calls), provider.calls, Ids(walked))
                && Asked(walked, suffixes, old(provider.calls), provider.calls)
      ensures provider != null && Reliable() ==>
                AskedExactly(walked, suffixes, trails, old(provider.calls), provider.calls)
    {
      hide Healthy, PassedAll, Requests, AtMostOneEach, Sound, Ids, Walk, Undisturbed, Asked, AskedExactly;
      walked, envs, states, trails := [], map[], [State()], [];
      StartAll(envs, State());
      StartWalk(lxd, State());
      if provider != null { NoRequests(suffixes, provider.calls); NoneExactly(suffixes, provider.calls); }
      if clusterRepo == null { return; }
      var listing := clusterRepo.List("");
      if listing.Err? { return; }
      EveryClusterOnce(clusterRepo.rows, listing.value);
      walked := listing.value;
      envs, states, trails := ReconcileEach(listing.value, lxd, suffixes);
    }

    method ReconcileEach(clusters: seq<Cluster>, lxd: map<string, Answers>, suffixes: map<string, string>)
      returns (ghost envs: Answered, ghost states: seq<Fleet>, ghost trails: seq<Trail>)
      requires Valid() && DistinctIds(clusters)
      modifies nodes, instances
      modifies if provider == null then {} else {provider}
      modifies if bootstrap == null then {} else {bootstrap, bootstrap.bootstrapper.seed, bootstrap.bootstrapper.joiner}
      ensures Valid() && PassedAll(Ids(clusters), envs, old(State()), State())
      ensures Walk(clusters, lxd, envs, states, trails) && states[0] == old(State()) && states[|clusters|] == State()
      ensures Reliable() && AllComponents() ==> Undisturbed(clusters, lxd, states, trails)
      ensures provider != null ==>
                && AtMostOneEach(old(provider.calls), provider.calls, Ids(clusters))
                && Asked(clusters, suffixes, old(provider.calls), provider.calls)
      ensures provider != null && Reliable() ==>
                AskedExactly(clusters, suffixes, trails, old(provider.calls), provider.calls)
    {
      hide Healthy, PassVia, PassedAll, Requests, OneRequest, AtMostOneEach, FromLxd, UndisturbedPass, Walk,
          Undisturbed, Asked, AskedExactly, Clear, SpecGiven, CanBootstrap, Certified;
      ghost var s := State();
      envs, states, trails := map[], [s], [];
      StartAll(envs, s);
      StartWalk(lxd, s);
      if provider != null { NoRequests(suffixes, provider.calls); NoneExactly(suffixes, provider.calls); }
      assert Ids(clusters[..0]) == [];
      for i := 0 to |clusters|
        invariant Valid() && PassedAll(Ids(clusters[..i]), envs, s, State())
        invariant |states| == i + 1 && |trails| == i && states[0] == s && states[i] == State()
        invariant Walk(clusters[..i], lxd, envs, states, trails)
        invariant Reliable() && AllComponents() ==> Undisturbed(clusters[..i], lxd, states, trails)
        invariant provider != null ==>
                      && AtMostOneEach(old(provider.calls), provider.calls, Ids(clusters[..i]))
                      && Asked(clusters[..i], suffixes, old(provider.calls), provider.calls)
        invariant provider != null && Reliable() ==>
                      AskedExactly(clusters[..i], suffixes, trails, old(provider.calls), provider.calls)
      {
        var c := clusters[i];
        ghost var m := State();
        ghost var calls := if provider == null then [] else provider.calls;
        ghost var done, known := clusters[..i], envs;
        ghost var e, trail := ReconcileCluster(c, AnswersOf(lxd, c.id), SuffixOf(suffixes, c.id));
        assert Ids(clusters[..i + 1]) == Ids(done) + [c.id];
        assert clusters[..i + 1] == done + [c] && c.id !in Ids(done);
        assert Passed(c.id, e, m, State());
        OnePassMore(Ids(done), c.id, known, e, s, m, State());
        envs := envs[c.id := e];
        OneStepMore(done, c, lxd, known, e, states, trails, trail, State());
        if Reliable() && AllComponents() { OneUndisturbedMore(done, c, lxd, states, trails, trail, State()); }
        if provider != null {
          RequestsSoFar(old(provider.calls), calls, provider.calls, Ids(done), c, SuffixOf(suffixes, c.id));
          OneAskedMore(done, c, suffixes, old(provider.calls), calls, provider.calls);
          if Reliable() {
            OneExactMore(done, c, suffixes, trails, trail, old(provider.calls), calls, provider.calls);
          }
        }
        states, trails := states + [State()], trails + [trail];
      }
      assert clusters[..|clusters|] == clusters;
    }

    ghost predicate AllComponents() {
      nodeSyncer != null && instanceSyncer != null && hasScheduler && nodeRepo != null && instanceRepo != null
    }

    // How many servers were asked for a cluster: one exactly when its pass has left an instance
    // without a place, no server of it was in flight then, and its settings are complete.
    ghost predicate AskedExactly(clusters: seq<Cluster>, suffixes: map<string, string>, trails: seq<Trail>,
                                 start: seq<ServerSpec>, calls: seq<ServerSpec>)
    {
      |trails| == |clusters| && forall i | 0 <= i < |clusters| ::
        Requests(calls, clusters[i].id) == Requests(start, clusters[i].id)
            + if Hires(clusters[i], suffixes, trails[i]) then 1 else 0
    }

    ghost predicate Hires(c: Cluster, suffixes: map<string, string>, trail: Trail) {
      trail.flag && Clear(c.id, trail.placed.nodes) && c.id in suffixes && SpecGiven(c)
    }

    lemma NoneExactly(suffixes: map<string, string>, calls: seq<ServerSpec>)
      ensures AskedExactly([], suffixes, [], calls, calls)
    {
    }

    lemma OneExactMore(done: seq<Cluster>, c: Cluster, suffixes: map<string, string>, trails: seq<Trail>, trail: Trail,
                       start: seq<ServerSpec>, calls: seq<ServerSpec>, calls': seq<ServerSpec>)
      requires c.id !in Ids(done) && AskedExactly(done, suffixes, trails, start, calls)
      requires AtMostOneEach(start, calls, Ids(done))
      requires calls' == calls || OneRequest(c, SuffixOf(suffixes, c.id), calls, calls')
      requires calls' != calls <==> Hires(c, suffixes, trail)
      ensures AskedExactly(done + [c], suffixes, trails + [trail], start, calls')
    {
      hide Requests, OneRequest, Hires;
      var all, n := done + [c], |done|;
      if calls' != calls {
        forall id ensures Requests(calls', id) == Requests(calls, id) + if id == c.id then 1 else 0 {
          CountsForCluster(c, SuffixOf(suffixes, c.id), calls, calls', id);
        }
      }
      forall i | 0 <= i <= n
        ensures Requests(calls', all[i].id) ==
                Requests(start, all[i].id) + if Hires(all[i], suffixes, (trails + [trail])[i]) then 1 else 0
      {
        if i < n { assert Ids(done)[i] == done[i].id && all[i] == done[i]; }
      }
    }
  }

  lemma EveryClusterOnce(rows: Rows<ClusterBody>, listing: seq<Cluster>)
    requires Sound(rows) && Lists(rows, "", listing) && forall id | id in rows :: rows[id].owner == ""
    ensures DistinctStrings(Ids(listing)) && forall id :: id in Ids(listing) <==> id in rows
  {
    forall id | id in rows ensures id in Ids(listing) {
      assert rows[id] in listing;
      var k :| 0 <= k < |listing| && listing[k] == rows[id];
      assert Ids(listing)[k] == id;
    }
  }

  function Ids(clusters: seq<Cluster>): seq<string> {
    seq(|clusters|, i requires 0 <= i < |clusters| => clusters[i].id)
  }

  // Every listed cluster got at most one new server, and no other cluster any.
  ghost predicate AtMostOneEach(start: seq<ServerSpec>, calls: seq<ServerSpec>, clusters: seq<string>) {
    forall id :: Requests(start, id) <= Requests(calls, id) <= Requests(start, id) + if id in clusters then 1 else 0
  }

  lemma NoRequests(suffixes: map<string, string>, calls: seq<ServerSpec>)
    ensures AtMostOneEach(calls, calls, []) && Asked([], suffixes, calls, calls)
  {
  }

  function SuffixOf(suffixes: map<string, string>, c: string): Option<string> {
    if c in suffixes then Some(suffixes[c]) else None
  }

  // Every new server is one that some cluster's settings describe.
  ghost predicate Asked(clusters: seq<Cluster>, suffixes: map<string, string>, start: seq<ServerSpec>,
                        calls: seq<ServerSpec>)
  {
    && |start| <= |calls| && calls[..|start|] == start
    && forall k | |start| <= k < |calls| :: AskedForSome(clusters, suffixes, calls[k])
  }

  ghost predicate AskedForSome(clusters: seq<Cluster>, suffixes: map<string, string>, spec: ServerSpec) {
    exists c :: c in clusters && AskedFor(c, suffixes, spec)
  }

  ghost predicate AskedFor(c: Cluster, suffixes: map<string, string>, spec: ServerSpec) {
    c.id in suffixes && Orders(c, c.name + "-scale-" + suffixes[c.id], spec)
  }

  lemma OneAskedMore(done: seq<Cluster>, c: Cluster, suffixes: map<string, string>, start: seq<ServerSpec>,
                     calls: seq<ServerSpec>, calls': seq<ServerSpec>)
    requires Asked(done, suffixes, start, calls)
    requires calls' == calls || OneRequest(c, SuffixOf(suffixes, c.id), calls, calls')
    ensures Asked(done + [c], suffixes, start, calls')
  {
    hide Orders;
    assert calls'[..|start|] == start;
    if calls' != calls {
      var spec :| calls' == calls + [spec] && Orders(c, c.name + "-scale-" + SuffixOf(suffixes, c.id).value, spec);
      assert AskedFor(c, suffixes, calls'[|calls|]);
    }
    var all := done + [c];
    forall k | |start| <= k < |calls'| ensures AskedForSome(all, suffixes, calls'[k]) {
      if k < |calls| {
        assert calls'[k] == calls[k];
        var x :| x in done && AskedFor(x, suffixes, calls[k]);
        assert x in all;
      } else {
        assert c in all;
      }
    }
  }

  // ----- the walk over the clusters -----

  // Cluster by cluster one pass, under answers that are the ones LXD gave, from the state the
  // pass before has left.
  ghost predicate Walk(clusters: seq<Cluster>, lxd: map<string, Answers>, envs: Answered, states: seq<Fleet>,
                       trails: seq<Trail>)
  {
    && |trails| == |clusters| && |states| == |clusters| + 1
    && forall i | 0 <= i < |clusters| ::
         PassTaken(clusters[i].id, AnswersOf(lxd, clusters[i].id), EnvOf(envs, clusters[i].id), states[i], trails[i],
                   states[i + 1])
  }

  ghost predicate PassTaken(c: string, lxd: Answers, e: Env, s: Fleet, trail: Trail, s': Fleet) {
    FromLxd(e, lxd) && PassVia(c, e, s, trail.synced, trail.resolved, trail.placed, s', trail.flag)
  }

  // None of these passes leaves out a step.
  ghost predicate Undisturbed(clusters: seq<Cluster>, lxd: map<string, Answers>, states: seq<Fleet>,
                              trails: seq<Trail>)
  {
    && |trails| == |clusters| && |states| == |clusters| + 1
    && forall i | 0 <= i < |clusters| ::
         UndisturbedPass(clusters[i].id, AnswersOf(lxd, clusters[i].id), states[i], trails[i])
  }

  lemma StartWalk(lxd: map<string, Answers>, s: Fleet)
    ensures Walk([], lxd, map[], [s], []) && Undisturbed([], lxd, [s], []) && Ids([]) == []
  {
  }

  lemma OneStepMore(done: seq<Cluster>, c: Cluster, lxd: map<string, Answers>, envs: Answered, e: Env,
                    states: seq<Fleet>, trails: seq<Trail>, trail: Trail, s': Fleet)
    requires c.id !in Ids(done) && Walk(done, lxd, envs, states, trails)
    requires PassTaken(c.id, AnswersOf(lxd, c.id), e, states[|done|], trail, s')
    ensures Walk(done + [c], lxd, envs[c.id := e], states + [s'], trails + [trail])
  {
    hide PassTaken;
    var all, envs' := done + [c], envs[c.id := e];
    forall i | 0 <= i <= |done|
      ensures PassTaken(all[i].id, AnswersOf(lxd, all[i].id), EnvOf(envs', all[i].id), (states + [s'])[i],
                        (trails + [trail])[i], (states + [s'])[i + 1])
    {
      if i < |done| { assert Ids(done)[i] == done[i].id && all[i] == done[i]; }
    }
  }

  lemma OneUndisturbedMore(done: seq<Cluster>, c: Cluster, lxd: map<string, Answers>, states: seq<Fleet>,
                           trails: seq<Trail>, trail: Trail, s': Fleet)
    requires Undisturbed(done, lxd, states, trails)
    requires UndisturbedPass(c.id, AnswersOf(lxd, c.id), states[|done|], trail)
    ensures Undisturbed(done + [c], lxd, states + [s'], trails + [trail])
  {
    hide UndisturbedPass;
  }

  ghost predicate DistinctStrings(s: seq<string>) {
    forall i, j | 0 <= i < j < |s| :: s[i] != s[j]
  }

  // The states between the steps of a pass, and what the placement answered.
  datatype Trail = Trail(synced: Fleet, place: map<string, string>, resolved: Fleet, placed: Fleet, flag: bool)

  // A node sync is completed exactly when its report is acceptable; the instances are not
  // touched.
  ghost predicate NodesFollow(c: string, lxd: Answers, s: Fleet, s': Fleet) {
    && s'.instances == s.instances
    && (lxd.members.None? ==> s'.nodes == s.nodes)
    && (lxd.members.Some? ==>
          var report := Fetched(lxd.members.value, lxd.resources);
          if Acceptable(NodeRule(), s.nodes, c, report) then Completed(NodeRule(), c, s.nodes, report, s'.nodes)
          else Interrupted(NodeRule(), c, s.nodes, report, s'.nodes))
  }

  ghost predicate InstancesFollow(c: string, lxd: Answers, place: map<string, string>, s: Fleet, s': Fleet) {
    && s'.nodes == s.nodes && Resolves(s.nodes, c, place)
    && (lxd.instances.None? ==> s'.instances == s.instances)
    && (lxd.instances.Some? ==>
          if Acceptable(InstanceRule(place), s.instances, c, lxd.instances.value)
          then Completed(InstanceRule(place), c, s.instances, lxd.instances.value, s'.instances)
          else Interrupted(InstanceRule(place), c, s.instances, lxd.instances.value, s'.instances))
  }

  // Both syncs follow what LXD answered, and then every instance has had its turn.
  ghost predicate UndisturbedPass(c: string, lxd: Answers, s: Fleet, trail: Trail) {
    && NodesFollow(c, lxd, s, trail.synced)
    && InstancesFollow(c, lxd, trail.place, trail.synced, trail.resolved)
    && trail.placed.nodes == trail.resolved.nodes
    && Scheduled(trail.resolved.nodes, trail.resolved.instances, c, {}, trail.placed.instances, trail.flag)
  }

  // `record` is the one new row, and the row of this server.
  ghost predicate Recorded(c: string, server: Server, before: Rows<NodeBody>, after: Rows<NodeBody>, record: Node) {
    && record.id != "" && record.id !in before && after == before[record.id := record] && !Taken(before, c, server.name)
    && record == Row(record.id, c, server.name, record.createdAt, NodeBody("", server.serverId, 0, 0, 0, server.status))
  }

  lemma MakesOneRequest(c: Cluster, suffix: string, calls: seq<ServerSpec>, spec: ServerSpec)
    requires Orders(c, NodeName(c, suffix), spec)
    ensures OneRequest(c, Some(suffix), calls, calls + [spec])
  {
  }

  // A name for the server can be made, and the cluster says which server it wants.
  predicate CanOrder(c: Cluster, suffix: Option<string>) {
    suffix.Some? && SpecGiven(c)
  }

  // One more server was asked for: the one the cluster's settings describe, under this name.
  ghost predicate OneRequest(c: Cluster, suffix: Option<string>, calls: seq<ServerSpec>, calls': seq<ServerSpec>) {
    suffix.Some? && exists spec :: calls' == calls + [spec] && Orders(c, c.name + "-scale-" + suffix.value, spec)
  }

  // If each cluster so far has at most one new request, it stays so after one more pass.
  lemma RequestsSoFar(start: seq<ServerSpec>, calls: seq<ServerSpec>, calls': seq<ServerSpec>, done: seq<string>,
                      c: Cluster, suffix: Option<string>)
    requires c.id !in done
    requires AtMostOneEach(start, calls, done)
    requires calls' == calls || OneRequest(c, suffix, calls, calls')
    ensures AtMostOneEach(start, calls', done + [c.id])
  {
    if calls' != calls {
      forall id ensures Requests(calls', id) <= Requests(start, id) + if id in done + [c.id] then 1 else 0 {
        CountsForCluster(c, suffix, calls, calls', id);
      }
    }
  }

  lemma CountsForCluster(c: Cluster, suffix: Option<string>, calls: seq<ServerSpec>, calls': seq<ServerSpec>,
                         id: string)
    requires OneRequest(c, suffix, calls, calls')
    ensures Requests(calls', id) == Requests(calls, id) + if id == c.id then 1 else 0
  {
    var spec :| calls' == calls + [spec] && Orders(c, c.name + "-scale-" + suffix.value, spec);
    OneMoreRequest(calls, spec, id);
  }

  lemma StartAll(envs: Answered, s: Fleet)
    ensures PassedAll([], envs, s, s)
  {
  }

  lemma OnePassMore(done: seq<string>, c: string, envs: Answered, e: Env, s: Fleet, m: Fleet, s': Fleet)
    requires c !in done && PassedAll(done, envs, s, m) && Passed(c, e, m, s')
    ensures PassedAll(done + [c], envs[c := e], s, s')
  {
    hide Passed;
    SameAnswers(done, envs, envs[c := e], s, m);
    assert (done + [c])[..|done|] == done;
    assert PassedThen(done, c, envs[c := e], s, s');
  }

  // Only the answers of the listed clusters matter.
  lemma {:induction false} SameAnswers(clusters: seq<string>, envs: Answered, envs': Answered, s: Fleet, s': Fleet)
    requires forall c | c in clusters :: EnvOf(envs, c) == EnvOf(envs', c)
    requires PassedAll(clusters, envs, s, s')
    ensures PassedAll(clusters, envs', s, s')
  {
    hide Passed, EnvOf;
    if clusters != [] {
      var n := |clusters| - 1;
      var m :| PassedAll(clusters[..n], envs, s, m) && Passed(clusters[n], EnvOf(envs, clusters[n]), m, s');
      SameAnswers(clusters[..n], envs, envs', s, m);
      assert PassedThen(clusters[..n], clusters[n], envs', s, s');
    }
  }

  lemma StaysGrown(c: string, s: Fleet)
    ensures Grown(c, None, s, s)
  {
  }

  lemma GrownBy(c: string, server: Server, before: Rows<NodeBody>, after: Rows<NodeBody>, r: Node,
                instances: Rows<InstanceBody>)
    requires Recorded(c, server, before, after, r) && forall id :: !IsProvisioning(before, c, id)
    ensures Grown(c, Some(server), Fleet(before, instances), Fleet(after, instances))
  {
    assert after[r.id] == r;
  }
}
