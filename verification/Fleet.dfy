// The node and instance tables together, and everything a manager's pass over one cluster may
// do to them, step by step.
module Fleet {
  import opened Model
  import opened Memory
  import opened Lxd
  import opened Reconcile
  import opened Views
  import opened NodeSync
  import opened InstanceSync
  import opened Scheduler
  import opened Placement

  datatype Fleet = Fleet(nodes: Rows<NodeBody>, instances: Rows<InstanceBody>)

  // ----- what one pass over one cluster meets outside -----

  // What LXD reported to a sync, and how far the repository let it come.
  datatype Sync<+M> = Sync(items: seq<M>, reach: Reach)

  // A server the provider delivered, and what its bootstrap came to.
  datatype Server = Server(name: string, serverId: string, status: NewStatus)
  type NewStatus = s: NodeStatus | s in {Provisioning, Online, Failed} witness Provisioning

  // The answers of LXD, of the repositories, of the provider and of the bootstrap during one
  // pass. None stands for a step that was not taken or that stopped before it wrote anything.
  // `lost` holds the instances whose placement the repository refuses to record. What is left
  // open are the ids and creation times of new rows, and the order rows are listed in.
  datatype Env = Env(
    nodes: Option<Sync<MemberData>>,
    instances: Option<Sync<InstanceInfo>>,
    lost: Option<set<string>>,
    server: Option<Server>)

  // ----- the steps of a pass over cluster c -----

  ghost predicate NodesSynced(c: string, sync: Option<Sync<MemberData>>, s: Fleet, s': Fleet) {
    && s'.instances == s.instances
    && match sync
       case None => s'.nodes == s.nodes
       case Some(y) => Reached(NodeRule(), c, s.nodes, y.items, y.reach, s'.nodes)
  }

  ghost predicate InstancesSynced(c: string, sync: Option<Sync<InstanceInfo>>, s: Fleet, s': Fleet) {
    && s'.nodes == s.nodes
    && match sync
       case None => s'.instances == s.instances
       case Some(y) => exists place :: InstancesReached(c, place, y, s, s')
  }

  ghost predicate InstancesReached(c: string, place: map<string, string>, sync: Sync<InstanceInfo>, s: Fleet, s': Fleet)
  {
    Resolves(s.nodes, c, place) && Reached(InstanceRule(place), c, s.instances, sync.items, sync.reach, s'.instances)
  }

  ghost predicate Placing(c: string, lost: Option<set<string>>, s: Fleet, s': Fleet, flag: bool) {
    && s'.nodes == s.nodes
    && match lost
       case None => s'.instances == s.instances && !flag
       case Some(ids) => Scheduled(s.nodes, s.instances, c, ids, s'.instances, flag)
  }

  ghost predicate IsProvisioning(nodes: Rows<NodeBody>, c: string, id: string) {
    id in nodes && nodes[id].owner == c && nodes[id].body.status == Provisioning
  }

  // The one new row is the row of this server.
  ghost predicate ServerRecorded(c: string, server: Server, before: Rows<NodeBody>, after: Rows<NodeBody>) {
    exists id | id in after ::
      && id != "" && id !in before && after == before[id := after[id]]
      && after[id] ==
             Row(id, c, server.name, after[id].createdAt, NodeBody("", server.serverId, 0, 0, 0, server.status))
  }

  // A delivered server gets a row when none of the cluster's is in flight and its name is free.
  ghost predicate Hired(c: string, server: Option<Server>, before: Rows<NodeBody>, after: Rows<NodeBody>) {
    if server.Some? && (forall id :: !IsProvisioning(before, c, id)) && !Taken(before, c, server.value.name)
    then ServerRecorded(c, server.value, before, after)
    else after == before
  }

  ghost predicate Grown(c: string, server: Option<Server>, s: Fleet, s': Fleet) {
    s'.instances == s.instances && Hired(c, server, s.nodes, s'.nodes)
  }

  ghost predicate Step(c: string, e: Env, s: Fleet, s': Fleet) {
    || NodesSynced(c, e.nodes, s, s') || InstancesSynced(c, e.instances, s, s')
    || (exists flag :: Placing(c, e.lost, s, s', flag)) || Grown(c, e.server, s, s')
  }

  // A pass over one cluster: the two syncs, the placement, and a scale-out only if the
  // placement asked for one.
  ghost predicate PassVia(c: string, e: Env, s: Fleet, s1: Fleet, s2: Fleet, s3: Fleet, s': Fleet, flag: bool) {
    && NodesSynced(c, e.nodes, s, s1)
    && InstancesSynced(c, e.instances, s1, s2)
    && Placing(c, e.lost, s2, s3, flag)
    && if flag then Grown(c, e.server, s3, s') else s' == s3
  }

  // Everything a pass can make of a fleet under these answers.
  ghost predicate Passed(c: string, e: Env, s: Fleet, s': Fleet) {
    exists s1, s2, s3, flag :: PassVia(c, e, s, s1, s2, s3, s', flag)
  }

  // ----- what every reachable fleet satisfies -----

  ghost predicate OneProvisioning(nodes: Rows<NodeBody>) {
    forall c, a, b | IsProvisioning(nodes, c, a) && IsProvisioning(nodes, c, b) :: a == b
  }

  ghost predicate Healthy(s: Fleet) {
    && Sound(s.nodes) && Sound(s.instances)
    && RefersToNodes(s.nodes, s.instances)   // every placement is empty or a node of the same cluster
    && MembersDistinct(s.nodes)              // no two rows of a cluster answer to one LXD member
    && OneProvisioning(s.nodes)              // at most one server in flight per cluster
  }

  lemma NodesSyncedHealthy(c: string, sync: Option<Sync<MemberData>>, s: Fleet, s': Fleet)
    requires Healthy(s) && NodesSynced(c, sync, s, s')
    ensures Healthy(s') && Kept(c, s.nodes, s'.nodes)
  {
    hide Reached, Sound;
    if sync.Some? {
      AttemptInvariants(c, s.nodes, sync.value.items, s'.nodes);
      forall k, a, b | IsProvisioning(s'.nodes, k, a) && IsProvisioning(s'.nodes, k, b) ensures a == b {
        assert IsProvisioning(s.nodes, k, a) && IsProvisioning(s.nodes, k, b);
      }
      forall id | id in s'.instances ensures NodeOf(s'.nodes, s'.instances[id]) {
        assert NodeOf(s.nodes, s.instances[id]);
      }
    }
  }

  lemma InstancesSyncedHealthy(c: string, sync: Option<Sync<InstanceInfo>>, s: Fleet, s': Fleet)
    requires Healthy(s) && InstancesSynced(c, sync, s, s')
    ensures Healthy(s') && Kept(c, s.instances, s'.instances)
  {
    hide Reached, Sound;
    if sync.Some? {
      var place :| InstancesReached(c, place, sync.value, s, s');
      InstanceSyncKeepsReferences(place, s.nodes, c, s.instances, sync.value.items, s'.instances);
    }
  }

  lemma PlacingHealthy(c: string, lost: Option<set<string>>, s: Fleet, s': Fleet, flag: bool)
    requires Healthy(s) && Placing(c, lost, s, s', flag)
    ensures Healthy(s') && Kept(c, s.instances, s'.instances)
  {
    hide Best, Pass, PlacedRow;
    if lost.Some? {
      var ids := lost.value;
      var nodes, insts :| Lists(s.nodes, c, nodes) && Lists(s.instances, c, insts)
        && ScheduledFrom(nodes, insts, s.instances, c, ids, s'.instances, flag);
      forall id | id in s.instances ensures PlacedRow(c, s, s'.instances, id) {
        PlacedRowHolds(c, s, nodes, insts, ids, s'.instances, flag, id);
      }
      AllPlacedHealthy(c, s, s');
    }
  }

  lemma AllPlacedHealthy(c: string, s: Fleet, s': Fleet)
    requires Healthy(s) && s'.nodes == s.nodes && s'.instances.Keys == s.instances.Keys && Keyed(s'.instances)
    requires forall id | id in s.instances :: PlacedRow(c, s, s'.instances, id)
    ensures Healthy(s') && Kept(c, s.instances, s'.instances)
  {
    assert forall id | id in s.instances :: PlacedRow(c, s, s'.instances, id) && NodeOf(s.nodes, s.instances[id]);
  }

  // A pass leaves a row alone or places it on a node of its cluster.
  ghost predicate PlacedRow(c: string, s: Fleet, after: Rows<InstanceBody>, id: string)
    requires id in s.instances
  {
    && id in after
    && (after[id] == s.instances[id]
        || (s.instances[id].owner == c && after[id].body.nodeId in s.nodes && s.nodes[after[id].body.nodeId].owner == c
            && after[id] == Placed(s.instances[id], after[id].body.nodeId)))
  }

  lemma PlacedRowHolds(c: string, s: Fleet, nodes: seq<Node>, insts: seq<Instance>, lost: set<string>,
                       after: Rows<InstanceBody>, flag: bool, id: string)
    requires Sound(s.nodes) && Sound(s.instances) && id in s.instances
    requires Lists(s.nodes, c, nodes) && Lists(s.instances, c, insts)
    requires ScheduledFrom(nodes, insts, s.instances, c, lost, after, flag)
    ensures PlacedRow(c, s, after, id)
  {
    hide Best, Pass;
    if s.instances[id].owner == c {
      var k :| 0 <= k < |insts| && insts[k] == s.instances[id];
      RowOfSlot(nodes, insts, s.instances, c, lost, after, flag, k);
      hide ScheduledFrom;
    }
  }

  lemma GrownHealthy(c: string, server: Option<Server>, s: Fleet, s': Fleet)
    requires Healthy(s) && Grown(c, server, s, s')
    ensures Healthy(s') && Kept(c, s.nodes, s'.nodes)
  {
    if s'.nodes != s.nodes {
      var id :| id in s'.nodes && id != "" && id !in s.nodes && s'.nodes == s.nodes[id := s'.nodes[id]]
        && s'.nodes[id] == Row(id, c, server.value.name, s'.nodes[id].createdAt,
                               NodeBody("", server.value.serverId, 0, 0, 0, server.value.status));
      NewRowKeeps(c, s.nodes, s'.nodes, id);
      hide Sound, MembersDistinct, OneProvisioning, Taken;
      forall i | i in s'.instances ensures NodeOf(s'.nodes, s'.instances[i]) {
        assert NodeOf(s.nodes, s.instances[i]);
      }
    }
  }

  lemma NewRowKeeps(c: string, before: Rows<NodeBody>, after: Rows<NodeBody>, id: string)
    requires Sound(before) && MembersDistinct(before) && OneProvisioning(before)
    requires forall x :: !IsProvisioning(before, c, x)
    requires id in after && id != "" && id !in before && after == before[id := after[id]] && after[id].id == id
    requires after[id].owner == c && after[id].body.member == "" && !Taken(before, c, after[id].name)
    ensures Sound(after) && MembersDistinct(after) && OneProvisioning(after)
  {
    forall k, a, b | IsProvisioning(after, k, a) && IsProvisioning(after, k, b) ensures a == b {
      assert a == id || IsProvisioning(before, k, a);
      assert b == id || IsProvisioning(before, k, b);
    }
  }

  lemma StepHealthy(c: string, e: Env, s: Fleet, s': Fleet)
    requires Healthy(s) && Step(c, e, s, s')
    ensures Healthy(s')
    ensures Kept(c, s.nodes, s'.nodes) && Kept(c, s.instances, s'.instances)
  {
    hide Healthy, NodesSynced, InstancesSynced, Placing, Grown;
    if NodesSynced(c, e.nodes, s, s') {
      NodesSyncedHealthy(c, e.nodes, s, s');
      SameInstances(c, e, s, s');
    } else if InstancesSynced(c, e.instances, s, s') {
      InstancesSyncedHealthy(c, e.instances, s, s');
      SameNodes(c, e, s, s');
    } else if flag :| Placing(c, e.lost, s, s', flag) {
      PlacingHealthy(c, e.lost, s, s', flag);
      SameNodes(c, e, s, s');
    } else if Grown(c, e.server, s, s') {
      GrownHealthy(c, e.server, s, s');
      SameInstances(c, e, s, s');
    }
  }

  lemma SameNodes(c: string, e: Env, s: Fleet, s': Fleet)
    requires InstancesSynced(c, e.instances, s, s') || exists flag :: Placing(c, e.lost, s, s', flag)
    ensures s'.nodes == s.nodes
  {
  }

  lemma SameInstances(c: string, e: Env, s: Fleet, s': Fleet)
    requires NodesSynced(c, e.nodes, s, s') || Grown(c, e.server, s, s')
    ensures s'.instances == s.instances
  {
  }

  // After a complete node sync only a member reported online can be given an instance, and
  // only with capacity that LXD reported for it or that was known before.
  lemma OnlyReportedOnlineEligible(c: string, before: Rows<NodeBody>, items: seq<MemberData>, after: Rows<NodeBody>,
                                   id: string, insts: seq<Instance>, req: Request)
    requires Synced(before, c, items, after) && id in after && after[id].owner == c && Eligible(after[id], insts, req)
    ensures var m := Report(NodeRule(), items, after[id].name);
            && m.Some? && m.value.info.status == "Online"
            && (m.value.resources.Some? || (id in before && SameCapacity(after[id].body, before[id].body)))
  {
    hide Report, NodeRule, Headroom;
    assert SyncedRow(before, items, after, id);
  }

  // Over every run of sync, placement and scale-out steps on any clusters, however they fail,
  // placements refer to nodes of their cluster, member names stay distinct, and no cluster
  // has two servers in flight.
  lemma {:induction false} RunHealthy(clusters: seq<string>, envs: seq<Env>, states: seq<Fleet>)
    requires |states| == |clusters| + 1 && |envs| == |clusters| && Healthy(states[0])
    requires forall i | 0 <= i < |clusters| :: Step(clusters[i], envs[i], states[i], states[i + 1])
    ensures Healthy(states[|clusters|])
  {
    hide Healthy, Step;
    if clusters != [] {
      var k := |clusters| - 1;
      assert forall i | 0 <= i < k :: Step(clusters[..k][i], envs[..k][i], states[..k + 1][i], states[..k + 1][i + 1]);
      RunHealthy(clusters[..k], envs[..k], states[..k + 1]);
      assert Step(clusters[k], envs[k], states[k], states[k + 1]);
      StepHealthy(clusters[k], envs[k], states[k], states[k + 1]);
    }
  }

  lemma PassedHealthy(c: string, e: Env, s: Fleet, s': Fleet)
    requires Healthy(s) && Passed(c, e, s, s')
    ensures Healthy(s')
    ensures Kept(c, s.nodes, s'.nodes) && Kept(c, s.instances, s'.instances)
  {
    hide Healthy, NodesSynced, InstancesSynced, Placing, Grown, Kept;
    var s1, s2, s3, flag :| PassVia(c, e, s, s1, s2, s3, s', flag);
    StagesHealthy(c, e, s, s1, s2, s3, s', flag);
    KeptThrough(c, s.nodes, s1.nodes, s2.nodes);
    KeptThrough(c, s.nodes, s2.nodes, s3.nodes);
    KeptThrough(c, s.nodes, s3.nodes, s'.nodes);
    KeptThrough(c, s.instances, s1.instances, s2.instances);
    KeptThrough(c, s.instances, s2.instances, s3.instances);
    KeptThrough(c, s.instances, s3.instances, s'.instances);
  }

  // Every stage of a pass.
  lemma StagesHealthy(c: string, e: Env, s: Fleet, s1: Fleet, s2: Fleet, s3: Fleet, s': Fleet, flag: bool)
    requires Healthy(s) && PassVia(c, e, s, s1, s2, s3, s', flag)
    ensures Healthy(s1) && Healthy(s2) && Healthy(s3) && Healthy(s')
    ensures Kept(c, s.nodes, s1.nodes) && Kept(c, s.instances, s1.instances)
    ensures Kept(c, s1.nodes, s2.nodes) && Kept(c, s1.instances, s2.instances)
    ensures Kept(c, s2.nodes, s3.nodes) && Kept(c, s2.instances, s3.instances)
    ensures Kept(c, s3.nodes, s'.nodes) && Kept(c, s3.instances, s'.instances)
  {
    hide Healthy, NodesSynced, InstancesSynced, Placing, Grown, Kept;
    StepHealthy(c, e, s, s1);
    StepHealthy(c, e, s1, s2);
    StepHealthy(c, e, s2, s3);
    if flag { StepHealthy(c, e, s3, s'); } else { KeptSelf(c, s'); }
  }

  lemma KeptSelf(c: string, s: Fleet)
    ensures Kept(c, s.nodes, s.nodes) && Kept(c, s.instances, s.instances)
  {
  }

  lemma KeptThrough<P(!new)>(c: string, a: Rows<P>, b: Rows<P>, d: Rows<P>)
    requires Kept(c, a, b) && Kept(c, b, d)
    ensures Kept(c, a, d)
  {
  }
}
