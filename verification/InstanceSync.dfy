// The instance inventory syncer.
module InstanceSync {
  import opened Model
  import opened Memory
  import opened Lxd
  import opened Reconcile
  import opened Views
  import opened NodeSync

  function MapInstanceStatus(lxd: string): InstanceStatus {
    if lxd == "Running" then Running
    else if lxd == "Stopped" then Stopped
    else if lxd == "Frozen" then Frozen
    else Unknown
  }

  // The node an instance is placed on: the stored node answering to its location, if any.
  function Locate(place: map<string, string>, location: string): string {
    if location in place then place[location] else ""
  }

  function Found(place: map<string, string>, i: InstanceInfo): InstanceBody {
    InstanceBody(Locate(place, i.location), i.kind, MapInstanceStatus(i.status), 0, 0, 0, i.config)
  }

  function Followed(place: map<string, string>, b: InstanceBody, i: InstanceInfo): InstanceBody {
    b.(status := MapInstanceStatus(i.status), nodeId := Locate(place, i.location), config := i.config)
  }

  function Vanished(b: InstanceBody): InstanceBody {
    b.(status := Unknown, nodeId := "")
  }

  function InstanceRule(place: map<string, string>): Rule<InstanceBody, InstanceInfo> {
    Rule(
      (r: Instance) => r.name,
      (i: InstanceInfo) => i.name,
      (i: InstanceInfo) => Found(place, i),
      (b: InstanceBody, i: InstanceInfo) => Followed(place, b, i),
      (b: InstanceBody) => Vanished(b))
  }

  lemma InstanceRuleLawful(place: map<string, string>)
    ensures Lawful(InstanceRule(place))
  {
  }

  // Names are unique among the instances of a cluster, so no two answer to one report.
  lemma InstanceKeysDistinct(place: map<string, string>, rows: Rows<InstanceBody>, cluster: string)
    requires Sound(rows)
    ensures KeysDistinct(InstanceRule(place), rows, cluster)
  {
  }

  // `place` translates the member names of the cluster's nodes into their ids.
  ghost predicate Resolves(nodes: Rows<NodeBody>, cluster: string, place: map<string, string>) {
    && (forall m | m in place ::
          place[m] in nodes && nodes[place[m]].owner == cluster && nodes[place[m]].body.member == m)
    && (forall id | id in nodes && nodes[id].owner == cluster :: nodes[id].body.member in place)
  }

  // With distinct member names there is only one way to resolve a placement.
  lemma PlaceUnique(nodes: Rows<NodeBody>, cluster: string, p: map<string, string>, q: map<string, string>)
    requires KeysDistinct(NodeRule(), nodes, cluster) && Resolves(nodes, cluster, p) && Resolves(nodes, cluster, q)
    ensures p == q
  {
    forall m | m in p ensures m in q && q[m] == p[m] {
      assert NodeRule().key(nodes[p[m]]) == m;
      assert nodes[p[m]].body.member in q;
      assert NodeRule().key(nodes[q[m]]) == m;
    }
    forall m | m in q ensures m in p {
      assert nodes[q[m]].body.member in p;
    }
  }

  class InstanceSyncer {
    const instances: Store<InstanceBody>
    const nodes: Store<NodeBody>

    constructor (instances: Store<InstanceBody>, nodes: Store<NodeBody>)
      ensures this.instances == instances && this.nodes == nodes
    {
      this.instances := instances;
      this.nodes := nodes;
    }

    // `infos` is what ListInstances answers, None an error.
    method Sync(cluster: string, infos: Option<seq<InstanceInfo>>) 
      returns (ok: bool, ghost place: map<string, string>, ghost reach: Reach)
      requires Sound(instances.rows) && Sound(nodes.rows)
      modifies instances
      ensures Sound(instances.rows) && nodes.rows == old(nodes.rows)
      ensures Resolves(nodes.rows, cluster, place)
      ensures infos.None? ==> !ok && instances.rows == old(instances.rows)
      ensures infos.Some? ==>
                  Reached(InstanceRule(place), cluster, old(instances.rows), infos.value, reach, instances.rows)
      ensures infos.Some? && !ok ==> reach.marked == {}
      ensures infos.Some? && !instances.faulty && !nodes.faulty ==>
                (ok <==> Acceptable(InstanceRule(place), old(instances.rows), cluster, infos.value))
      ensures infos.Some? && !instances.faulty && !nodes.faulty && ok ==>
                Completed(InstanceRule(place), cluster, old(instances.rows), infos.value, instances.rows)
      // the cluster's instances are now what LXD answered
      ensures infos.Some? && !instances.faulty && !nodes.faulty && ReportedOnce(infos.value) ==>
                ok && SyncedInstances(old(instances.rows), nodes.rows, cluster, infos.value, instances.rows)
    {
      place := SomePlace(nodes.rows, cluster);
      if infos.None? { return false, place, Reach(0, {}); }
      NothingAttempted(InstanceRule(place), instances.rows, cluster, infos.value);
      var listing := nodes.List(cluster);
      if listing.Err? { return false, place, Reach(0, {}); }
      hide Resolves, Reached, Completed, Acceptable, Sound, Lists, InstanceRule, SyncedInstances, ReportedOnce,
          DistinctNames;
      var nodeIdByMember := IndexMembers(listing.value, cluster, nodes.rows);
      place := nodeIdByMember;
      ghost var known := nodes.rows;
      ok, reach := FollowReports(instances, cluster, infos.value, InstanceRule(nodeIdByMember));
      assert nodes.rows == known;
      if ReportedOnce(infos.value) && !instances.faulty {
        OnceIsDistinct(place, infos.value);
        InstancesAcceptable(place, old(instances.rows), cluster, infos.value);
        if ok {
          assert CompletedOn(InstanceRule(place), cluster, old(instances.rows), infos.value, instances.rows);
          InstanceSyncRefinesPostState(place, known, cluster, old(instances.rows), infos.value, instances.rows);
        }
      }
    }
  }

  ghost predicate ReportedOnce(infos: seq<InstanceInfo>) {
    forall i, j | 0 <= i < j < |infos| :: infos[i].name != infos[j].name
  }

  lemma OnceIsDistinct(place: map<string, string>, infos: seq<InstanceInfo>)
    requires ReportedOnce(infos)
    ensures DistinctNames(InstanceRule(place), infos)
  {
  }

  // The last node listed under a member name is the one that is kept.
  method IndexMembers(listing: seq<Node>, ghost cluster: string, ghost rows: Rows<NodeBody>)
    returns (nodeIdByMember: map<string, string>)
    requires Lists(rows, cluster, listing)
    ensures Resolves(rows, cluster, nodeIdByMember)
  {
    nodeIdByMember := map[];
    for i := 0 to |listing|
      invariant forall m | m in nodeIdByMember ::
                  nodeIdByMember[m] in rows && rows[nodeIdByMember[m]].owner == cluster
                      && rows[nodeIdByMember[m]].body.member == m
      invariant forall j | 0 <= j < i :: listing[j].body.member in nodeIdByMember
    {
      nodeIdByMember := nodeIdByMember[listing[i].body.member := listing[i].id];
    }
    assert forall id | id in rows && rows[id].owner == cluster :: rows[id] in listing;
  }

  lemma SomePlace(nodes: Rows<NodeBody>, cluster: string) returns (place: map<string, string>)
    ensures Resolves(nodes, cluster, place)
  {
    var members := set id | id in nodes && nodes[id].owner == cluster :: nodes[id].body.member;
    place := map m | m in members :: var id :| id in nodes && nodes[id].owner == cluster
        && nodes[id].body.member == m; id;
  }

  // With distinct reported names an instance sync never meets a conflict.
  lemma InstancesAcceptable(place: map<string, string>, rows: Rows<InstanceBody>, cluster: string,
                            infos: seq<InstanceInfo>)
    requires Sound(rows) && DistinctNames(InstanceRule(place), infos)
    ensures Acceptable(InstanceRule(place), rows, cluster, infos)
  {
    var rule := InstanceRule(place);
    forall i | 0 <= i < |infos| ensures AcceptableAt(rule, rows, cluster, infos, i) {
      if Taken(rows, cluster, infos[i].name) {
        var id :| id in rows && rows[id].owner == cluster && rows[id].name == infos[i].name;
        assert rule.key(rows[id]) == rule.name(infos[i]);
      }
    }
  }

  // ----- the declarative post-state, row by row -----

  // The status a record takes from LXD's text; every text but the three is unknown.
  predicate InstanceStatusIs(s: InstanceStatus, lxd: string) {
    && (s == Running <==> lxd == "Running") && (s == Stopped <==> lxd == "Stopped")
    && (s == Frozen <==> lxd == "Frozen") && s in {Running, Stopped, Frozen, Unknown}
  }

  // One row per reported instance, placed where LXD says; every other instance of the cluster
  // unknown and unplaced. Limits are never changed.
  ghost predicate SyncedInstances(before: Rows<InstanceBody>, nodes: Rows<NodeBody>, cluster: string,
                                  infos: seq<InstanceInfo>, after: Rows<InstanceBody>) {
    && Kept(cluster, before, after)
    && (forall i | i in infos :: Taken(after, cluster, i.name))
    && forall id | id in after && after[id].owner == cluster :: SyncedInstance(before, nodes, cluster, infos, after, id)
  }

  ghost predicate SyncedInstance(before: Rows<InstanceBody>, nodes: Rows<NodeBody>, cluster: string,
                                 infos: seq<InstanceInfo>, after: Rows<InstanceBody>, id: string)
    requires id in after
  {
    var now := after[id].body;
    var (cpu, mem, disk) :=
      if id in before then (before[id].body.cpu, before[id].body.mem, before[id].body.disk) else (0, 0, 0);
    && now.cpu == cpu && now.mem == mem && now.disk == disk && (id in before ==> now.kind == before[id].body.kind)
    && if i :| i in infos && i.name == after[id].name
       then
         && InstanceStatusIs(now.status, i.status) && now.config == i.config
         && OnNode(nodes, cluster, now.nodeId, i.location) && (id !in before ==> now.kind == i.kind)
       else id in before && now == before[id].body.(status := Unknown, nodeId := "")
  }

  // `id` is the cluster's node answering to `location`, or empty when there is none.
  ghost predicate OnNode(nodes: Rows<NodeBody>, cluster: string, id: string, location: string) {
    if exists n :: n in nodes && nodes[n].owner == cluster && nodes[n].body.member == location
    then id in nodes && nodes[id].owner == cluster && nodes[id].body.member == location
    else id == ""
  }

  lemma InstanceSyncRefinesPostState(place: map<string, string>, nodes: Rows<NodeBody>, cluster: string,
                                     before: Rows<InstanceBody>, snapshot: seq<InstanceInfo>, after: Rows<InstanceBody>)
    requires Sound(before) && Resolves(nodes, cluster, place) && DistinctNames(InstanceRule(place), snapshot)
    requires CompletedOn(InstanceRule(place), cluster, before, snapshot, after)
    ensures Sound(after) && SyncedInstances(before, nodes, cluster, snapshot, after)
  {
    var rule := InstanceRule(place);
    InstanceRuleLawful(place);
    InstanceKeysDistinct(place, before, cluster);
    CompletedOnMeans(rule, cluster, before, snapshot, after);
    forall i | i in snapshot ensures Taken(after, cluster, i.name) {
      assert rule.name(i) in NameSet(rule, snapshot);
      assert i.name in View(rule, after, cluster);
      var id := IdOf(rule, after, cluster, i.name);
    }
    forall id | id in after && after[id].owner == cluster
      ensures SyncedInstance(before, nodes, cluster, snapshot, after, id) {
      SyncedInstanceHolds(place, nodes, cluster, before, snapshot, after, id);
    }
  }

  lemma SyncedInstanceHolds(place: map<string, string>, nodes: Rows<NodeBody>, cluster: string,
                            before: Rows<InstanceBody>, snapshot: seq<InstanceInfo>, after: Rows<InstanceBody>,
                            id: string)
    requires Sound(before) && Sound(after) && Resolves(nodes, cluster, place)
    requires DistinctNames(InstanceRule(place), snapshot)
    requires Kept(cluster, before, after)
    requires View(InstanceRule(place), after, cluster) ==
                 Target(InstanceRule(place), View(InstanceRule(place), before, cluster), snapshot)
    requires id in after && after[id].owner == cluster
    ensures SyncedInstance(before, nodes, cluster, snapshot, after, id)
  {
    hide *;
    var n := after[id].name;
    InstanceRowAfter(place, cluster, before, snapshot, after, id);
    InstanceRowMeans(place, nodes, cluster, before, snapshot, after, id);
  }

  lemma InstanceRowMeans(place: map<string, string>, nodes: Rows<NodeBody>, cluster: string, before: Rows<InstanceBody>,
                         snapshot: seq<InstanceInfo>, after: Rows<InstanceBody>, id: string)
    requires Resolves(nodes, cluster, place) && DistinctNames(InstanceRule(place), snapshot) && id in after
    requires match Report(InstanceRule(place), snapshot, after[id].name)
             case None => id in before && after[id].body == Vanished(before[id].body)
             case Some(i) =>
               after[id].body == if id in before then Followed(place, before[id].body, i) else Found(place, i)
    ensures SyncedInstance(before, nodes, cluster, snapshot, after, id)
  {
    var n := after[id].name;
    var report := Report(InstanceRule(place), snapshot, n);
    if report.Some? {
      assert InstanceRule(place).name(report.value) == report.value.name;
      OnlyReport(place, snapshot, report.value);
      LocateMeans(nodes, cluster, place, report.value.location);
    } else {
      forall i | i in snapshot ensures i.name != n {
        assert InstanceRule(place).name(i) == i.name;
      }
    }
    hide Report, DistinctNames, Locate, OnNode, Resolves, InstanceRule;
  }

  lemma InstanceRowAfter(place: map<string, string>, cluster: string, before: Rows<InstanceBody>,
                         snapshot: seq<InstanceInfo>, after: Rows<InstanceBody>, id: string)
    requires Sound(before) && Sound(after) && Kept(cluster, before, after)
    requires View(InstanceRule(place), after, cluster) ==
                 Target(InstanceRule(place), View(InstanceRule(place), before, cluster), snapshot)
    requires id in after && after[id].owner == cluster
    ensures match Report(InstanceRule(place), snapshot, after[id].name)
            case None => id in before && after[id].body == Vanished(before[id].body)
            case Some(i) =>
              after[id].body == if id in before then Followed(place, before[id].body, i) else Found(place, i)
  {
    var rule := InstanceRule(place);
    var n := after[id].name;
    assert n in Keys(rule, after, cluster) && IdOf(rule, after, cluster, n) == id;
    assert n in View(rule, after, cluster);
    var view := View(rule, before, cluster);
    InstanceTargetBody(place, view, snapshot, n);
    if id in before {
      assert n in Keys(rule, before, cluster) && IdOf(rule, before, cluster, n) == id;
    }
    if n in Keys(rule, before, cluster) {
      var o := IdOf(rule, before, cluster, n);
      assert after[o].name == n && o == id;
    }
    assert n in view <==> id in before;
    assert id in before ==> view[n] == before[id].body;
    assert after[id].body == Target(rule, view, snapshot)[n];
    hide Target, Report, View, Keys, IdOf, Sound, Kept, InstanceRule, Found, Followed, Vanished;
  }

  lemma OnlyReport(place: map<string, string>, snapshot: seq<InstanceInfo>, i: InstanceInfo)
    requires DistinctNames(InstanceRule(place), snapshot) && i in snapshot
    ensures Report(InstanceRule(place), snapshot, i.name) == Some(i)
    ensures forall j | j in snapshot && j.name == i.name :: j == i
  {
    var rule := InstanceRule(place);
    assert rule.name(i) == i.name;
    forall j | j in snapshot && j.name == i.name ensures j == i {
      assert rule.name(j) == rule.name(i);
    }
  }

  lemma LocateMeans(nodes: Rows<NodeBody>, cluster: string, place: map<string, string>, location: string)
    requires Resolves(nodes, cluster, place)
    ensures OnNode(nodes, cluster, Locate(place, location), location)
  {
  }

  lemma InstanceTargetBody(place: map<string, string>, view: map<string, InstanceBody>, items: seq<InstanceInfo>,
                           n: string)
    requires n in Target(InstanceRule(place), view, items)
    ensures var b, i := Target(InstanceRule(place), view, items)[n], Report(InstanceRule(place), items, n);
            && (i.None? ==> n in view && b == Vanished(view[n]))
            && (i.Some? && n in view ==> b == Followed(place, view[n], i.value))
            && (i.Some? && n !in view ==> b == Found(place, i.value))
  {
    hide Vanished, Followed, Found;
    assert n in NameSet(InstanceRule(place), items) <==> Report(InstanceRule(place), items, n).Some?;
  }

  // ----- referential integrity -----

  ghost predicate RefersToNodes(nodes: Rows<NodeBody>, instances: Rows<InstanceBody>) {
    forall id | id in instances :: NodeOf(nodes, instances[id])
  }

  ghost predicate NodeOf(nodes: Rows<NodeBody>, i: Instance) {
    i.body.nodeId == "" || (i.body.nodeId in nodes && nodes[i.body.nodeId].owner == i.owner)
  }

  // However an instance sync ends, every placement is empty or a node of the same cluster.
  lemma InstanceSyncKeepsReferences(place: map<string, string>, nodes: Rows<NodeBody>, cluster: string,
                                    before: Rows<InstanceBody>, items: seq<InstanceInfo>, after: Rows<InstanceBody>)
    requires Resolves(nodes, cluster, place) && RefersToNodes(nodes, before)
    requires Attempted(InstanceRule(place), cluster, before, items, after)
    ensures Sound(after) && Kept(cluster, before, after) && RefersToNodes(nodes, after)
  {
    var rule := InstanceRule(place);
    AttemptedKept(rule, cluster, before, items, after);
    var byKey, k, marked := AttemptOf(rule, cluster, before, items, after);
    forall id | id in after ensures NodeOf(nodes, after[id]) {
      PlacementFacts(place, nodes, cluster, before, byKey, items[..k], marked, after, id);
    }
  }

  lemma PlacementFacts(place: map<string, string>, nodes: Rows<NodeBody>, cluster: string, before: Rows<InstanceBody>,
                       byKey: map<string, Instance>, done: seq<InstanceInfo>, marked: set<string>,
                       after: Rows<InstanceBody>, id: string)
    requires Resolves(nodes, cluster, place) && id in after && (id in before ==> NodeOf(nodes, before[id]))
    requires Outcome(InstanceRule(place), cluster, before, byKey, done, marked, after)
    ensures NodeOf(nodes, after[id])
  {
    if id in before {
      assert after[id] == Expected(InstanceRule(place), cluster, byKey, done, marked, before[id]);
    } else {
      assert Added(InstanceRule(place), cluster, byKey, done, after[id]);
    }
  }
}
