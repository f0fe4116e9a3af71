// The node inventory syncer.
module NodeSync {
  import opened Model
  import opened Memory
  import opened Lxd
  import opened Reconcile
  import opened Views

  datatype MemberData = MemberData(info: NodeInfo, resources: Option<NodeResources>)

  function MapStatus(lxd: string): NodeStatus {
    if lxd == "Online" then Online
    else if lxd == "Evacuating" then Draining
    else Offline
  }

  // Go converts the unsigned totals to signed integers of the same width.
  function ApplyResources(b: NodeBody, r: Option<NodeResources>): NodeBody {
    if r.None? then b
    else b.(cpu := Wrap64(r.value.cpu), mem := Wrap64(r.value.mem), disk := Wrap64(r.value.disk))
  }

  // The record of a member seen for the first time.
  function Discovered(m: MemberData): NodeBody {
    ApplyResources(NodeBody(m.info.name, "", 0, 0, 0, MapStatus(m.info.status)), m.resources)
  }

  function Refreshed(b: NodeBody, m: MemberData): NodeBody {
    ApplyResources(b.(status := MapStatus(m.info.status)), m.resources)
  }

  function NodeRule(): Rule<NodeBody, MemberData> {
    Rule(
      (r: Node) => r.body.member,
      (m: MemberData) => m.info.name,
      (m: MemberData) => Discovered(m),
      (b: NodeBody, m: MemberData) => Refreshed(b, m),
      (b: NodeBody) => b.(status := Offline))
  }

  lemma NodeRuleLawful()
    ensures Lawful(NodeRule())
  {
  }

  // ----- the syncer -----

  // The fetch phase pairs every member with what the resource endpoint answered for it.
  function Fetched(members: seq<NodeInfo>, resources: map<string, NodeResources>): seq<MemberData> {
    seq(|members|, i requires 0 <= i < |members| =>
      MemberData(members[i], if members[i].name in resources then Some(resources[members[i].name]) else None))
  }

  class Syncer {
    const repo: Store<NodeBody>

    constructor (repo: Store<NodeBody>)
      ensures this.repo == repo
    {
      this.repo := repo;
    }

    // `members` is what GetClusterMembers answers, None an error; `resources` holds the
    // members for which GetNodeResources answers.
    method Sync(cluster: string, members: Option<seq<NodeInfo>>, resources: map<string, NodeResources>)
      returns (ok: bool, ghost reach: Reach)
      requires Sound(repo.rows)
      modifies repo
      ensures Sound(repo.rows)
      ensures members.None? ==> !ok && repo.rows == old(repo.rows)
      ensures members.Some? ==>
                  Reached(NodeRule(), cluster, old(repo.rows), Fetched(members.value, resources), reach, repo.rows)
      ensures members.Some? && !ok ==> reach.marked == {}
      ensures members.Some? && !repo.faulty ==>
                (ok <==> Acceptable(NodeRule(), old(repo.rows), cluster, Fetched(members.value, resources)))
      ensures members.Some? && !repo.faulty && ok ==>
                Completed(NodeRule(), cluster, old(repo.rows), Fetched(members.value, resources), repo.rows)
      // on rows named by their member: the cluster's rows are now what LXD answered
      ensures members.Some? && !repo.faulty && NamedByMember(old(repo.rows), cluster) && EachOnce(members.value) ==>
                ok && Mirrored(old(repo.rows), cluster, members.value, resources, repo.rows)
    {
      hide Mirrored, Completed, Acceptable, Reached, NamedByMember, EachOnce;
      if members.None? { return false, Reach(0, {}); }
      var fetched: seq<MemberData> := [];
      for i := 0 to |members.value|
        invariant fetched == Fetched(members.value, resources)[..i]
      {
        var m := members.value[i];
        var answer := if m.name in resources then Some(resources[m.name]) else None;
        fetched := fetched + [MemberData(m, answer)];
      }
      assert fetched == Fetched(members.value, resources);
      ok, reach := FollowReports(repo, cluster, fetched, NodeRule());
      if !repo.faulty && NamedByMember(old(repo.rows), cluster) && EachOnce(members.value) {
        FetchedDistinct(members.value, resources);
        NamedAcceptable(old(repo.rows), cluster, fetched);
        SyncMirrors(cluster, old(repo.rows), members.value, resources, repo.rows);
      }
    }
  }

  // ----- clusters whose rows all came from syncs -----

  ghost predicate NamedByMember(rows: Rows<NodeBody>, cluster: string) {
    forall id | id in rows && rows[id].owner == cluster :: rows[id].name == rows[id].body.member
  }

  lemma NamedMeansDistinct(rows: Rows<NodeBody>, cluster: string)
    requires Sound(rows) && NamedByMember(rows, cluster)
    ensures KeysDistinct(NodeRule(), rows, cluster)
  {
  }

  // With distinct reported names such a cluster's sync never meets a conflict.
  lemma NamedAcceptable(rows: Rows<NodeBody>, cluster: string, items: seq<MemberData>)
    requires Sound(rows) && NamedByMember(rows, cluster) && DistinctNames(NodeRule(), items)
    ensures Acceptable(NodeRule(), rows, cluster, items)
  {
    forall i | 0 <= i < |items| ensures AcceptableAt(NodeRule(), rows, cluster, items, i) {
      if Taken(rows, cluster, items[i].info.name) {
        var id :| id in rows && rows[id].owner == cluster && rows[id].name == items[i].info.name;
        assert NodeRule().key(rows[id]) == NodeRule().name(items[i]);
      }
    }
  }

  // Every attempt, even a failed one, keeps the cluster that way.
  lemma AttemptKeepsNamed(cluster: string, before: Rows<NodeBody>, items: seq<MemberData>, after: Rows<NodeBody>)
    requires NamedByMember(before, cluster) && Attempted(NodeRule(), cluster, before, items, after)
    ensures NamedByMember(after, cluster)
  {
    var byKey, k, marked := AttemptOf(NodeRule(), cluster, before, items, after);
    forall id | id in after && after[id].owner == cluster ensures after[id].name == after[id].body.member {
      RowFacts(cluster, before, byKey, items[..k], marked, after, id);
    }
  }

  // What an attempt does to one row, whatever the state it starts from.
  lemma RowFacts(cluster: string, before: Rows<NodeBody>, byKey: map<string, Node>, done: seq<MemberData>,
                 marked: set<string>, after: Rows<NodeBody>, id: string)
    requires Outcome(NodeRule(), cluster, before, byKey, done, marked, after) && id in after
    ensures id in before ==>
              && after[id].owner == before[id].owner && after[id].name == before[id].name
                 && after[id].body.member == before[id].body.member
              && (after[id].body.status == before[id].body.status
                  || after[id].body.status in {Online, Draining, Offline})
    ensures id !in before ==>
              && after[id].owner == cluster && after[id].body.member == after[id].name && after[id].name !in byKey
              && after[id].body.status in {Online, Draining, Offline}
  {
    if id in before {
      assert after[id] == Expected(NodeRule(), cluster, byKey, done, marked, before[id]);
    } else {
      assert Added(NodeRule(), cluster, byKey, done, after[id]);
    }
  }

  // ----- the declarative post-state, row by row -----

  predicate SameCapacity(a: NodeBody, b: NodeBody) {
    a.cpu == b.cpu && a.mem == b.mem && a.disk == b.disk
  }

  predicate CapacityIs(b: NodeBody, r: NodeResources) {
    b.cpu == Wrap64(r.cpu) && b.mem == Wrap64(r.mem) && b.disk == Wrap64(r.disk)
  }

  // The status a record takes from LXD's text; every text but the two is offline.
  predicate StatusIs(s: NodeStatus, lxd: string) {
    && (s == Online <==> lxd == "Online") && (s == Draining <==> lxd == "Evacuating")
    && s in {Online, Draining, Offline}
  }

  // One row per reported member, with its mapped status and its new or preserved capacity;
  // every other row of the cluster offline and otherwise as it was.
  ghost predicate Synced(before: Rows<NodeBody>, cluster: string, items: seq<MemberData>, after: Rows<NodeBody>) {
    && Kept(cluster, before, after)
    && (forall m | m in items :: Taken(after, cluster, m.info.name))
    && forall id | id in after && after[id].owner == cluster :: SyncedRow(before, items, after, id)
  }

  ghost predicate SyncedRow(before: Rows<NodeBody>, items: seq<MemberData>, after: Rows<NodeBody>, id: string)
    requires id in after
  {
    var now := after[id].body;
    match Report(NodeRule(), items, after[id].name)
    case None => id in before && now == before[id].body.(status := Offline)
    case Some(m) =>
      && StatusIs(now.status, m.info.status)
      && now.member == after[id].name
      && now.serverId == (if id in before then before[id].body.serverId else "")
      && if m.resources.Some? then CapacityIs(now, m.resources.value)
         else if id in before then SameCapacity(now, before[id].body)
         else now.cpu == 0 && now.mem == 0 && now.disk == 0
  }

  lemma SyncRefinesPostState(cluster: string, before: Rows<NodeBody>, snapshot: seq<MemberData>, after: Rows<NodeBody>)
    requires Sound(before) && NamedByMember(before, cluster) && DistinctNames(NodeRule(), snapshot)
    requires CompletedOn(NodeRule(), cluster, before, snapshot, after)
    ensures Sound(after) && NamedByMember(after, cluster) && Synced(before, cluster, snapshot, after)
  {
    NodeRuleLawful();
    NamedMeansDistinct(before, cluster);
    CompletedOnMeans(NodeRule(), cluster, before, snapshot, after);
    var order :| multiset(order) == multiset(snapshot) && Completed(NodeRule(), cluster, before, order, after);
    CompletedIsAttempted(NodeRule(), cluster, before, order, after);
    AttemptKeepsNamed(cluster, before, order, after);
    var view, goal := View(NodeRule(), before, cluster), View(NodeRule(), after, cluster);
    forall m | m in snapshot ensures Taken(after, cluster, m.info.name) {
      assert NodeRule().name(m) in NameSet(NodeRule(), snapshot);
      assert m.info.name in goal;
      var id := IdOf(NodeRule(), after, cluster, m.info.name);
    }
    forall id | id in after && after[id].owner == cluster ensures SyncedRow(before, snapshot, after, id) {
      SyncedRowHolds(cluster, before, snapshot, after, id);
    }
  }

  // ----- the same in terms of what LXD answered -----

  ghost predicate EachOnce(members: seq<NodeInfo>) {
    forall i, j | 0 <= i < j < |members| :: members[i].name != members[j].name
  }

  ghost predicate Mirrored(before: Rows<NodeBody>, cluster: string, members: seq<NodeInfo>,
                           resources: map<string, NodeResources>, after: Rows<NodeBody>) {
    && Kept(cluster, before, after)
    && (forall m | m in members :: Taken(after, cluster, m.name))
    && forall id | id in after && after[id].owner == cluster :: MirroredRow(before, members, resources, after, id)
  }

  // A row named by a member has its status, and its capacity where the resource endpoint
  // answered; any other row is offline.
  ghost predicate MirroredRow(before: Rows<NodeBody>, members: seq<NodeInfo>, resources: map<string, NodeResources>,
                              after: Rows<NodeBody>, id: string)
    requires id in after
  {
    var now, n := after[id].body, after[id].name;
    if m :| m in members && m.name == n
    then
      && StatusIs(now.status, m.status) && now.member == n
      && now.serverId == (if id in before then before[id].body.serverId else "")
      && if n in resources then CapacityIs(now, resources[n])
         else if id in before then SameCapacity(now, before[id].body)
         else now.cpu == 0 && now.mem == 0 && now.disk == 0
    else id in before && now == before[id].body.(status := Offline)
  }

  lemma FetchedDistinct(members: seq<NodeInfo>, resources: map<string, NodeResources>)
    requires EachOnce(members)
    ensures DistinctNames(NodeRule(), Fetched(members, resources))
  {
  }

  lemma FetchedReport(members: seq<NodeInfo>, resources: map<string, NodeResources>, n: string)
    requires EachOnce(members)
    ensures var report := Report(NodeRule(), Fetched(members, resources), n);
            && (report.None? ==> forall m | m in members :: m.name != n)
            && (report.Some? ==>
                  && report.value.info in members && report.value.info.name == n
                  && (forall m | m in members && m.name == n :: m == report.value.info)
                  && report.value.resources == if n in resources then Some(resources[n]) else None)
  {
    var items := Fetched(members, resources);
    var report := Report(NodeRule(), items, n);
    if report.Some? {
      assert report.value in items && NodeRule().name(report.value) == n;
      var i :| 0 <= i < |items| && items[i] == report.value;
    } else {
      assert forall x | x in items :: NodeRule().name(x) != n;
      forall m | m in members ensures m.name != n {
        FetchedHas(members, resources, m);
        var x :| x in items && x.info == m;
        assert NodeRule().name(x) == m.name;
      }
    }
  }

  lemma SyncMirrors(cluster: string, before: Rows<NodeBody>, members: seq<NodeInfo>,
                    resources: map<string, NodeResources>, after: Rows<NodeBody>)
    requires Sound(before) && NamedByMember(before, cluster) && EachOnce(members)
    requires Completed(NodeRule(), cluster, before, Fetched(members, resources), after)
    ensures Mirrored(before, cluster, members, resources, after)
  {
    hide Completed, Fetched, Report, NodeRule, Sound, NamedByMember, EachOnce, DistinctNames, Kept, CapacityIs,
        StatusIs, SameCapacity, Taken;
    var items := Fetched(members, resources);
    FetchedDistinct(members, resources);
    assert CompletedOn(NodeRule(), cluster, before, items, after);
    SyncRefinesPostState(cluster, before, items, after);
    forall m | m in members ensures Taken(after, cluster, m.name) {
      FetchedHas(members, resources, m);
    }
    forall id | id in after && after[id].owner == cluster ensures MirroredRow(before, members, resources, after, id) {
      FetchedReport(members, resources, after[id].name);
      assert SyncedRow(before, items, after, id);
    }
  }

  lemma FetchedHas(members: seq<NodeInfo>, resources: map<string, NodeResources>, m: NodeInfo)
    requires m in members
    ensures exists x :: x in Fetched(members, resources) && x.info == m
  {
    var i :| 0 <= i < |members| && members[i] == m;
    assert Fetched(members, resources)[i] in Fetched(members, resources);
  }

  lemma SyncedRowHolds(cluster: string, before: Rows<NodeBody>, snapshot: seq<MemberData>, after: Rows<NodeBody>,
                       id: string)
    requires Sound(before) && Sound(after) && NamedByMember(before, cluster) && NamedByMember(after, cluster)
    requires Kept(cluster, before, after)
    requires View(NodeRule(), after, cluster) == Target(NodeRule(), View(NodeRule(), before, cluster), snapshot)
    requires id in after && after[id].owner == cluster
    ensures SyncedRow(before, snapshot, after, id)
  {
    hide *;
    NodeRowAfter(cluster, before, snapshot, after, id);
    RowMeans(before, snapshot, after, id);
  }

  lemma RowMeans(before: Rows<NodeBody>, snapshot: seq<MemberData>, after: Rows<NodeBody>, id: string)
    requires id in after
    requires match Report(NodeRule(), snapshot, after[id].name)
             case None => id in before && after[id].body == before[id].body.(status := Offline)
             case Some(m) =>
               && after[id].body == (if id in before then Refreshed(before[id].body, m) else Discovered(m))
               && m.info.name == after[id].name && (id in before ==> before[id].body.member == after[id].name)
    ensures SyncedRow(before, snapshot, after, id)
  {
    hide Report, NodeRule, Wrap64;
  }

  lemma NodeRowAfter(cluster: string, before: Rows<NodeBody>, snapshot: seq<MemberData>, after: Rows<NodeBody>,
                     id: string)
    requires Sound(before) && Sound(after) && NamedByMember(before, cluster) && NamedByMember(after, cluster)
    requires Kept(cluster, before, after)
    requires View(NodeRule(), after, cluster) == Target(NodeRule(), View(NodeRule(), before, cluster), snapshot)
    requires id in after && after[id].owner == cluster
    ensures match Report(NodeRule(), snapshot, after[id].name)
            case None => id in before && after[id].body == before[id].body.(status := Offline)
            case Some(m) =>
              && after[id].body == (if id in before then Refreshed(before[id].body, m) else Discovered(m))
              && m.info.name == after[id].name && (id in before ==> before[id].body.member == after[id].name)
  {
    var rule := NodeRule();
    var n := after[id].name;
    assert n in Keys(rule, after, cluster) && IdOf(rule, after, cluster, n) == id;
    assert n in View(rule, after, cluster);
    var view := View(rule, before, cluster);
    TargetBody(view, snapshot, n);
    if id in before {
      assert n in Keys(rule, before, cluster) && IdOf(rule, before, cluster, n) == id;
    }
    if n in Keys(rule, before, cluster) {
      var o := IdOf(rule, before, cluster, n);
      assert after[o].name == n && o == id;
    }
    assert n in view <==> id in before;
    assert id in before ==> view[n] == before[id].body;
    assert after[id].body == Target(rule, view, snapshot)[n];
    var report := Report(rule, snapshot, n);
    assert report.Some? ==> rule.name(report.value) == report.value.info.name;
    hide Target, Report, View, Keys, IdOf, Sound, Kept, NodeRule, Refreshed, Discovered;
  }

  // ----- histories -----

  function LatestResources(snapshots: seq<seq<MemberData>>, n: string): Option<NodeResources> {
    if snapshots == [] then None else
    var m := Report(NodeRule(), snapshots[|snapshots| - 1], n);
    if m.Some? && m.value.resources.Some? then m.value.resources
    else LatestResources(snapshots[..|snapshots| - 1], n)
  }

  ghost predicate HistoricBody(view: map<string, NodeBody>, snapshots: seq<seq<MemberData>>, n: string, b: NodeBody) {
    && (snapshots != [] ==>
          var m := Report(NodeRule(), snapshots[|snapshots| - 1], n);
          if m.Some? then StatusIs(b.status, m.value.info.status) else b.status == Offline)
    && var r := LatestResources(snapshots, n);
       if r.Some? then CapacityIs(b, r.value)
       else if n in view then SameCapacity(b, view[n])
       else b.cpu == 0 && b.mem == 0 && b.disk == 0
  }

  lemma {:induction false} HistoryBody(view: map<string, NodeBody>, snapshots: seq<seq<MemberData>>, n: string)
    requires n in History(NodeRule(), view, snapshots)
    ensures HistoricBody(view, snapshots, n, History(NodeRule(), view, snapshots)[n])
  {
    if snapshots != [] {
      hide HistoricBody;
      var k := |snapshots| - 1;
      var earlier := History(NodeRule(), view, snapshots[..k]);
      if n in earlier {
        HistoryBody(view, snapshots[..k], n);
      } else {
        NeverSeen(view, snapshots[..k], n);
      }
      HistoryStep(view, snapshots, earlier, n);
    }
  }

  lemma HistoryStep(view: map<string, NodeBody>, snapshots: seq<seq<MemberData>>, earlier: map<string, NodeBody>,
                    n: string)
    requires snapshots != [] && n in Target(NodeRule(), earlier, snapshots[|snapshots| - 1])
    requires n in earlier ==> HistoricBody(view, snapshots[..|snapshots| - 1], n, earlier[n])
    requires n !in earlier ==> n !in view && LatestResources(snapshots[..|snapshots| - 1], n).None?
    ensures HistoricBody(view, snapshots, n, Target(NodeRule(), earlier, snapshots[|snapshots| - 1])[n])
  {
    var last := snapshots[|snapshots| - 1];
    TargetBody(earlier, last, n);
    hide Target, Report, NodeRule, Wrap64;
  }

  // The post-state of one name under the node rule.
  lemma TargetBody(view: map<string, NodeBody>, items: seq<MemberData>, n: string)
    requires n in Target(NodeRule(), view, items)
    ensures var b, m := Target(NodeRule(), view, items)[n], Report(NodeRule(), items, n);
            && (m.None? ==> n in view && b == view[n].(status := Offline))
            && (m.Some? && n in view ==> b == Refreshed(view[n], m.value))
            && (m.Some? && n !in view ==> b == Discovered(m.value) && m.value.info.name == n)
  {
    hide Refreshed, Discovered;
    assert n in NameSet(NodeRule(), items) <==> Report(NodeRule(), items, n).Some?;
  }

  lemma {:induction false} NeverSeen(view: map<string, NodeBody>, snapshots: seq<seq<MemberData>>, n: string)
    requires n !in History(NodeRule(), view, snapshots)
    ensures n !in view && LatestResources(snapshots, n).None?
  {
    if snapshots != [] {
      var k := |snapshots| - 1;
      assert n in NameSet(NodeRule(), snapshots[k]) <==> Report(NodeRule(), snapshots[k], n).Some?;
      NeverSeen(view, snapshots[..k], n);
    }
  }

  // After syncs with snapshots S1..Sk the cluster's names are the initial ones and every name
  // ever seen; each status depends on Sk alone, and each capacity comes from the latest
  // snapshot that carried resources for that member.
  lemma NodeHistory(cluster: string, snapshots: seq<seq<MemberData>>, states: seq<Rows<NodeBody>>)
    requires |states| == |snapshots| + 1
    requires forall i | 0 <= i < |snapshots| :: DistinctNames(NodeRule(), snapshots[i])
    requires Sound(states[0]) && KeysDistinct(NodeRule(), states[0], cluster)
    requires forall i | 0 <= i < |snapshots| :: CompletedOn(NodeRule(), cluster, states[i], snapshots[i], states[i + 1])
    ensures var view0, last := View(NodeRule(), states[0], cluster), states[|snapshots|];
            && (forall n :: n in Keys(NodeRule(), last, cluster) <==>
                  n in Keys(NodeRule(), states[0], cluster)
                      || exists i | 0 <= i < |snapshots| :: n in NameSet(NodeRule(), snapshots[i]))
            && (forall id | id in last && last[id].owner == cluster ::
                  HistoricBody(view0, snapshots, last[id].body.member, last[id].body))
  {
    hide HistoricBody;
    NodeRuleLawful();
    RunIsHistory(NodeRule(), cluster, snapshots, states);
    var view0, last := View(NodeRule(), states[0], cluster), states[|snapshots|];
    forall n ensures n in Keys(NodeRule(), last, cluster) <==>
                  n in Keys(NodeRule(), states[0], cluster)
                      || exists i | 0 <= i < |snapshots| :: n in NameSet(NodeRule(), snapshots[i]) {
      HistoryNames(NodeRule(), view0, snapshots, n);
      assert n in Keys(NodeRule(), last, cluster) <==> n in View(NodeRule(), last, cluster);
    }
    forall id | id in last && last[id].owner == cluster
      ensures HistoricBody(view0, snapshots, last[id].body.member, last[id].body) {
      var n := last[id].body.member;
      assert NodeRule().key(last[id]) == n;
      assert n in Keys(NodeRule(), last, cluster) && IdOf(NodeRule(), last, cluster, n) == id;
      HistoryBody(view0, snapshots, n);
    }
  }

  // ----- any state: provisioning rows and member names -----

  ghost predicate MembersDistinct(rows: Rows<NodeBody>) {
    forall a, b | a in rows && b in rows && rows[a].owner == rows[b].owner
                  && rows[a].body.member == rows[b].body.member != "" :: a == b
  }

  ghost predicate NoneNewlyProvisioning(before: Rows<NodeBody>, after: Rows<NodeBody>) {
    forall id | id in after && after[id].body.status == Provisioning ::
      id in before && before[id].body.status == Provisioning
  }

  // No attempt makes a row provisioning, and none gives two rows the same member name.
  lemma AttemptInvariants(cluster: string, before: Rows<NodeBody>, items: seq<MemberData>, after: Rows<NodeBody>)
    requires Attempted(NodeRule(), cluster, before, items, after)
    ensures Sound(after) && Kept(cluster, before, after)
    ensures NoneNewlyProvisioning(before, after)
    ensures MembersDistinct(before) ==> MembersDistinct(after)
  {
    AttemptedKept(NodeRule(), cluster, before, items, after);
    var byKey, k, marked := AttemptOf(NodeRule(), cluster, before, items, after);
    forall id | id in after && after[id].body.status == Provisioning
      ensures id in before && before[id].body.status == Provisioning {
      RowFacts(cluster, before, byKey, items[..k], marked, after, id);
    }
    if MembersDistinct(before) {
      MembersStayDistinct(cluster, before, byKey, items[..k], marked, after);
    }
  }

  lemma MembersStayDistinct(cluster: string, before: Rows<NodeBody>, byKey: map<string, Node>, done: seq<MemberData>,
                            marked: set<string>, after: Rows<NodeBody>)
    requires Indexes(NodeRule(), before, cluster, byKey)
    requires Outcome(NodeRule(), cluster, before, byKey, done, marked, after)
    requires MembersDistinct(before)
    ensures MembersDistinct(after)
  {
    assert forall id | id in before && before[id].owner == cluster ::
        NodeRule().key(before[id]) == before[id].body.member;
    hide OldRows, NewRows, AllArrived;
    forall a, b | a in after && b in after && after[a].owner == after[b].owner
        && after[a].body.member == after[b].body.member != ""
      ensures a == b
    {
      RowFacts(cluster, before, byKey, done, marked, after, a);
      RowFacts(cluster, before, byKey, done, marked, after, b);
    }
  }

  // After a complete sync a row of the cluster is in flight exactly when it was before and the
  // index holds another row under its member name. A server that is still being bootstrapped is
  // forgotten unless such a row hides it.
  lemma CompleteSyncForgetsProvisioning(cluster: string, before: Rows<NodeBody>, byKey: map<string, Node>,
                                        items: seq<MemberData>, after: Rows<NodeBody>, id: string)
    requires Sound(before) && Indexes(NodeRule(), before, cluster, byKey)
    requires Outcome(NodeRule(), cluster, before, byKey, items, Missing(NodeRule(), byKey, items), after)
    requires id in after && after[id].owner == cluster
    ensures after[id].body.status == Provisioning <==>
            && id in before && before[id].body.status == Provisioning
            && before[id].body.member in byKey && byKey[before[id].body.member].id != id
  {
    var marked := Missing(NodeRule(), byKey, items);
    if id in before {
      hide NewRows, AllArrived, Wrap64;
      var n := before[id].body.member;
      assert NodeRule().key(before[id]) == n && n in byKey && before[id].owner == cluster;
      assert after[id] == Expected(NodeRule(), cluster, byKey, items, marked, before[id]);
    } else {
      hide OldRows, NewRows, AllArrived, Missing;
      RowFacts(cluster, before, byKey, items, marked, after, id);
    }
  }
}
