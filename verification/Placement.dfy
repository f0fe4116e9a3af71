// One scheduling pass over the instances of a cluster: scheduleCluster's loop as a function
// of its inputs, and what every pass achieves.
module Placement {
  import opened Model
  import opened Memory
  import opened Scheduler

  function Ask(inst: Instance): Request {
    Request(inst.body.cpu, inst.body.mem, inst.body.disk)
  }

  function Placed(inst: Instance, node: string): Instance {
    inst.(body := inst.body.(nodeId := node))
  }

  // The turn of instance k. `lost` holds the ids of the instances whose placement the
  // repository refuses to record.
  function Turn(nodes: seq<Node>, cur: seq<Instance>, k: nat, lost: set<string>): (next: seq<Instance>)
    requires k < |cur|
    ensures |next| == |cur|
  {
    var choice := Best(nodes, cur, Ask(cur[k]));
    if cur[k].body.nodeId == "" && choice.Some? && cur[k].id !in lost
    then cur[k := Placed(cur[k], choice.value.id)]
    else cur
  }

  predicate Unplaceable(nodes: seq<Node>, cur: seq<Instance>, k: nat)
    requires k < |cur|
  {
    cur[k].body.nodeId == "" && Best(nodes, cur, Ask(cur[k])).None?
  }

  // The local slice and the scale-out flag after the first `i` instances.
  function Pass(nodes: seq<Node>, insts: seq<Instance>, i: nat, lost: set<string>): (r: (seq<Instance>, bool))
    requires i <= |insts|
    ensures |r.0| == |insts|
  {
    if i == 0 then (insts, false) else
    var (cur, flag) := Pass(nodes, insts, i - 1, lost);
    (Turn(nodes, cur, i - 1, lost), flag || Unplaceable(nodes, cur, i - 1))
  }

  ghost predicate Waiting(insts: seq<Instance>, k: nat) {
    k < |insts| && insts[k].body.nodeId == ""
  }

  ghost predicate AnyWaiting(insts: seq<Instance>, i: nat) {
    exists k: nat | k < i :: Waiting(insts, k)
  }

  ghost predicate GoodNodes(nodes: seq<Node>) {
    DistinctIds(nodes) && forall n | n in nodes :: n.id != ""
  }

  lemma PassStart(nodes: seq<Node>, insts: seq<Instance>, lost: set<string>)
    ensures Pass(nodes, insts, 0, lost) == (insts, false)
  {
  }

  // A pass only fills in empty placements, each with a listed node.
  lemma {:induction false} PassShape(nodes: seq<Node>, insts: seq<Instance>, i: nat, lost: set<string>)
    requires i <= |insts|
    ensures var cur := Pass(nodes, insts, i, lost).0;
            forall k | 0 <= k < |insts| ::
              || cur[k] == insts[k]
              || (k < i && insts[k].body.nodeId == "" && insts[k].id !in lost
                  && exists n :: n in nodes && cur[k] == insts[k].(body := insts[k].body.(nodeId := n.id)))
  {
    hide Best, Pass, Turn, Unplaceable;
    if i == 0 {
      PassStart(nodes, insts, lost);
    } else {
      PassShape(nodes, insts, i - 1, lost);
      PassUnfold(nodes, insts, i, lost);
      TurnShape(nodes, Pass(nodes, insts, i - 1, lost).0, i - 1, lost);
    }
  }

  lemma PassUnfold(nodes: seq<Node>, insts: seq<Instance>, i: nat, lost: set<string>)
    requires 0 < i <= |insts|
    ensures var (cur, flag) := Pass(nodes, insts, i - 1, lost);
            Pass(nodes, insts, i, lost) == (Turn(nodes, cur, i - 1, lost), flag || Unplaceable(nodes, cur, i - 1))
  {
    hide Best;
  }

  lemma TurnShape(nodes: seq<Node>, cur: seq<Instance>, t: nat, lost: set<string>)
    requires t < |cur|
    ensures var next := Turn(nodes, cur, t, lost);
            || next == cur
            || (cur[t].body.nodeId == "" && cur[t].id !in lost
                && exists n :: n in nodes && next == cur[t := Placed(cur[t], n.id)])
  {
  }

  // ----- how one placement moves the sums -----

  lemma PlacingAdds(insts: seq<Instance>, k: nat, to: string, node: string)
    requires Waiting(insts, k) && node != ""
    ensures var next := insts[k := Placed(insts[k], to)];
            Used(next, node) == Plus(Used(insts, node), next[k], node)
  {
    var next := insts[k := Placed(insts[k], to)];
    assert Without(next, k) == Without(insts, k);
    UsedWithout(insts, k, node);
    UsedWithout(next, k, node);
  }

  lemma {:induction false} SameLimits(a: seq<Instance>, b: seq<Instance>)
    requires |a| == |b| && forall k | 0 <= k < |a| :: Ask(a[k]) == Ask(b[k])
    ensures Total(a) == Total(b)
    ensures Bounded(a) ==> Bounded(b)
    ensures SafeLimits(a) ==> SafeLimits(b)
  {
    if a != [] {
      SameLimitsTotal(a, b);
      assert SafeLimits(a) ==> forall i | i in b :: i.body.cpu >= 0 && i.body.mem >= 0 && i.body.disk >= 0 by {
        if SafeLimits(a) {
          forall i | i in b ensures i.body.cpu >= 0 && i.body.mem >= 0 && i.body.disk >= 0 {
            var k :| 0 <= k < |b| && b[k] == i;
            assert a[k] in a && Ask(a[k]) == Ask(i);
          }
        }
      }
    }
  }

  lemma {:induction false} SameLimitsTotal(a: seq<Instance>, b: seq<Instance>)
    requires |a| == |b| && forall k | 0 <= k < |a| :: Ask(a[k]) == Ask(b[k])
    ensures Total(a) == Total(b)
  {
    if a != [] {
      var n := |a| - 1;
      assert Ask(a[n]) == Ask(b[n]);
      SameLimitsTotal(a[..n], b[..n]);
    }
  }

  lemma SafeIsBounded(insts: seq<Instance>)
    requires SafeLimits(insts)
    ensures Bounded(insts)
  {
  }

  lemma PassKeepsSafe(nodes: seq<Node>, insts: seq<Instance>, i: nat, lost: set<string>)
    requires i <= |insts| && Bounded(insts)
    ensures Bounded(Pass(nodes, insts, i, lost).0)
    ensures SafeLimits(insts) ==> SafeLimits(Pass(nodes, insts, i, lost).0)
  {
    PassShape(nodes, insts, i, lost);
    SameLimits(insts, Pass(nodes, insts, i, lost).0);
  }

  predicate Within(load: Load, n: Node) {
    load.cpu <= n.body.cpu && load.mem <= n.body.mem && load.disk <= n.body.disk
  }

  // With safe limits, eligibility is exactly fitting beside what is already there.
  lemma EligibleMeansFits(n: Node, insts: seq<Instance>, inst: Instance)
    requires SafeLimits(insts) && n.id != ""
    ensures Eligible(n, insts, Ask(inst)) <==>
            && n.body.status == Online && n.body.cpu > 0 && n.body.mem > 0 && n.body.disk > 0
            && Within(Plus(Used(insts, n.id), Placed(inst, n.id), n.id), n)
  {
    if Usable(n) { NoOverflow(n, insts, |insts|); }
  }

  // Even with negative limits, an eligible node holds the instance beside what is already there:
  // a headroom that wraps turns a node away, never in.
  lemma EligibleStaysWithin(n: Node, insts: seq<Instance>, k: nat)
    requires Bounded(insts) && n.id != "" && Waiting(insts, k) && Eligible(n, insts, Ask(insts[k]))
    ensures Within(Plus(Used(insts, n.id), Placed(insts[k], n.id), n.id), n)
  {
    UsedWithinTotal(insts, n.id, k);
    hide Used, Total;
  }

  // ----- capacity -----

  ghost predicate Received(insts: seq<Instance>, fin: seq<Instance>, node: string)
    requires |insts| == |fin|
  {
    exists k | 0 <= k < |insts| :: insts[k].body.nodeId == "" && fin[k].body.nodeId == node
  }

  // One turn gives a node at most the instance it has room for.
  lemma TurnFits(nodes: seq<Node>, cur: seq<Instance>, t: nat, lost: set<string>, n: Node)
    requires t < |cur| && GoodNodes(nodes) && Bounded(cur) && n in nodes
    ensures var next := Turn(nodes, cur, t, lost);
            if next[t] != cur[t] && next[t].body.nodeId == n.id then Usable(n) && Within(Used(next, n.id), n)
            else Used(next, n.id) == Used(cur, n.id)
  {
    hide Score, Better;
    var next := Turn(nodes, cur, t, lost);
    if next != cur {
      var to := Best(nodes, cur, Ask(cur[t])).value;
      PlacingAdds(cur, t, to.id, n.id);
      EligibleStaysWithin(to, cur, t);
    }
  }

  // A node that received a placement is within its capacity in all three dimensions; one
  // that received none keeps its allocation.
  lemma {:induction false} CapacityRespected(nodes: seq<Node>, insts: seq<Instance>, i: nat, lost: set<string>, n: Node)
    requires i <= |insts| && GoodNodes(nodes) && Bounded(insts) && n in nodes
    ensures var fin := Pass(nodes, insts, i, lost).0;
            if Received(insts, fin, n.id) then Usable(n) && Within(Used(fin, n.id), n)
            else Used(fin, n.id) == Used(insts, n.id)
  {
    hide Best, Turn, Used, SafeLimits, Bounded;
    if i > 0 {
      CapacityRespected(nodes, insts, i - 1, lost, n);
      PassShape(nodes, insts, i - 1, lost);
      PassKeepsSafe(nodes, insts, i - 1, lost);
      PassUnfold(nodes, insts, i, lost);
      var cur := Pass(nodes, insts, i - 1, lost).0;
      TurnFits(nodes, cur, i - 1, lost, n);
      TurnShape(nodes, cur, i - 1, lost);
      var fin := Turn(nodes, cur, i - 1, lost);
      if fin != cur {
        OtherEntries(insts, cur, fin, i - 1, n.id);
      }
    }
  }

  // Only entry k differs between two stages.
  lemma OtherEntries(insts: seq<Instance>, cur: seq<Instance>, fin: seq<Instance>, k: nat, node: string)
    requires |insts| == |cur| == |fin| && k < |insts| && node != ""
    requires fin == cur[k := fin[k]] && insts[k].body.nodeId == "" && cur[k] == insts[k]
    ensures Received(insts, fin, node) <==> Received(insts, cur, node) || fin[k].body.nodeId == node
  {
    if Received(insts, cur, node) {
      var j :| 0 <= j < |insts| && insts[j].body.nodeId == "" && cur[j].body.nodeId == node;
      assert fin[j] == cur[j];
    }
  }

  // ----- greedy maximality -----

  ghost predicate NothingFits(nodes: seq<Node>, insts: seq<Instance>, k: nat)
    requires k < |insts|
  {
    forall n | n in nodes :: !Eligible(n, insts, Ask(insts[k]))
  }

  lemma UsedGrows(nodes: seq<Node>, cur: seq<Instance>, t: nat, lost: set<string>, n: Node)
    requires t < |cur| && SafeLimits(cur) && n.id != ""
    ensures var before, after := Used(cur, n.id), Used(Turn(nodes, cur, t, lost), n.id);
            before.cpu <= after.cpu && before.mem <= after.mem && before.disk <= after.disk
  {
    if Turn(nodes, cur, t, lost) != cur {
      PlacingAdds(cur, t, Best(nodes, cur, Ask(cur[t])).value.id, n.id);
      assert cur[t] in cur;
    }
  }

  // What did not fit before a turn does not fit after it.
  lemma StillNothingFits(nodes: seq<Node>, cur: seq<Instance>, t: nat, lost: set<string>, k: nat)
    requires t < |cur| && k < |cur| && GoodNodes(nodes) && SafeLimits(cur) && SafeLimits(Turn(nodes, cur, t, lost))
    requires NothingFits(nodes, cur, k)
    ensures NothingFits(nodes, Turn(nodes, cur, t, lost), k)
  {
    var next := Turn(nodes, cur, t, lost);
    forall n | n in nodes ensures !Eligible(n, next, Ask(next[k])) {
      UsedGrows(nodes, cur, t, lost, n);
      EligibleMeansFits(n, cur, cur[k]);
      EligibleMeansFits(n, next, next[k]);
    }
  }

  lemma TurnLeftWaiting(nodes: seq<Node>, cur: seq<Instance>, t: nat, lost: set<string>)
    requires t < |cur| && GoodNodes(nodes) && cur[t].id !in lost
    requires Waiting(Turn(nodes, cur, t, lost), t)
    ensures NothingFits(nodes, cur, t)
  {
    BestWins(nodes, cur, Ask(cur[t]));
  }

  // At the end of a pass no instance left waiting fits on any node, unless the repository
  // refused its placement.
  lemma {:induction false} Maximal(nodes: seq<Node>, insts: seq<Instance>, i: nat, lost: set<string>, k: nat)
    requires k < i <= |insts| && GoodNodes(nodes) && SafeLimits(insts)
    requires insts[k].id !in lost && Waiting(Pass(nodes, insts, i, lost).0, k)
    ensures NothingFits(nodes, Pass(nodes, insts, i, lost).0, k)
  {
    hide Best, NothingFits, SafeLimits, Bounded, Turn;
    SafeIsBounded(insts);
    var cur := Pass(nodes, insts, i - 1, lost).0;
    PassUnfold(nodes, insts, i, lost);
    TurnShape(nodes, cur, i - 1, lost);
    PassShape(nodes, insts, i - 1, lost);
    PassKeepsSafe(nodes, insts, i - 1, lost);
    PassKeepsSafe(nodes, insts, i, lost);
    assert Waiting(cur, k);
    if k < i - 1 {
      Maximal(nodes, insts, i - 1, lost, k);
    } else {
      TurnLeftWaiting(nodes, cur, k, lost);
    }
    StillNothingFits(nodes, cur, i - 1, lost, k);
  }

  // The flag is raised exactly when an instance is still waiting; with refused updates it is
  // never raised without one.
  lemma {:induction false} FlagMeansWaiting(nodes: seq<Node>, insts: seq<Instance>, i: nat, lost: set<string>)
    requires i <= |insts| && GoodNodes(nodes)
    ensures Pass(nodes, insts, i, lost).1 ==> AnyWaiting(Pass(nodes, insts, i, lost).0, i)
    ensures lost == {} ==> (Pass(nodes, insts, i, lost).1 <==> AnyWaiting(Pass(nodes, insts, i, lost).0, i))
  {
    if i > 0 {
      FlagMeansWaiting(nodes, insts, i - 1, lost);
      var (cur, before) := Pass(nodes, insts, i - 1, lost);
      var fin := Pass(nodes, insts, i, lost).0;
      assert forall k: nat | k < i - 1 :: Waiting(cur, k) <==> Waiting(fin, k);
      assert AnyWaiting(fin, i) <==> AnyWaiting(cur, i - 1) || Waiting(fin, i - 1);
    }
  }

  // An instance stays without a placement exactly when, at its turn, it fits on no
  // node, unless the repository refused to record its placement.
  lemma {:induction false} WaitsExactlyWhenNothingFits(nodes: seq<Node>, insts: seq<Instance>, i: nat,
                                                       lost: set<string>, k: nat)
    requires k < i <= |insts| && GoodNodes(nodes) && Waiting(insts, k) && insts[k].id !in lost
    ensures Waiting(Pass(nodes, insts, i, lost).0, k) <==> NothingFits(nodes, Pass(nodes, insts, k, lost).0, k)
  {
    hide Pass, Best, NothingFits, GoodNodes;
    var cur := Pass(nodes, insts, i - 1, lost).0;
    PassUnfold(nodes, insts, i, lost);
    PassShape(nodes, insts, i - 1, lost);
    TurnShape(nodes, cur, i - 1, lost);
    if k < i - 1 {
      WaitsExactlyWhenNothingFits(nodes, insts, i - 1, lost, k);
    } else {
      TurnDecides(nodes, cur, lost, k);
    }
  }

  lemma TurnDecides(nodes: seq<Node>, cur: seq<Instance>, lost: set<string>, k: nat)
    requires Waiting(cur, k) && cur[k].id !in lost && GoodNodes(nodes)
    ensures Waiting(Turn(nodes, cur, k, lost), k) <==> NothingFits(nodes, cur, k)
  {
    BestWins(nodes, cur, Ask(cur[k]));
    hide Eligible, Score, Better;
  }

  // ----- statuses -----

  // The same instances, whatever their statuses.
  ghost predicate SameButStatus(a: seq<Instance>, b: seq<Instance>) {
    |a| == |b| && forall k | 0 <= k < |a| :: b[k] == a[k].(body := a[k].body.(status := b[k].body.status))
  }

  lemma {:induction false} UsedIgnoresStatus(a: seq<Instance>, b: seq<Instance>, node: string)
    requires SameButStatus(a, b)
    ensures Used(a, node) == Used(b, node)
  {
    if a != [] { UsedIgnoresStatus(a[..|a| - 1], b[..|b| - 1], node); }
  }

  lemma {:induction false} BestIgnoresStatus(nodes: seq<Node>, a: seq<Instance>, b: seq<Instance>, req: Request)
    requires SameButStatus(a, b)
    ensures Best(nodes, a, req) == Best(nodes, b, req)
  {
    hide SameButStatus, Eligible, Better;
    if nodes != [] {
      var n := nodes[|nodes| - 1];
      BestIgnoresStatus(nodes[..|nodes| - 1], a, b, req);
      var best := Best(nodes[..|nodes| - 1], a, req);
      SameEligible(n, a, b, req);
      if best.Some? {
        SameEligible(best.value, a, b, req);
        if Usable(n) && Usable(best.value) { SameBetter(n, best.value, a, b); }
        EligibleUsable(n, a, req);
        EligibleUsable(best.value, a, req);
      }
    }
  }

  lemma EligibleUsable(n: Node, insts: seq<Instance>, req: Request)
    ensures Eligible(n, insts, req) ==> Usable(n)
  {
  }

  lemma SameEligible(n: Node, a: seq<Instance>, b: seq<Instance>, req: Request)
    requires SameButStatus(a, b)
    ensures Eligible(n, a, req) == Eligible(n, b, req)
  {
    UsedIgnoresStatus(a, b, n.id);
    hide Used, Wrap64, SameButStatus;
  }

  lemma SameBetter(m: Node, n: Node, a: seq<Instance>, b: seq<Instance>)
    requires SameButStatus(a, b) && Usable(m) && Usable(n)
    ensures Better(m, n, a) == Better(m, n, b)
  {
    UsedIgnoresStatus(a, b, m.id);
    UsedIgnoresStatus(a, b, n.id);
    hide Used, Wrap64, SameButStatus;
  }

  // The scheduler is blind to statuses: changing them changes no placement and not the answer.
  lemma {:induction false} PassIgnoresStatus(nodes: seq<Node>, a: seq<Instance>, b: seq<Instance>, i: nat,
                                             lost: set<string>)
    requires SameButStatus(a, b) && i <= |a|
    ensures SameButStatus(Pass(nodes, a, i, lost).0, Pass(nodes, b, i, lost).0)
    ensures Pass(nodes, a, i, lost).1 == Pass(nodes, b, i, lost).1
    ensures forall k | 0 <= k < |a| :: Pass(nodes, b, i, lost).0[k].body.status == b[k].body.status
  {
    hide Best, Pass, Ask;
    if i == 0 {
      PassStart(nodes, a, lost);
      PassStart(nodes, b, lost);
    } else {
      PassIgnoresStatus(nodes, a, b, i - 1, lost);
      PassUnfold(nodes, a, i, lost);
      PassUnfold(nodes, b, i, lost);
      TurnIgnoresStatus(nodes, Pass(nodes, a, i - 1, lost).0, Pass(nodes, b, i - 1, lost).0, i - 1, lost);
    }
  }

  lemma TurnIgnoresStatus(nodes: seq<Node>, a: seq<Instance>, b: seq<Instance>, k: nat, lost: set<string>)
    requires SameButStatus(a, b) && k < |a|
    ensures SameButStatus(Turn(nodes, a, k, lost), Turn(nodes, b, k, lost))
    ensures Unplaceable(nodes, a, k) == Unplaceable(nodes, b, k)
    ensures forall j | 0 <= j < |a| :: Turn(nodes, b, k, lost)[j].body.status == b[j].body.status
  {
    assert b[k] == a[k].(body := a[k].body.(status := b[k].body.status));
    BestIgnoresStatus(nodes, a, b, Ask(a[k]));
    hide Best;
  }

  // A pass over a state where nothing waiting fits changes nothing.
  lemma {:induction false} StuckPass(nodes: seq<Node>, insts: seq<Instance>, i: nat, lost: set<string>)
    requires i <= |insts| && GoodNodes(nodes)
    requires forall k: nat | Waiting(insts, k) :: NothingFits(nodes, insts, k)
    ensures Pass(nodes, insts, i, lost).0 == insts
    ensures Pass(nodes, insts, i, lost).1 <==> AnyWaiting(insts, i)
  {
    if i > 0 {
      StuckPass(nodes, insts, i - 1, lost);
      assert AnyWaiting(insts, i) <==> AnyWaiting(insts, i - 1) || Waiting(insts, i - 1);
      if Waiting(insts, i - 1) { BestWins(nodes, insts, Ask(insts[i - 1])); }
    }
  }

  // ----- a pass over the repositories -----

  // The relation between the instance table before and after a pass of one cluster.
  ghost predicate Scheduled(nodeRows: Rows<NodeBody>, before: Rows<InstanceBody>, cluster: string, lost: set<string>,
                            after: Rows<InstanceBody>, flag: bool) {
    exists nodes, insts ::
      && Lists(nodeRows, cluster, nodes) && Lists(before, cluster, insts)
      && ScheduledFrom(nodes, insts, before, cluster, lost, after, flag)
  }

  // The rows of the cluster are the local slice; every other row is untouched.
  ghost predicate ScheduledFrom(nodes: seq<Node>, insts: seq<Instance>, before: Rows<InstanceBody>, cluster: string,
                                lost: set<string>, after: Rows<InstanceBody>, flag: bool) {
    var (fin, raised) := Pass(nodes, insts, |insts|, lost);
    && flag == raised
    && Keyed(after) && Lists(after, cluster, fin)
    && after.Keys == before.Keys
    && forall id | id in before && before[id].owner != cluster :: after[id] == before[id]
  }

  // What a pass does to one row.
  lemma RowOfSlot(nodes: seq<Node>, insts: seq<Instance>, before: Rows<InstanceBody>, cluster: string,
                  lost: set<string>, after: Rows<InstanceBody>, flag: bool, k: nat)
    requires ScheduledFrom(nodes, insts, before, cluster, lost, after, flag) && k < |insts|
    ensures var id := insts[k].id;
            && id in after
            && (|| after[id] == insts[k]
                || (insts[k].body.nodeId == "" && exists n :: n in nodes && after[id] == Placed(insts[k], n.id)))
  {
    PassShape(nodes, insts, |insts|, lost);
    hide Best, Pass;
    var fin := Pass(nodes, insts, |insts|, lost).0;
    assert fin[k].id == insts[k].id && after[fin[k].id] == fin[k];
  }

  ghost predicate SafeRows(rows: Rows<InstanceBody>, cluster: string) {
    forall insts | Lists(rows, cluster, insts) :: SafeLimits(insts)
  }

  lemma GoodListing(nodeRows: Rows<NodeBody>, cluster: string, nodes: seq<Node>)
    requires Keyed(nodeRows) && Lists(nodeRows, cluster, nodes)
    ensures GoodNodes(nodes)
  {
  }

  // A second pass changes no row and returns the same flag, whatever order the repositories
  // list their rows in and whatever updates they would refuse.
  lemma SecondPassIdle(nodeRows: Rows<NodeBody>, r0: Rows<InstanceBody>, cluster: string, lost: set<string>,
                       r1: Rows<InstanceBody>, flag1: bool, r2: Rows<InstanceBody>, flag2: bool)
    requires Keyed(nodeRows) && Keyed(r0) && SafeRows(r0, cluster)
    requires Scheduled(nodeRows, r0, cluster, {}, r1, flag1)
    requires Scheduled(nodeRows, r1, cluster, lost, r2, flag2)
    ensures r2 == r1 && flag2 == flag1
  {
    hide Pass, SafeLimits, NothingFits, AnyWaiting;
    var nodes, insts :| Lists(nodeRows, cluster, nodes) && Lists(r0, cluster, insts)
        && ScheduledFrom(nodes, insts, r0, cluster, {}, r1, flag1);
    var nodes', again :| Lists(nodeRows, cluster, nodes') && Lists(r1, cluster, again)
        && ScheduledFrom(nodes', again, r1, cluster, lost, r2, flag2);
    GoodListing(nodeRows, cluster, nodes);
    GoodListing(nodeRows, cluster, nodes');
    var fin := Pass(nodes, insts, |insts|, {}).0;
    ListsPermute(r1, cluster, again, fin);
    ListsPermute(nodeRows, cluster, nodes, nodes');
    forall k: nat | Waiting(again, k) ensures NothingFits(nodes', again, k) {
      NothingFitsAgain(nodes, insts, nodes', again, k);
    }
    StuckPass(nodes', again, |again|, lost);
    FlagMeansWaiting(nodes, insts, |insts|, {});
    SameWaiting(again, fin);
    assert Lists(r2, cluster, again);
    assert forall id | id in r1 && r1[id].owner == cluster :: r1[id] in again && r2[id] == r1[id];
    assert forall id | id in r1 :: r2[id] == r1[id];
  }

  // A later listing of the final state, in any order, is just as stuck.
  lemma NothingFitsAgain(nodes: seq<Node>, insts: seq<Instance>, nodes': seq<Node>, again: seq<Instance>, k: nat)
    requires GoodNodes(nodes) && SafeLimits(insts)
    requires multiset(nodes) == multiset(nodes')
    requires multiset(again) == multiset(Pass(nodes, insts, |insts|, {}).0)
    requires Waiting(again, k)
    ensures NothingFits(nodes', again, k)
  {
    var fin := Pass(nodes, insts, |insts|, {}).0;
    SameMembers(again, fin);
    assert again[k] in fin;
    var j :| 0 <= j < |fin| && fin[j] == again[k];
    Maximal(nodes, insts, |insts|, {}, j);
    NothingFitsPermuted(nodes, fin, j, nodes', again, k);
  }

  lemma NothingFitsPermuted(nodes: seq<Node>, fin: seq<Instance>, j: nat, nodes': seq<Node>, again: seq<Instance>,
                            k: nat)
    requires multiset(nodes) == multiset(nodes') && multiset(fin) == multiset(again)
    requires j < |fin| && k < |again| && fin[j] == again[k]
    requires NothingFits(nodes, fin, j)
    ensures NothingFits(nodes', again, k)
  {
    SameMembers(nodes, nodes');
    forall n | n in nodes' ensures !Eligible(n, again, Ask(again[k])) {
      UsedPermuted(again, fin, n.id);
      assert n in nodes;
    }
  }

  lemma SameWaiting(a: seq<Instance>, b: seq<Instance>)
    requires multiset(a) == multiset(b)
    ensures AnyWaiting(a, |a|) <==> AnyWaiting(b, |b|)
  {
    SameMembers(a, b);
    if AnyWaiting(a, |a|) {
      var k: nat :| k < |a| && Waiting(a, k);
      assert a[k] in b;
      var j :| 0 <= j < |b| && b[j] == a[k];
      assert Waiting(b, j);
    }
    if AnyWaiting(b, |b|) {
      var k: nat :| k < |b| && Waiting(b, k);
      assert b[k] in a;
      var j :| 0 <= j < |a| && a[j] == b[k];
      assert Waiting(a, j);
    }
  }
}
