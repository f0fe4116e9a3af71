// Consequences of the reconciliation loop that its comments do not promise: what becomes of a
// server the loop itself has asked for, and of an instance LXD no longer reports.
module Findings {
  import opened Model
  import opened Memory
  import opened Lxd
  import opened Reconcile
  import opened Views
  import opened NodeSync
  import opened InstanceSync
  import opened Scheduler
  import opened Placement
  import opened Fleet
  import opened Isolation
  import opened Orchestrator

  // LXD members have names; the row of a scale-out carries no member name.
  ghost predicate AllNamed(items: seq<MemberData>) {
    forall m | m in items :: m.info.name != ""
  }

  // ----- a server in flight -----

  // What a sync that meets no failing repository leaves behind.
  ghost predicate Followed(c: string, before: Rows<NodeBody>, items: seq<MemberData>, after: Rows<NodeBody>) {
    if Acceptable(NodeRule(), before, c, items) then Completed(NodeRule(), c, before, items, after)
    else Interrupted(NodeRule(), c, before, items, after)
  }

  // Another row of the cluster has the same member name.
  ghost predicate Shadowed(rows: Rows<NodeBody>, c: string, id: string)
    requires id in rows
  {
    exists x | x in rows :: x != id && rows[x].owner == c && rows[x].body.member == rows[id].body.member
  }

  // The sync takes a server that is still being bootstrapped for a lost member: its row can stop
  // being in flight exactly when the report meets no conflict. It can stay in flight exactly
  // when there is a conflict, or when another row without member name may be the one indexed.
  lemma InFlightAfterSync(c: string, before: Rows<NodeBody>, items: seq<MemberData>, id: string)
    requires Sound(before) && AllNamed(items)
    requires IsProvisioning(before, c, id) && before[id].body.member == ""
    ensures (exists after | Followed(c, before, items, after) :: !IsProvisioning(after, c, id))
            <==> Acceptable(NodeRule(), before, c, items)
    ensures (exists after | Followed(c, before, items, after) :: IsProvisioning(after, c, id))
            <==> !Acceptable(NodeRule(), before, c, items) || Shadowed(before, c, id)
  {
    hide Acceptable, Completed, Interrupted, Sound;
    if Acceptable(NodeRule(), before, c, items) {
      var gone := CompletedIndexing(c, before, items, id, id);
      if Shadowed(before, c, id) {
        var x :| x in before && x != id && before[x].owner == c && before[x].body.member == before[id].body.member;
        var left := CompletedIndexing(c, before, items, id, x);
      }
      forall after | Followed(c, before, items, after) && IsProvisioning(after, c, id) ensures Shadowed(before, c, id) {
        CompletedHides(c, before, items, after, id);
      }
    } else {
      NothingAttempted(NodeRule(), before, c, items);
      InterruptedAtOnce(c, before, items);
      forall after | Followed(c, before, items, after) ensures IsProvisioning(after, c, id) {
        StillInFlight(c, before, items, after, id);
      }
    }
  }

  lemma InterruptedAtOnce(c: string, before: Rows<NodeBody>, items: seq<MemberData>)
    requires Reached(NodeRule(), c, before, items, Reach(0, {}), before)
    ensures Interrupted(NodeRule(), c, before, items, before)
  {
    hide Reached;
  }

  // A complete sync whose index holds row x; it loses row `id` exactly when that is x.
  lemma CompletedIndexing(c: string, before: Rows<NodeBody>, items: seq<MemberData>, id: string, x: string)
    returns (after: Rows<NodeBody>)
    requires Sound(before) && Acceptable(NodeRule(), before, c, items) && IsProvisioning(before, c, id)
    requires x in before && before[x].owner == c && before[x].body.member == before[id].body.member
    ensures Completed(NodeRule(), c, before, items, after) && (IsProvisioning(after, c, id) <==> x != id)
  {
    hide Acceptable, Outcome, Missing, Wrap64;
    var some := SomeIndex(NodeRule(), before, c);
    var n := before[id].body.member;
    assert NodeRule().key(before[x]) == n;
    var byKey := some[n := before[x]];
    assert Indexes(NodeRule(), before, c, byKey);
    after := CanComplete(NodeRule(), c, before, byKey, items);
    RowStays(c, before, byKey, items, Missing(NodeRule(), byKey, items), after, id);
    hide Indexes;
    CompleteSyncForgetsProvisioning(c, before, byKey, items, after, id);
  }

  lemma RowStays(c: string, before: Rows<NodeBody>, byKey: map<string, Node>, done: seq<MemberData>,
                 marked: set<string>, after: Rows<NodeBody>, id: string)
    requires Outcome(NodeRule(), c, before, byKey, done, marked, after) && id in before
    ensures id in after && after[id].owner == before[id].owner && NamesUnique(after)
  {
    assert after[id] == Expected(NodeRule(), c, byKey, done, marked, before[id]);
  }

  // A row that a complete sync left in flight was hidden by the row in the index.
  lemma CompletedHides(c: string, before: Rows<NodeBody>, items: seq<MemberData>, after: Rows<NodeBody>, id: string)
    requires Sound(before) && Completed(NodeRule(), c, before, items, after)
    requires IsProvisioning(before, c, id) && IsProvisioning(after, c, id)
    ensures Shadowed(before, c, id)
  {
    hide Outcome, Missing;
    var byKey: map<string, Node> :| Indexes(NodeRule(), before, c, byKey)
      && Outcome(NodeRule(), c, before, byKey, items, Missing(NodeRule(), byKey, items), after);
    CompleteSyncForgetsProvisioning(c, before, byKey, items, after, id);
    var n := before[id].body.member;
    assert NodeRule().key(byKey[n]) == byKey[n].body.member;
    assert before[byKey[n].id].body.member == n;
  }

  lemma StillInFlight(c: string, before: Rows<NodeBody>, items: seq<MemberData>, after: Rows<NodeBody>, id: string)
    requires AllNamed(items) && Interrupted(NodeRule(), c, before, items, after)
    requires IsProvisioning(before, c, id) && before[id].body.member == ""
    ensures IsProvisioning(after, c, id)
  {
    hide NewRows, AllArrived, Indexes;
    var reach: Reach :| reach.marked == {} && Reached(NodeRule(), c, before, items, reach, after);
    var byKey :| ReachedBy(NodeRule(), c, before, byKey, items, reach, after);
    var none: set<string> := {};
    assert after[id] == Expected(NodeRule(), c, byKey, items[..reach.upserts], none, before[id]);
    assert NodeRule().key(before[id]) == "";
    NobodyUnnamed(items[..reach.upserts]);
  }

  lemma NobodyUnnamed(items: seq<MemberData>)
    requires AllNamed(items)
    ensures Report(NodeRule(), items, "").None?
  {
    var r := Report(NodeRule(), items, "");
    assert r.Some? ==> NodeRule().name(r.value) == r.value.info.name;
  }

  ghost predicate NobodyInFlight(rows: Rows<NodeBody>, c: string) {
    forall x :: !IsProvisioning(rows, c, x)
  }

  // So the duplicate check, which looks at the node table after the sync, can miss a server in
  // flight exactly when the node sync meets no conflict, and can see it exactly when there is a
  // conflict or another row without member name.
  lemma DuplicateCheckCleared(c: string, lxd: Answers, s: Fleet, id: string)
    requires Healthy(s) && lxd.members.Some? && AllNamed(Fetched(lxd.members.value, lxd.resources))
    requires IsProvisioning(s.nodes, c, id) && s.nodes[id].body.member == ""
    ensures var conflict := !Acceptable(NodeRule(), s.nodes, c, Fetched(lxd.members.value, lxd.resources));
            && ((exists s' | NodesFollow(c, lxd, s, s') :: NobodyInFlight(s'.nodes, c)) <==> !conflict)
            && ((exists s' | NodesFollow(c, lxd, s, s') :: !NobodyInFlight(s'.nodes, c))
                <==> conflict || Shadowed(s.nodes, c, id))
  {
    hide *;
    var items := Fetched(lxd.members.value, lxd.resources);
    SoundParts(s);
    InFlightAfterSync(c, s.nodes, items, id);
    if after :| Followed(c, s.nodes, items, after) && IsProvisioning(after, c, id) {
      SeesAs(c, lxd, s, Fleet(after, s.instances), id);
    }
    if after :| Followed(c, s.nodes, items, after) && !IsProvisioning(after, c, id) {
      SeesAs(c, lxd, s, Fleet(after, s.instances), id);
    }
    if s' :| NodesFollow(c, lxd, s, s') && NobodyInFlight(s'.nodes, c) {
      FollowsSameInstances(c, lxd, s, s');
      SeesAs(c, lxd, s, s', id);
    }
    if s' :| NodesFollow(c, lxd, s, s') && !NobodyInFlight(s'.nodes, c) {
      FollowsSameInstances(c, lxd, s, s');
      SeesAs(c, lxd, s, s', id);
    }
  }

  // What the duplicate check sees is the fate of the one row in flight.
  lemma SeesAs(c: string, lxd: Answers, s: Fleet, s': Fleet, id: string)
    requires Healthy(s) && lxd.members.Some? && IsProvisioning(s.nodes, c, id) && s'.instances == s.instances
    requires NodesFollow(c, lxd, s, s') || Followed(c, s.nodes, Fetched(lxd.members.value, lxd.resources), s'.nodes)
    ensures NodesFollow(c, lxd, s, s') && Followed(c, s.nodes, Fetched(lxd.members.value, lxd.resources), s'.nodes)
    ensures NobodyInFlight(s'.nodes, c) <==> !IsProvisioning(s'.nodes, c, id)
  {
    hide Healthy, Followed, Acceptable, IsProvisioning, NodesFollow, NobodyInFlight, Fetched;
    FollowsExactly(c, lxd, s, s');
    OnlyThisInFlight(c, s, Fetched(lxd.members.value, lxd.resources), s'.nodes, id);
  }

  lemma FollowsSameInstances(c: string, lxd: Answers, s: Fleet, s': Fleet)
    requires NodesFollow(c, lxd, s, s')
    ensures s'.instances == s.instances
  {
    hide Acceptable, Completed, Interrupted;
  }

  lemma FollowsExactly(c: string, lxd: Answers, s: Fleet, s': Fleet)
    requires lxd.members.Some?
    ensures NodesFollow(c, lxd, s, s')
            <==> s'.instances == s.instances
                 && Followed(c, s.nodes, Fetched(lxd.members.value, lxd.resources), s'.nodes)
  {
    hide Acceptable, Completed, Interrupted;
  }

  // At most one row of a cluster is in flight before a sync, and no sync adds one.
  lemma OnlyThisInFlight(c: string, s: Fleet, items: seq<MemberData>, after: Rows<NodeBody>, id: string)
    requires Healthy(s) && IsProvisioning(s.nodes, c, id) && Followed(c, s.nodes, items, after)
    ensures NobodyInFlight(after, c) <==> !IsProvisioning(after, c, id)
  {
    hide Acceptable;
    FollowedIsAttempted(c, s.nodes, items, after);
    hide Followed;
    AttemptInvariants(c, s.nodes, items, after);
    forall x | IsProvisioning(after, c, x) ensures x == id {
      assert IsProvisioning(s.nodes, c, x);
    }
  }

  lemma FollowedIsAttempted(c: string, before: Rows<NodeBody>, items: seq<MemberData>, after: Rows<NodeBody>)
    requires Followed(c, before, items, after)
    ensures Attempted(NodeRule(), c, before, items, after)
  {
    hide Acceptable, Completed, Reached;
    if Acceptable(NodeRule(), before, c, items) {
      CompletedIsAttempted(NodeRule(), c, before, items, after);
    }
  }

  // A concrete pass that asks for a second server: one server in flight, one instance waiting,
  // and LXD reports no member yet.
  const FLYING := Row("n", "c", "c-scale-0", 0, NodeBody("", "server-0", 0, 0, 0, Provisioning))
  const LOST := FLYING.(body := FLYING.body.(status := Offline))
  const GUEST := Row("i", "c", "web", 0, InstanceBody("", "container", Running, 1, 1, 1, None))

  const BEFORE := Fleet(map["n" := FLYING], map["i" := GUEST])
  const AFTER := Fleet(map["n" := LOST], map["i" := GUEST])
  const SILENCE := Answers(Some([]), map[], None)

  lemma SecondServer()
    ensures Healthy(BEFORE) && IsProvisioning(BEFORE.nodes, "c", "n")
    ensures UndisturbedPass("c", SILENCE, BEFORE, Trail(AFTER, map["" := "n"], AFTER, AFTER, true))
    ensures forall x :: !IsProvisioning(AFTER.nodes, "c", x)
  {
    hide Healthy, NodesFollow, Scheduled;
    FirstInFlight();
    ServerLost();
    GuestWaits();
  }

  lemma FirstInFlight()
    ensures Healthy(BEFORE)
  {
    assert forall k, x :: IsProvisioning(BEFORE.nodes, k, x) ==> x == "n";
  }

  lemma ServerLost()
    ensures NodesFollow("c", SILENCE, BEFORE, AFTER)
  {
    var none: seq<MemberData> := [];
    assert Fetched([], map[]) == none;
    var byKey := map["" := FLYING];
    assert Indexes(NodeRule(), BEFORE.nodes, "c", byKey);
    var missing := Missing(NodeRule(), byKey, none);
    assert "" in missing;
    assert AFTER.nodes["n"] == Expected(NodeRule(), "c", byKey, none, missing, FLYING);
    assert Outcome(NodeRule(), "c", BEFORE.nodes, byKey, none, missing, AFTER.nodes);
  }

  lemma GuestWaits()
    ensures Scheduled(AFTER.nodes, AFTER.instances, "c", {}, AFTER.instances, true)
  {
    var nodes, insts := [LOST], [GUEST];
    assert nodes[..0] == [];
    assert Best(nodes, insts, Ask(GUEST)) == None;
    assert Pass(nodes, insts, 0, {}) == (insts, false);
    assert Pass(nodes, insts, 1, {}) == (insts, true);
    assert AFTER.instances["i"] in insts && AFTER.nodes["n"] in nodes;
    assert ScheduledFrom(nodes, insts, AFTER.instances, "c", {}, AFTER.instances, true);
  }

  // ----- a server that has joined -----

  // One step of the node table: nothing, a sync attempt, or a scale-out. Instance syncs and
  // placements leave it alone.
  ghost predicate NodeStep(c: string, before: Rows<NodeBody>, after: Rows<NodeBody>) {
    || after == before
    || (exists items | AllNamed(items) :: Attempted(NodeRule(), c, before, items, after))
    || (Sound(before) && exists server: Option<Server> :: Hired(c, server, before, after))
  }

  // A row that answers to no member and has no capacity.
  ghost predicate Inert(rows: Rows<NodeBody>, k: string, id: string) {
    && id in rows && rows[id].owner == k && rows[id].body.member == ""
    && rows[id].body.cpu == 0 && rows[id].body.mem == 0 && rows[id].body.disk == 0
  }

  // A name a row holds although no row of the cluster answers to it.
  ghost predicate Blocked(rows: Rows<NodeBody>, k: string, n: string) {
    n != "" && Taken(rows, k, n) && forall id | id in rows && rows[id].owner == k :: rows[id].body.member != n
  }

  // The row of a recorded server is of both kinds.
  lemma RecordedServer(k: string, server: Server, before: Rows<NodeBody>, after: Rows<NodeBody>)
    requires ServerRecorded(k, server, before, after) && server.name != ""
    requires forall id | id in before && before[id].owner == k :: before[id].body.member != server.name
    ensures Blocked(after, k, server.name) && exists id :: Inert(after, k, id) && after[id].name == server.name
  {
    var id :| id in after && id != "" && id !in before && after == before[id := after[id]]
      && after[id] ==
             Row(id, k, server.name, after[id].createdAt, NodeBody("", server.serverId, 0, 0, 0, server.status));
    assert Inert(after, k, id) && after[id].name == server.name;
  }

  lemma InertAttempt(c: string, before: Rows<NodeBody>, items: seq<MemberData>, after: Rows<NodeBody>, k: string,
                     id: string)
    requires AllNamed(items) && Attempted(NodeRule(), c, before, items, after) && Inert(before, k, id)
    ensures Inert(after, k, id)
  {
    hide NewRows, AllArrived;
    var byKey, i, marked := AttemptOf(NodeRule(), c, before, items, after);
    assert after[id] == Expected(NodeRule(), c, byKey, items[..i], marked, before[id]);
    assert NodeRule().key(before[id]) == "";
    NobodyUnnamed(items[..i]);
  }

  lemma BlockedAttempt(c: string, before: Rows<NodeBody>, items: seq<MemberData>, after: Rows<NodeBody>, k: string,
                       n: string)
    requires Attempted(NodeRule(), c, before, items, after) && Blocked(before, k, n)
    ensures Blocked(after, k, n)
  {
    hide Outcome, Indexes, Unreported;
    var byKey, i, marked := AttemptOf(NodeRule(), c, before, items, after);
    BlockedOutcome(c, before, byKey, items[..i], marked, after, k, n);
  }

  lemma BlockedOutcome(c: string, before: Rows<NodeBody>, byKey: map<string, Node>, done: seq<MemberData>,
                       marked: set<string>, after: Rows<NodeBody>, k: string, n: string)
    requires Outcome(NodeRule(), c, before, byKey, done, marked, after) && Blocked(before, k, n)
    ensures Blocked(after, k, n)
  {
    var x :| x in before && before[x].owner == k && before[x].name == n;
    RowStays(c, before, byKey, done, marked, after, x);
    hide Outcome;
    RowFacts(c, before, byKey, done, marked, after, x);
    forall id | id in after && after[id].owner == k ensures after[id].body.member != n {
      RowFacts(c, before, byKey, done, marked, after, id);
      assert id !in before && after[id].name == n ==> id == x;
    }
  }

  // Nothing ever gives it capacity, and nothing ever lets its name be tracked.
  lemma StepKeepsInert(c: string, before: Rows<NodeBody>, after: Rows<NodeBody>, k: string, id: string)
    requires NodeStep(c, before, after) && Inert(before, k, id)
    ensures Inert(after, k, id)
  {
    hide Attempted;
    if items :| AllNamed(items) && Attempted(NodeRule(), c, before, items, after) {
      InertAttempt(c, before, items, after, k, id);
    }
  }

  lemma StepKeepsBlocked(c: string, before: Rows<NodeBody>, after: Rows<NodeBody>, k: string, n: string)
    requires NodeStep(c, before, after) && Blocked(before, k, n)
    ensures Blocked(after, k, n)
  {
    hide Attempted;
    if items :| AllNamed(items) && Attempted(NodeRule(), c, before, items, after) {
      BlockedAttempt(c, before, items, after, k, n);
    } else if after != before {
      var x :| x in before && before[x].owner == k && before[x].name == n;
      assert x in after && after[x] == before[x];
    }
  }

  // Over every run: no scheduling pass can use the server, and every node sync that reports
  // its name fails, so that it marks nothing offline any more.
  lemma {:induction false} ScaledOutServerUnusable(clusters: seq<string>, states: seq<Rows<NodeBody>>, k: string,
                                                   id: string, n: string)
    requires |states| == |clusters| + 1
    requires forall i | 0 <= i < |clusters| :: NodeStep(clusters[i], states[i], states[i + 1])
    requires Inert(states[0], k, id) && Blocked(states[0], k, n)
    ensures var rows := states[|clusters|];
            && id in rows && rows[id].owner == k
            && (forall insts, req :: !Eligible(rows[id], insts, req))
            && (forall items | n in NameSet(NodeRule(), items) :: !Acceptable(NodeRule(), rows, k, items))
  {
    RunKeepsBoth(clusters, states, k, id, n);
    var rows := states[|clusters|];
    forall insts, req ensures !Eligible(rows[id], insts, req) {
      hide Headroom;
    }
    forall items | n in NameSet(NodeRule(), items) ensures !Acceptable(NodeRule(), rows, k, items) {
      BlockedFails(rows, k, n, items);
    }
  }

  lemma {:induction false} RunKeepsBoth(clusters: seq<string>, states: seq<Rows<NodeBody>>, k: string, id: string,
                                        n: string)
    requires |states| == |clusters| + 1
    requires forall i | 0 <= i < |clusters| :: NodeStep(clusters[i], states[i], states[i + 1])
    requires Inert(states[0], k, id) && Blocked(states[0], k, n)
    ensures Inert(states[|clusters|], k, id) && Blocked(states[|clusters|], k, n)
  {
    hide NodeStep, Inert, Blocked;
    if clusters != [] {
      var j := |clusters| - 1;
      assert forall i | 0 <= i < j :: NodeStep(clusters[..j][i], states[..j + 1][i], states[..j + 1][i + 1]);
      RunKeepsBoth(clusters[..j], states[..j + 1], k, id, n);
      assert NodeStep(clusters[j], states[j], states[j + 1]);
      StepKeepsInert(clusters[j], states[j], states[j + 1], k, id);
      StepKeepsBlocked(clusters[j], states[j], states[j + 1], k, n);
    }
  }

  lemma BlockedFails(rows: Rows<NodeBody>, k: string, n: string, items: seq<MemberData>)
    requires Blocked(rows, k, n) && n in NameSet(NodeRule(), items)
    ensures !Acceptable(NodeRule(), rows, k, items)
  {
    var m :| m in items && NodeRule().name(m) == n;
    var i :| 0 <= i < |items| && items[i] == m;
    assert forall id | id in rows && rows[id].owner == k :: NodeRule().key(rows[id]) == rows[id].body.member;
    assert !AcceptableAt(NodeRule(), rows, k, items, i);
  }

  // ----- an instance that has disappeared -----

  // A concrete pass that places an instance LXD no longer reports: the sync marks it unknown and
  // clears its placement, and the scheduler puts it back on the node it was on.
  const HOST := Row("m", "c", "lxd1", 0, NodeBody("lxd1", "", 4, 4, 4, Online))
  const SEEN := Row("i", "c", "web", 0, InstanceBody("m", "container", Running, 1, 1, 1, None))
  const VANISHED := SEEN.(body := SEEN.body.(status := Unknown, nodeId := ""))
  const RETURNED := SEEN.(body := SEEN.body.(status := Unknown))

  const TRACKED := Fleet(map["m" := HOST], map["i" := SEEN])
  const CLEARED := Fleet(map["m" := HOST], map["i" := VANISHED])
  const REPLACED := Fleet(map["m" := HOST], map["i" := RETURNED])
  const DELETED := Answers(Some([NodeInfo("lxd1", "Online")]), map[], Some([]))

  lemma UnknownInstancePlaced()
    ensures Healthy(TRACKED)
    ensures UndisturbedPass("c", DELETED, TRACKED, Trail(TRACKED, map["lxd1" := "m"], CLEARED, REPLACED, false))
    ensures REPLACED.instances["i"].body.status == Unknown && REPLACED.instances["i"].body.nodeId == "m"
  {
    hide Healthy, NodesFollow, InstancesFollow, Scheduled;
    AllTracked();
    HostStays();
    GuestVanishes();
    GuestReturns();
  }

  lemma AllTracked()
    ensures Healthy(TRACKED)
  {
    assert forall k, x :: !IsProvisioning(TRACKED.nodes, k, x);
    assert NodeOf(TRACKED.nodes, SEEN);
  }

  lemma HostStays()
    ensures NodesFollow("c", DELETED, TRACKED, TRACKED)
  {
    hide Wrap64;
    var m := MemberData(NodeInfo("lxd1", "Online"), None);
    var items := [m];
    assert Fetched(DELETED.members.value, DELETED.resources) == items;
    var byKey := map["lxd1" := HOST];
    assert Indexes(NodeRule(), TRACKED.nodes, "c", byKey);
    assert NodeRule().key(HOST) == NodeRule().name(m) == "lxd1";
    assert Report(NodeRule(), items, "lxd1") == Some(m);
    assert Missing(NodeRule(), byKey, items) == {};
    assert TRACKED.nodes["m"] == Expected(NodeRule(), "c", byKey, items, {}, HOST);
    assert forall n | n != "lxd1" :: Report(NodeRule(), items, n).None? by { assert items[..0] == []; }
    assert Outcome(NodeRule(), "c", TRACKED.nodes, byKey, items, {}, TRACKED.nodes);
    assert AcceptableAt(NodeRule(), TRACKED.nodes, "c", items, 0) by { assert "m" in TRACKED.nodes; }
  }

  lemma GuestVanishes()
    ensures InstancesFollow("c", DELETED, map["lxd1" := "m"], TRACKED, CLEARED)
  {
    var place, none: seq<InstanceInfo> := map["lxd1" := "m"], [];
    var byKey := map["web" := SEEN];
    assert Indexes(InstanceRule(place), TRACKED.instances, "c", byKey);
    var missing := Missing(InstanceRule(place), byKey, none);
    assert "web" in missing;
    assert CLEARED.instances["i"] == Expected(InstanceRule(place), "c", byKey, none, missing, SEEN);
    assert Outcome(InstanceRule(place), "c", TRACKED.instances, byKey, none, missing, CLEARED.instances);
  }

  lemma GuestReturns()
    ensures Scheduled(CLEARED.nodes, CLEARED.instances, "c", {}, REPLACED.instances, false)
  {
    var nodes, insts := [HOST], [VANISHED];
    assert nodes[..0] == [] && insts[..0] == [];
    assert Used(insts, "m") == Load(0, 0, 0);
    assert Eligible(HOST, insts, Ask(VANISHED));
    assert Best(nodes, insts, Ask(VANISHED)) == Some(HOST);
    assert Pass(nodes, insts, 0, {}) == (insts, false);
    PassUnfold(nodes, insts, 1, {});
    assert Turn(nodes, insts, 0, {}) == [RETURNED] by { assert insts[0 := RETURNED] == [RETURNED]; }
    hide Best, Used;
    assert CLEARED.instances["i"] in insts && CLEARED.nodes["m"] in nodes && REPLACED.instances["i"] in [RETURNED];
    assert ScheduledFrom(nodes, insts, CLEARED.instances, "c", {}, REPLACED.instances, false);
  }

  // Every instance without a placement, unknown ones and ones on unresolved locations too, keeps
  // its status and is placed, exactly when at its turn it fits on some node.
  lemma UnplacedExactlyWhenNothingFits(c: string, nodes: seq<Node>, insts: seq<Instance>, before: Rows<InstanceBody>,
                                       lost: set<string>, after: Rows<InstanceBody>, flag: bool, k: nat)
    requires GoodNodes(nodes) && ScheduledFrom(nodes, insts, before, c, lost, after, flag)
    requires Waiting(insts, k) && insts[k].id !in lost
    ensures var id := insts[k].id;
            && id in after && after[id].body.status == insts[k].body.status
            && (after[id].body.nodeId == "" <==> NothingFits(nodes, Pass(nodes, insts, k, lost).0, k))
  {
    hide Best, NothingFits, Pass, GoodNodes;
    var fin := Pass(nodes, insts, |insts|, lost).0;
    PassShape(nodes, insts, |insts|, lost);
    assert fin[k].id == insts[k].id && after[fin[k].id] == fin[k];
    WaitsExactlyWhenNothingFits(nodes, insts, |insts|, lost, k);
  }

  // ----- an instance without a location -----

  // A location LXD leaves empty is resolved to a node exactly when the cluster has a row without
  // member name.
  lemma EmptyLocationResolved(nodes: Rows<NodeBody>, c: string, place: map<string, string>)
    requires Keyed(nodes) && Resolves(nodes, c, place)
    ensures Locate(place, "") != "" <==> exists id | id in nodes :: nodes[id].owner == c && nodes[id].body.member == ""
  {
    if "" in place { assert place[""] in nodes; }
  }

  const STRAY := InstanceInfo("stray", "Running", "container", "", None)
  const STRANDED := Row("s", "c", "stray", 0, InstanceBody("n", "container", Running, 0, 0, 0, None))

  // So a complete instance sync can put an instance on the row of a server still in flight.
  lemma PlacedOnServerInFlight()
    ensures Inert(BEFORE.nodes, "c", "n") && Resolves(BEFORE.nodes, "c", map["" := "n"])
    ensures Completed(InstanceRule(map["" := "n"]), "c", map[], [STRAY], map["s" := STRANDED])
  {
    var place, items, none := map["" := "n"], [STRAY], map[];
    var after := map["s" := STRANDED];
    var byKey: map<string, Instance> := map[];
    assert Indexes(InstanceRule(place), none, "c", byKey);
    assert Missing(InstanceRule(place), byKey, items) == {};
    assert InstanceRule(place).name(STRAY) == "stray";
    assert Report(InstanceRule(place), items, "stray") == Some(STRAY);
    assert items[..0] == [];
    assert forall n | n != "stray" :: Report(InstanceRule(place), items, n).None?;
    assert Added(InstanceRule(place), "c", byKey, items, STRANDED);
    assert Arrived(none, after, "stray") by { assert after["s"].name == "stray"; }
    assert Outcome(InstanceRule(place), "c", none, byKey, items, {}, after);
  }
}
