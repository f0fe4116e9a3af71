// A pass over one cluster reads and writes only that cluster's rows, so the arbitrary order in
// which the cluster list is walked does not matter when the answers are fixed per cluster.
module Isolation {
  import opened Model
  import opened Memory
  import opened Lxd
  import opened Reconcile
  import opened Views
  import opened NodeSync
  import opened InstanceSync
  import opened Scheduler
  import opened Placement
  import opened Fleet

  ghost function Only<P(!new)>(rows: Rows<P>, c: string): Rows<P> {
    map id | id in rows && rows[id].owner == c :: rows[id]
  }

  ghost function OnlyFleet(s: Fleet, c: string): Fleet {
    Fleet(Only(s.nodes, c), Only(s.instances, c))
  }

  ghost predicate KeptFleet(c: string, s: Fleet, s': Fleet) {
    Kept(c, s.nodes, s'.nodes) && Kept(c, s.instances, s'.instances)
  }

  // The rows of cluster c replaced by `part`.
  ghost function Graft<P(!new)>(rows: Rows<P>, c: string, part: Rows<P>): Rows<P> {
    map id | id in rows.Keys + part.Keys && (id in part || rows[id].owner != c) ::
      if id in part then part[id] else rows[id]
  }

  // ----- each step, on all rows and on the cluster's rows -----

  lemma OnlySound<P(!new)>(rows: Rows<P>, c: string)
    requires Sound(rows)
    ensures Sound(Only(rows, c))
  {
  }

  lemma SoundFromOnly<P(!new)>(c: string, before: Rows<P>, after: Rows<P>)
    requires Sound(before) && Kept(c, before, after) && Sound(Only(after, c))
    ensures Sound(after)
  {
    forall id | id in after ensures id != "" && after[id].id == id {
      if after[id].owner == c {
        assert id in Only(after, c) && Only(after, c)[id] == after[id];
      } else {
        assert id in before;
      }
    }
    forall a, b | a in after && b in after && after[a].owner == after[b].owner && after[a].name == after[b].name
      ensures a == b {
      if after[a].owner == c {
        assert a in Only(after, c) && b in Only(after, c);
      }
    }
  }

  lemma IndexesOnly<P(!new), M(!new)>(rule: Rule<P, M>, rows: Rows<P>, c: string, byKey: map<string, Row<P>>)
    ensures Indexes(rule, Only(rows, c), c, byKey) <==> Indexes(rule, rows, c, byKey)
  {
    if Indexes(rule, Only(rows, c), c, byKey) {
      forall id | id in rows && rows[id].owner == c ensures rule.key(rows[id]) in byKey {
        assert id in Only(rows, c) && Only(rows, c)[id] == rows[id];
      }
    }
  }

  lemma OutcomeOnly<P(!new), M(!new)>(rule: Rule<P, M>, c: string, before: Rows<P>, byKey: map<string, Row<P>>,
                                      done: seq<M>, marked: set<string>, after: Rows<P>)
    requires Sound(before) && Kept(c, before, after)
    ensures Outcome(rule, c, Only(before, c), byKey, done, marked, Only(after, c))
            <==> Outcome(rule, c, before, byKey, done, marked, after)
  {
    var b, a := Only(before, c), Only(after, c);
    assert forall id | id in before :: after[id].owner == before[id].owner;
    assert forall id :: id in b <==> id in before && before[id].owner == c;
    assert forall id :: id in a <==> id in after && after[id].owner == c;
    assert forall id | id in after && id !in before :: id in a && id !in b && a[id] == after[id];
    assert forall id | id in a && id !in b :: id in after && id !in before;
    assert OldRows(rule, c, b, byKey, done, marked, a) <==> OldRows(rule, c, before, byKey, done, marked, after) by {
      OldRowsOnly(rule, c, before, byKey, done, marked, after);
    }
    assert NewRows(rule, c, b, byKey, done, a) <==> NewRows(rule, c, before, byKey, done, after) by {
      hide Added;
      if NewRows(rule, c, b, byKey, done, a) {
        forall id | id in after && id !in before ensures Added(rule, c, byKey, done, after[id]) {
          assert id in a && id !in b;
        }
      }
    }
    forall n ensures Arrived(b, a, n) <==> Arrived(before, after, n) {
      if Arrived(before, after, n) {
        var id :| id in after && id !in before && after[id].name == n;
        assert id in a && id !in b && a[id].name == n;
      }
    }
    if Sound(after) { OnlySound(after, c); }
    if Sound(a) { SoundFromOnly(c, before, after); }
    hide OldRows, NewRows, Sound, Arrived, Kept;
  }

  lemma OldRowsOnly<P(!new), M(!new)>(rule: Rule<P, M>, c: string, before: Rows<P>, byKey: map<string, Row<P>>,
                                      done: seq<M>, marked: set<string>, after: Rows<P>)
    requires Kept(c, before, after)
    ensures OldRows(rule, c, Only(before, c), byKey, done, marked, Only(after, c))
            <==> OldRows(rule, c, before, byKey, done, marked, after)
  {
    var b, a := Only(before, c), Only(after, c);
    if OldRows(rule, c, b, byKey, done, marked, a) {
      forall id | id in before ensures after[id] == Expected(rule, c, byKey, done, marked, before[id]) {
        if before[id].owner == c { assert id in b && id in a; }
      }
    }
    if OldRows(rule, c, before, byKey, done, marked, after) {
      forall id | id in b ensures id in a && a[id] == Expected(rule, c, byKey, done, marked, b[id]) {
        assert after[id] == Expected(rule, c, byKey, done, marked, before[id]);
      }
    }
  }

  lemma ReachedOnly<P(!new), M(!new)>(rule: Rule<P, M>, c: string, before: Rows<P>, items: seq<M>, reach: Reach,
                                      after: Rows<P>)
    requires Sound(before) && Kept(c, before, after)
    ensures Reached(rule, c, Only(before, c), items, reach, Only(after, c))
            <==> Reached(rule, c, before, items, reach, after)
  {
    hide Outcome, Indexes, Sound, Kept, Only;
    forall byKey: map<string, Row<P>>
      ensures ReachedBy(rule, c, Only(before, c), byKey, items, reach, Only(after, c))
              <==> ReachedBy(rule, c, before, byKey, items, reach, after)
    {
      IndexesOnly(rule, before, c, byKey);
      if reach.upserts <= |items| {
        OutcomeOnly(rule, c, before, byKey, items[..reach.upserts], reach.marked, after);
      }
    }
  }

  lemma ListsOnly<P(!new)>(rows: Rows<P>, c: string, out: seq<Row<P>>)
    ensures Lists(Only(rows, c), c, out) <==> Lists(rows, c, out)
  {
    if Lists(Only(rows, c), c, out) {
      forall id | id in rows && rows[id].owner == c ensures rows[id] in out {
        assert id in Only(rows, c) && Only(rows, c)[id] == rows[id];
      }
    }
  }

  lemma ResolvesOnly(nodes: Rows<NodeBody>, c: string, place: map<string, string>)
    ensures Resolves(Only(nodes, c), c, place) <==> Resolves(nodes, c, place)
  {
    if Resolves(Only(nodes, c), c, place) {
      forall id | id in nodes && nodes[id].owner == c ensures nodes[id].body.member in place {
        assert id in Only(nodes, c) && Only(nodes, c)[id] == nodes[id];
      }
    }
  }

  lemma ScheduledFromOnly(nodes: seq<Node>, insts: seq<Instance>, c: string, before: Rows<InstanceBody>,
                          lost: set<string>, after: Rows<InstanceBody>, flag: bool)
    requires Sound(before) && Kept(c, before, after)
    requires (forall id | id in after :: id in before) || (forall id | id in Only(after, c) :: id in Only(before, c))
    ensures ScheduledFrom(nodes, insts, Only(before, c), c, lost, Only(after, c), flag)
            <==> ScheduledFrom(nodes, insts, before, c, lost, after, flag)
  {
    hide Pass;
    var fin := Pass(nodes, insts, |insts|, lost).0;
    ListsOnly(after, c, fin);
    var b, a := Only(before, c), Only(after, c);
    assert forall id | id in after && id !in before :: id in a;
    assert after.Keys == before.Keys;
    assert a.Keys == b.Keys;
    assert Keyed(a) <==> Keyed(after) by {
      if Keyed(a) {
        forall id | id in after ensures id != "" && after[id].id == id {
          if after[id].owner == c { assert id in a; }
        }
      }
    }
  }

  lemma ScheduledOnly(nodeRows: Rows<NodeBody>, c: string, before: Rows<InstanceBody>, lost: set<string>,
                      after: Rows<InstanceBody>, flag: bool)
    requires Sound(before) && Kept(c, before, after)
    ensures Scheduled(Only(nodeRows, c), Only(before, c), c, lost, Only(after, c), flag)
            <==> Scheduled(nodeRows, before, c, lost, after, flag)
  {
    hide Lists;
    forall nodes, insts
      ensures && Lists(Only(nodeRows, c), c, nodes) && Lists(Only(before, c), c, insts)
              && ScheduledFrom(nodes, insts, Only(before, c), c, lost, Only(after, c), flag)
              <==>
              && Lists(nodeRows, c, nodes) && Lists(before, c, insts)
              && ScheduledFrom(nodes, insts, before, c, lost, after, flag)
    {
      ListsOnly(nodeRows, c, nodes);
      ListsOnly(before, c, insts);
      if ScheduledFrom(nodes, insts, Only(before, c), c, lost, Only(after, c), flag)
          || ScheduledFrom(nodes, insts, before, c, lost, after, flag) {
        ScheduledFromOnly(nodes, insts, c, before, lost, after, flag);
      }
    }
  }

  // One more row of cluster c, seen on all rows and on the cluster's rows.
  lemma OneMoreOnly<P(!new)>(c: string, before: Rows<P>, after: Rows<P>, id: string)
    requires Kept(c, before, after) && id in after && id !in before
    ensures Only(after, c) == Only(before, c)[id := after[id]] <==> after == before[id := after[id]]
  {
    var b, a := Only(before, c), Only(after, c);
    if a == b[id := after[id]] {
      forall x | x in after ensures x in before[id := after[id]] && before[id := after[id]][x] == after[x] {
        if x != id && after[x].owner == c { assert x in a && x in b && a[x] == b[x]; }
      }
      assert after == before[id := after[id]];
    }
  }

  lemma NoneMoreOnly<P(!new)>(c: string, before: Rows<P>, after: Rows<P>)
    requires Kept(c, before, after)
    ensures Only(after, c) == Only(before, c) <==> after == before
  {
    var b, a := Only(before, c), Only(after, c);
    if a == b {
      forall x | x in after ensures x in before && before[x] == after[x] {
        if after[x].owner == c { assert x in a && x in b && a[x] == b[x]; }
      }
      assert after == before;
    }
  }

  lemma TakenOnly<P(!new)>(rows: Rows<P>, c: string, n: string)
    ensures Taken(Only(rows, c), c, n) <==> Taken(rows, c, n)
  {
    if Taken(rows, c, n) {
      var id :| id in rows && rows[id].owner == c && rows[id].name == n;
      assert id in Only(rows, c) && Only(rows, c)[id].name == n;
    }
  }

  lemma HiredOnly(c: string, server: Option<Server>, before: Rows<NodeBody>, after: Rows<NodeBody>)
    requires Sound(before) && Kept(c, before, after)
    ensures Hired(c, server, Only(before, c), Only(after, c)) <==> Hired(c, server, before, after)
  {
    var b, a := Only(before, c), Only(after, c);
    NoneMoreOnly(c, before, after);
    assert forall id :: IsProvisioning(b, c, id) <==> IsProvisioning(before, c, id);
    if server.Some? {
      TakenOnly(before, c, server.value.name);
      assert forall id :: id in a && id !in b <==> id in after && id !in before;
      forall id | id in after && id !in before
        ensures id in a && a[id] == after[id] && (a == b[id := a[id]] <==> after == before[id := after[id]])
      {
        OneMoreOnly(c, before, after, id);
      }
    }
    hide Kept, Sound, Only, IsProvisioning;
  }

  // ----- a whole pass -----

  // Each step of a pass is the same step of the cluster's rows, under the same answers.
  lemma NodesSyncedOnly(c: string, sync: Option<Sync<MemberData>>, s: Fleet, s': Fleet)
    requires Sound(s.nodes) && KeptFleet(c, s, s') && s'.instances == s.instances
    ensures NodesSynced(c, sync, OnlyFleet(s, c), OnlyFleet(s', c)) <==> NodesSynced(c, sync, s, s')
  {
    hide Reached, Only;
    match sync
    case None => NoneMoreOnly(c, s.nodes, s'.nodes);
    case Some(y) => ReachedOnly(NodeRule(), c, s.nodes, y.items, y.reach, s'.nodes);
  }

  lemma InstancesSyncedOnly(c: string, sync: Option<Sync<InstanceInfo>>, s: Fleet, s': Fleet)
    requires Sound(s.instances) && KeptFleet(c, s, s') && s'.nodes == s.nodes
    ensures InstancesSynced(c, sync, OnlyFleet(s, c), OnlyFleet(s', c)) <==> InstancesSynced(c, sync, s, s')
  {
    hide Reached, Resolves, Only;
    match sync
    case None => NoneMoreOnly(c, s.instances, s'.instances);
    case Some(y) =>
      forall place
        ensures InstancesReached(c, place, y, OnlyFleet(s, c), OnlyFleet(s', c))
                <==> InstancesReached(c, place, y, s, s')
      {
        ResolvesOnly(s.nodes, c, place);
        ReachedOnly(InstanceRule(place), c, s.instances, y.items, y.reach, s'.instances);
      }
  }

  lemma PlacingOnly(c: string, lost: Option<set<string>>, s: Fleet, s': Fleet, flag: bool)
    requires Sound(s.instances) && KeptFleet(c, s, s') && s'.nodes == s.nodes
    ensures Placing(c, lost, OnlyFleet(s, c), OnlyFleet(s', c), flag) <==> Placing(c, lost, s, s', flag)
  {
    hide Scheduled, Only;
    match lost
    case None => NoneMoreOnly(c, s.instances, s'.instances);
    case Some(ids) => ScheduledOnly(s.nodes, c, s.instances, ids, s'.instances, flag);
  }

  lemma GrownOnly(c: string, server: Option<Server>, s: Fleet, s': Fleet)
    requires Sound(s.nodes) && KeptFleet(c, s, s') && s'.instances == s.instances
    ensures Grown(c, server, OnlyFleet(s, c), OnlyFleet(s', c)) <==> Grown(c, server, s, s')
  {
    hide Hired, Only;
    HiredOnly(c, server, s.nodes, s'.nodes);
  }

  lemma SoundParts(s: Fleet)
    requires Healthy(s)
    ensures Sound(s.nodes) && Sound(s.instances)
  {
  }

  // Which table a step leaves alone.
  ghost predicate SameParts(s: Fleet, s1: Fleet, s2: Fleet, s3: Fleet, s': Fleet) {
    s1.instances == s.instances && s2.nodes == s1.nodes && s3.nodes == s2.nodes && s'.instances == s3.instances
  }

  lemma StagesOnly(c: string, e: Env, s: Fleet, s1: Fleet, s2: Fleet, s3: Fleet, s': Fleet, flag: bool)
    requires Sound(s.nodes) && Sound(s1.instances) && Sound(s2.instances) && Sound(s3.nodes)
    requires KeptFleet(c, s, s1) && KeptFleet(c, s1, s2) && KeptFleet(c, s2, s3) && KeptFleet(c, s3, s')
    requires SameParts(s, s1, s2, s3, s')
    ensures PassVia(c, e, OnlyFleet(s, c), OnlyFleet(s1, c), OnlyFleet(s2, c), OnlyFleet(s3, c), OnlyFleet(s', c), flag)
            <==> PassVia(c, e, s, s1, s2, s3, s', flag)
  {
    hide NodesSynced, InstancesSynced, Placing, Grown, KeptFleet, Only, Sound;
    NodesSyncedOnly(c, e.nodes, s, s1);
    InstancesSyncedOnly(c, e.instances, s1, s2);
    PlacingOnly(c, e.lost, s2, s3, flag);
    GrownOnly(c, e.server, s3, s');
    SameOnly(c, s3, s');
  }

  lemma SameOnly(c: string, s: Fleet, s': Fleet)
    requires KeptFleet(c, s, s')
    ensures OnlyFleet(s', c) == OnlyFleet(s, c) <==> s' == s
  {
    hide Only, Kept;
    NoneMoreOnly(c, s.nodes, s'.nodes);
    NoneMoreOnly(c, s.instances, s'.instances);
  }

  lemma PassParts(c: string, e: Env, s: Fleet, s1: Fleet, s2: Fleet, s3: Fleet, s': Fleet, flag: bool)
    requires PassVia(c, e, s, s1, s2, s3, s', flag)
    ensures SameParts(s, s1, s2, s3, s')
  {
  }

  // A pass changes only its cluster's rows, and is a pass of those rows alone.
  lemma PassedProjects(c: string, e: Env, s: Fleet, s': Fleet)
    requires Healthy(s) && Passed(c, e, s, s')
    ensures KeptFleet(c, s, s') && Passed(c, e, OnlyFleet(s, c), OnlyFleet(s', c))
  {
    hide Healthy, PassVia, Only, Kept;
    PassedHealthy(c, e, s, s');
    var s1, s2, s3, flag :| PassVia(c, e, s, s1, s2, s3, s', flag);
    StagesHealthy(c, e, s, s1, s2, s3, s', flag);
    PassParts(c, e, s, s1, s2, s3, s', flag);
    SoundParts(s);
    SoundParts(s1);
    SoundParts(s2);
    SoundParts(s3);
    StagesOnly(c, e, s, s1, s2, s3, s', flag);
  }

  // ----- lifting a pass of the cluster's rows to the whole fleet -----

  ghost predicate Owned<P(!new)>(c: string, rows: Rows<P>) {
    forall id | id in rows :: rows[id].owner == c
  }

  // `part` can replace the rows of cluster c without touching an id another cluster uses.
  ghost predicate Fits<P(!new)>(rows: Rows<P>, c: string, part: Rows<P>) {
    Owned(c, part) && forall id | id in part && id in rows :: rows[id].owner == c
  }

  lemma GraftOnly<P(!new)>(rows: Rows<P>, c: string, part: Rows<P>)
    requires Fits(rows, c, part)
    ensures Only(Graft(rows, c, part), c) == part
  {
  }

  lemma GraftKept<P(!new)>(rows: Rows<P>, c: string, x: Rows<P>, y: Rows<P>)
    requires Fits(rows, c, x) && Fits(rows, c, y) && Kept(c, x, y)
    ensures Kept(c, Graft(rows, c, x), Graft(rows, c, y))
  {
  }

  lemma GraftSound<P(!new)>(rows: Rows<P>, c: string, part: Rows<P>)
    requires Sound(rows) && Fits(rows, c, part) && Sound(part) && Kept(c, Only(rows, c), part)
    ensures Sound(Graft(rows, c, part))
  {
    GraftOnly(rows, c, part);
    assert Fits(rows, c, Only(rows, c));
    GraftSelf(rows, c);
    GraftKept(rows, c, Only(rows, c), part);
    SoundFromOnly(c, rows, Graft(rows, c, part));
  }

  lemma GraftSelf<P(!new)>(rows: Rows<P>, c: string)
    ensures Graft(rows, c, Only(rows, c)) == rows
  {
  }

  lemma GraftResult<P(!new)>(c: string, rows: Rows<P>, after: Rows<P>)
    requires Kept(c, rows, after)
    ensures Graft(rows, c, Only(after, c)) == after
  {
  }

  // A stage between the cluster's rows before and after a pass fits.
  lemma StageFits<P(!new)>(c: string, rows: Rows<P>, after: Rows<P>, x: Rows<P>)
    requires Kept(c, rows, after) && Kept(c, Only(rows, c), x) && x.Keys <= Only(after, c).Keys
    ensures Fits(rows, c, x)
  {
    forall id | id in x ensures x[id].owner == c && (id in rows ==> rows[id].owner == c) {
      assert id in Only(after, c);
      if id in Only(rows, c) { assert x[id].owner == Only(rows, c)[id].owner; }
    }
  }

  ghost function GraftFleet(s: Fleet, c: string, x: Fleet): Fleet {
    Fleet(Graft(s.nodes, c, x.nodes), Graft(s.instances, c, x.instances))
  }

  ghost predicate Stage(c: string, s: Fleet, x: Fleet) {
    && Sound(x.nodes) && Sound(x.instances)
    && Kept(c, Only(s.nodes, c), x.nodes) && Kept(c, Only(s.instances, c), x.instances)
    && Fits(s.nodes, c, x.nodes) && Fits(s.instances, c, x.instances)
  }

  lemma StageGrafts(c: string, s: Fleet, x: Fleet, y: Fleet)
    requires Sound(s.nodes) && Sound(s.instances) && Stage(c, s, x) && Stage(c, s, y) && KeptFleet(c, x, y)
    ensures var g, h := GraftFleet(s, c, x), GraftFleet(s, c, y);
            && OnlyFleet(g, c) == x && OnlyFleet(h, c) == y && KeptFleet(c, g, h)
            && Sound(g.nodes) && Sound(g.instances)
  {
    hide Kept, Fits, Sound, Graft, Only;
    GraftOnly(s.nodes, c, x.nodes);
    GraftOnly(s.instances, c, x.instances);
    GraftOnly(s.nodes, c, y.nodes);
    GraftOnly(s.instances, c, y.instances);
    GraftKept(s.nodes, c, x.nodes, y.nodes);
    GraftKept(s.instances, c, x.instances, y.instances);
    GraftSound(s.nodes, c, x.nodes);
    GraftSound(s.instances, c, x.instances);
  }

  lemma OnlyHealthy(s: Fleet, c: string)
    requires Healthy(s)
    ensures Healthy(OnlyFleet(s, c))
  {
    var o := OnlyFleet(s, c);
    OnlySound(s.nodes, c);
    OnlySound(s.instances, c);
    forall id | id in o.instances ensures NodeOf(o.nodes, o.instances[id]) {
      assert NodeOf(s.nodes, s.instances[id]);
    }
    assert forall k, id :: IsProvisioning(o.nodes, k, id) ==> IsProvisioning(s.nodes, k, id);
  }

  lemma PassedLifts(c: string, e: Env, s: Fleet, s': Fleet)
    requires Healthy(s) && KeptFleet(c, s, s') && Passed(c, e, OnlyFleet(s, c), OnlyFleet(s', c))
    ensures Passed(c, e, s, s')
  {
    hide Healthy, PassVia, Only, Kept, Graft, Fits, Sound;
    var o, o' := OnlyFleet(s, c), OnlyFleet(s', c);
    var x1, x2, x3, flag :| PassVia(c, e, o, x1, x2, x3, o', flag);
    SoundParts(s);
    StagesOf(c, e, s, s', x1, x2, x3, flag);
    StageGrafts(c, s, o, x1);
    StageGrafts(c, s, x1, x2);
    StageGrafts(c, s, x2, x3);
    StageGrafts(c, s, x3, o');
    GraftSelf(s.nodes, c);
    GraftSelf(s.instances, c);
    GraftResult(c, s.nodes, s'.nodes);
    GraftResult(c, s.instances, s'.instances);
    var g1, g2, g3 := GraftFleet(s, c, x1), GraftFleet(s, c, x2), GraftFleet(s, c, x3);
    assert GraftFleet(s, c, o) == s && GraftFleet(s, c, o') == s';
    PassParts(c, e, o, x1, x2, x3, o', flag);
    StagesOnly(c, e, s, g1, g2, g3, s', flag);
  }

  lemma StagesOf(c: string, e: Env, s: Fleet, s': Fleet, x1: Fleet, x2: Fleet, x3: Fleet, flag: bool)
    requires Healthy(s) && KeptFleet(c, s, s') && PassVia(c, e, OnlyFleet(s, c), x1, x2, x3, OnlyFleet(s', c), flag)
    ensures var o, o' := OnlyFleet(s, c), OnlyFleet(s', c);
            && Stage(c, s, o) && Stage(c, s, x1) && Stage(c, s, x2) && Stage(c, s, x3) && Stage(c, s, o')
            && KeptFleet(c, o, x1) && KeptFleet(c, x1, x2) && KeptFleet(c, x2, x3) && KeptFleet(c, x3, o')
  {
    hide Healthy, PassVia, Only, Kept, Fits, Sound, Stage;
    var o, o' := OnlyFleet(s, c), OnlyFleet(s', c);
    OnlyHealthy(s, c);
    StagesHealthy(c, e, o, x1, x2, x3, o', flag);
    KeptFleetSelf(c, o);
    KeptFleetSelf(c, o');
    KeptFleetThrough(c, o, x1, x2);
    KeptFleetThrough(c, o, x2, x3);
    KeptFleetThrough(c, o, x3, o');
    KeptFleetThrough(c, x2, x3, o');
    KeptFleetThrough(c, x1, x2, o');
    StageHolds(c, s, s', o);
    StageHolds(c, s, s', x1);
    StageHolds(c, s, s', x2);
    StageHolds(c, s, s', x3);
    StageHolds(c, s, s', o');
  }

  lemma StageHolds(c: string, s: Fleet, s': Fleet, x: Fleet)
    requires KeptFleet(c, s, s') && Healthy(x)
    requires KeptFleet(c, OnlyFleet(s, c), x) && KeptFleet(c, x, OnlyFleet(s', c))
    ensures Stage(c, s, x)
  {
    hide Healthy, Only, Fits, Sound;
    SoundParts(x);
    StageFits(c, s.nodes, s'.nodes, x.nodes);
    StageFits(c, s.instances, s'.instances, x.instances);
  }

  lemma KeptFleetSelf(c: string, s: Fleet)
    ensures KeptFleet(c, s, s)
  {
  }

  lemma KeptFleetThrough(c: string, a: Fleet, b: Fleet, d: Fleet)
    requires KeptFleet(c, a, b) && KeptFleet(c, b, d)
    ensures KeptFleet(c, a, d)
  {
    KeptThrough(c, a.nodes, b.nodes, d.nodes);
    KeptThrough(c, a.instances, b.instances, d.instances);
  }

  // A pass over cluster c is exactly a pass of its own rows under the same answers, with every
  // other row untouched.
  lemma PassIsLocal(c: string, e: Env, s: Fleet, s': Fleet)
    requires Healthy(s)
    ensures Passed(c, e, s, s') <==> KeptFleet(c, s, s') && Passed(c, e, OnlyFleet(s, c), OnlyFleet(s', c))
  {
    hide Passed, Healthy, KeptFleet;
    if Passed(c, e, s, s') { PassedProjects(c, e, s, s'); }
    if KeptFleet(c, s, s') && Passed(c, e, OnlyFleet(s, c), OnlyFleet(s', c)) { PassedLifts(c, e, s, s'); }
  }

  // ----- passes over a list of clusters -----

  // The answers each cluster meets, whenever its turn comes.
  type Answered = map<string, Env>

  function EnvOf(envs: Answered, c: string): Env {
    if c in envs then envs[c] else Env(None, None, None, None)
  }

  ghost predicate PassedAll(clusters: seq<string>, envs: Answered, s: Fleet, s': Fleet)
    decreases |clusters|, 0
  {
    if clusters == [] then s' == s
    else PassedThen(clusters[..|clusters| - 1], clusters[|clusters| - 1], envs, s, s')
  }

  ghost predicate PassedThen(front: seq<string>, c: string, envs: Answered, s: Fleet, s': Fleet)
    decreases |front|, 1
  {
    exists m :: PassedAll(front, envs, s, m) && Passed(c, EnvOf(envs, c), m, s')
  }

  // The same without any order: every listed cluster passed on its own rows, every other
  // cluster's rows are as they were, and no row changed hands.
  ghost predicate PassedEach(clusters: set<string>, envs: Answered, s: Fleet, s': Fleet) {
    && Settled(s.nodes, s'.nodes) && Settled(s.instances, s'.instances)
    && (forall c | c !in clusters :: OnlyFleet(s', c) == OnlyFleet(s, c))
    && (forall c | c in clusters :: Passed(c, EnvOf(envs, c), OnlyFleet(s, c), OnlyFleet(s', c)))
  }

  ghost predicate Settled<P(!new)>(before: Rows<P>, after: Rows<P>) {
    forall id | id in before :: id in after && after[id].owner == before[id].owner
  }

  ghost function Elements(s: seq<string>): set<string> {
    set c | c in s
  }

  lemma {:induction false} AllIsEach(clusters: seq<string>, envs: Answered, s: Fleet, s': Fleet)
    requires Healthy(s) && forall i, j | 0 <= i < j < |clusters| :: clusters[i] != clusters[j]
    ensures PassedAll(clusters, envs, s, s') <==> PassedEach(Elements(clusters), envs, s, s')
    ensures PassedAll(clusters, envs, s, s') ==> Healthy(s')
  {
    hide Healthy, Passed;
    if clusters == [] {
      assert Elements(clusters) == {};
      AllSame(envs, s, s');
    } else {
      var n := |clusters| - 1;
      var front, c := clusters[..n], clusters[n];
      assert Elements(clusters) == Elements(front) + {c};
      if PassedAll(clusters, envs, s, s') {
        assert PassedThen(front, c, envs, s, s');
        var m :| PassedAll(front, envs, s, m) && Passed(c, EnvOf(envs, c), m, s');
        AllIsEach(front, envs, s, m);
        PassedHealthy(c, EnvOf(envs, c), m, s');
        PassIsLocal(c, EnvOf(envs, c), m, s');
        EachMore(Elements(front), c, envs, s, m, s');
      }
      if PassedEach(Elements(clusters), envs, s, s') {
        var m := Fleet(Rewind(c, s.nodes, s'.nodes), Rewind(c, s.instances, s'.instances));
        EachLess(Elements(front), c, envs, s, m, s');
        AllIsEach(front, envs, s, m);
        PassIsLocal(c, EnvOf(envs, c), m, s');
        assert PassedThen(front, c, envs, s, s');
      }
    }
  }

  // `after` with the rows of cluster c as they were before.
  ghost function Rewind<P(!new)>(c: string, before: Rows<P>, after: Rows<P>): Rows<P> {
    map id | id in after && (after[id].owner != c || id in before) ::
      if after[id].owner == c then before[id] else after[id]
  }

  lemma RewindParts<P(!new)>(c: string, before: Rows<P>, after: Rows<P>, k: string)
    requires Settled(before, after)
    ensures Only(Rewind(c, before, after), k) == if k == c then Only(before, c) else Only(after, k)
    ensures Settled(before, Rewind(c, before, after))
  {
  }

  // Rows of one cluster kept, all others the same, is kept.
  lemma KeptFromParts<P(!new)>(c: string, m: Rows<P>, after: Rows<P>)
    requires Kept(c, Only(m, c), Only(after, c)) && forall k | k != c :: Only(after, k) == Only(m, k)
    ensures Kept(c, m, after)
  {
    forall id | id in m
      ensures id in after && after[id] == m[id].(body := after[id].body) && (m[id].owner != c ==> after[id] == m[id]) {
      var k := m[id].owner;
      assert id in Only(m, k);
      assert id in Only(after, k);
    }
    forall id | id in after && id !in m ensures after[id].owner == c {
      var k := after[id].owner;
      assert id in Only(after, k);
    }
  }

  lemma AllSame(envs: Answered, s: Fleet, s': Fleet)
    ensures s' == s <==> PassedEach({}, envs, s, s')
  {
    if PassedEach({}, envs, s, s') {
      forall c ensures Only(s'.nodes, c) == Only(s.nodes, c) && Only(s'.instances, c) == Only(s.instances, c) {
        assert OnlyFleet(s', c) == OnlyFleet(s, c);
      }
      SameEverywhere(s.nodes, s'.nodes);
      SameEverywhere(s.instances, s'.instances);
    }
  }

  lemma SameEverywhere<P(!new)>(a: Rows<P>, b: Rows<P>)
    requires forall c :: Only(b, c) == Only(a, c)
    ensures b == a
  {
    forall id | id in a ensures id in b && b[id] == a[id] { assert id in Only(a, a[id].owner); }
    forall id | id in b ensures id in a { assert id in Only(b, b[id].owner); }
  }

  lemma EachMore(front: set<string>, c: string, envs: Answered, s: Fleet, m: Fleet, s': Fleet)
    requires c !in front && PassedEach(front, envs, s, m)
    requires KeptFleet(c, m, s') && Passed(c, EnvOf(envs, c), OnlyFleet(m, c), OnlyFleet(s', c))
    ensures PassedEach(front + {c}, envs, s, s')
  {
    hide Passed;
    forall k | k != c ensures OnlyFleet(s', k) == OnlyFleet(m, k) {
      OthersSame(c, m.nodes, s'.nodes, k);
      OthersSame(c, m.instances, s'.instances, k);
    }
    assert OnlyFleet(m, c) == OnlyFleet(s, c);
  }

  lemma OthersSame<P(!new)>(c: string, before: Rows<P>, after: Rows<P>, k: string)
    requires Kept(c, before, after) && k != c
    ensures Only(after, k) == Only(before, k)
  {
  }

  lemma EachLess(front: set<string>, c: string, envs: Answered, s: Fleet, m: Fleet, s': Fleet)
    requires Healthy(s) && c !in front && PassedEach(front + {c}, envs, s, s')
    requires m == Fleet(Rewind(c, s.nodes, s'.nodes), Rewind(c, s.instances, s'.instances))
    ensures PassedEach(front, envs, s, m)
    ensures KeptFleet(c, m, s') && Passed(c, EnvOf(envs, c), OnlyFleet(m, c), OnlyFleet(s', c))
  {
    hide Passed, Healthy, Only, Rewind, Kept, Settled;
    forall k ensures OnlyFleet(m, k) == if k == c then OnlyFleet(s, c) else OnlyFleet(s', k) {
      RewindParts(c, s.nodes, s'.nodes, k);
      RewindParts(c, s.instances, s'.instances, k);
    }
    RewindParts(c, s.nodes, s'.nodes, c);
    RewindParts(c, s.instances, s'.instances, c);
    OnlyHealthy(s, c);
    PassedHealthy(c, EnvOf(envs, c), OnlyFleet(s, c), OnlyFleet(s', c));
    forall k | k != c ensures Only(s'.nodes, k) == Only(m.nodes, k) && Only(s'.instances, k) == Only(m.instances, k) {
      assert OnlyFleet(m, k) == OnlyFleet(s', k);
    }
    KeptFromParts(c, m.nodes, s'.nodes);
    KeptFromParts(c, m.instances, s'.instances);
  }

  // When the answers are fixed per cluster, whatever a reconcile pass can make of the store in
  // one order of the cluster list, it can make of it in any other.
  lemma ClusterOrderIrrelevant(clusters: seq<string>, order: seq<string>, envs: Answered, s: Fleet, s': Fleet)
    requires Healthy(s) && forall i, j | 0 <= i < j < |clusters| :: clusters[i] != clusters[j]
    requires forall i, j | 0 <= i < j < |order| :: order[i] != order[j]
    requires multiset(order) == multiset(clusters)
    ensures PassedAll(clusters, envs, s, s') <==> PassedAll(order, envs, s, s')
  {
    SameMembers(clusters, order);
    assert Elements(clusters) == Elements(order);
    AllIsEach(clusters, envs, s, s');
    AllIsEach(order, envs, s, s');
  }
}
