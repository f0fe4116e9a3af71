// What a sync means for one cluster, seen by reported name: a map from names to bodies. Ids
// and creation times of new rows are arbitrary, everything else is determined.
module Views {
  import opened Model
  import opened Memory
  import opened Reconcile

  ghost predicate KeysDistinct<P(!new), M(!new)>(rule: Rule<P, M>, rows: Rows<P>, cluster: string) {
    forall a, b | a in rows && b in rows && rows[a].owner == cluster && rows[b].owner == cluster
        && rule.key(rows[a]) == rule.key(rows[b]) :: a == b
  }

  ghost function Keys<P(!new), M(!new)>(rule: Rule<P, M>, rows: Rows<P>, cluster: string): set<string> {
    set id | id in rows && rows[id].owner == cluster :: rule.key(rows[id])
  }

  ghost function IdOf<P(!new), M(!new)>(rule: Rule<P, M>, rows: Rows<P>, cluster: string, n: string): (id: string)
    requires n in Keys(rule, rows, cluster)
    ensures id in rows && rows[id].owner == cluster && rule.key(rows[id]) == n
  {
    var id :| id in rows && rows[id].owner == cluster && rule.key(rows[id]) == n;
    id
  }

  ghost function View<P(!new), M(!new)>(rule: Rule<P, M>, rows: Rows<P>, cluster: string): map<string, P> {
    map n | n in Keys(rule, rows, cluster) :: rows[IdOf(rule, rows, cluster, n)].body
  }

  // The laws a rule obeys: following the same report twice is following it once, marking is
  // idempotent, and neither changes which reports a record answers to.
  ghost predicate Lawful<P(!new), M(!new)>(rule: Rule<P, M>) {
    && (forall p, m :: rule.refresh(rule.refresh(p, m), m) == rule.refresh(p, m))
    && (forall p, m :: rule.refresh(rule.gone(p), m) == rule.refresh(p, m))
    && (forall m :: rule.refresh(rule.create(m), m) == rule.create(m))
    && (forall p :: rule.gone(rule.gone(p)) == rule.gone(p))
    && (forall r: Row<P>, m :: rule.key(r.(body := rule.refresh(r.body, m))) == rule.key(r))
    && (forall r: Row<P> :: rule.key(r.(body := rule.gone(r.body))) == rule.key(r))
    && (forall r: Row<P>, m | r.name == rule.name(m) && r.body == rule.create(m) :: rule.key(r) == rule.name(m))
  }

  // ----- the meaning of an attempt -----

  ghost function NameSet<P(!new), M(!new)>(rule: Rule<P, M>, items: seq<M>): set<string> {
    set m | m in items :: rule.name(m)
  }

  ghost function After<P(!new), M(!new)>(rule: Rule<P, M>, view: map<string, P>, done: seq<M>, marked: set<string>,
                                         n: string): P
    requires n in view.Keys + NameSet(rule, done)
  {
    match Report(rule, done, n)
    case Some(m) => if n in view then rule.refresh(view[n], m) else rule.create(m)
    case None => if n in marked then rule.gone(view[n]) else view[n]
  }

  // The cluster after the items in `done` were upserted and the names in `marked` were marked.
  ghost function Partial<P(!new),
      M(!new)>(rule: Rule<P, M>, view: map<string, P>, done: seq<M>, marked: set<string>): map<string, P> {
    map n | n in view.Keys + NameSet(rule, done) :: After(rule, view, done, marked, n)
  }

  // The declarative post-state: one record per reported item, refreshed or new, and every
  // other record marked.
  ghost function Target<P(!new), M(!new)>(rule: Rule<P, M>, view: map<string, P>, items: seq<M>): map<string, P> {
    Partial(rule, view, items, view.Keys - NameSet(rule, items))
  }

  lemma OldRow<P(!new), M(!new)>(rule: Rule<P, M>, cluster: string, before: Rows<P>, byKey: map<string, Row<P>>,
                                 done: seq<M>, marked: set<string>, after: Rows<P>, id: string)
    requires Lawful(rule) && Sound(before) && KeysDistinct(rule, before, cluster)
    requires Indexes(rule, before, cluster, byKey)
    requires OldRows(rule, cluster, before, byKey, done, marked, after)
    requires id in before && before[id].owner == cluster
    ensures after[id].owner == cluster && rule.key(after[id]) == rule.key(before[id])
    ensures rule.key(before[id]) in View(rule, before, cluster) && rule.key(before[id]) in byKey
    ensures after[id].body == Partial(rule, View(rule, before, cluster), done, marked)[rule.key(before[id])]
  {
    var n := rule.key(before[id]);
    assert n in Keys(rule, before, cluster) && IdOf(rule, before, cluster, n) == id;
    assert byKey[n] == before[id];
    assert after[id] == Expected(rule, cluster, byKey, done, marked, before[id]);
  }

  lemma NewRow<P(!new), M(!new)>(rule: Rule<P, M>, cluster: string, before: Rows<P>, byKey: map<string, Row<P>>,
                                 done: seq<M>, marked: set<string>, after: Rows<P>, id: string)
    requires Lawful(rule) && Indexes(rule, before, cluster, byKey)
    requires NewRows(rule, cluster, before, byKey, done, after)
    requires id in after && id !in before
    ensures after[id].owner == cluster && rule.key(after[id]) == after[id].name
    ensures after[id].name !in View(rule, before, cluster) && after[id].name !in byKey
    ensures after[id].name in NameSet(rule, done)
    ensures after[id].body == Partial(rule, View(rule, before, cluster), done, marked)[after[id].name]
  {
    var n := after[id].name;
    assert Added(rule, cluster, byKey, done, after[id]);
    assert n !in Keys(rule, before, cluster);
  }

  lemma ViewAfter<P(!new), M(!new)>(rule: Rule<P, M>, cluster: string, before: Rows<P>, byKey: map<string, Row<P>>,
                                    done: seq<M>, marked: set<string>, after: Rows<P>)
    requires Lawful(rule) && Sound(before) && KeysDistinct(rule, before, cluster)
    requires Indexes(rule, before, cluster, byKey)
    requires Outcome(rule, cluster, before, byKey, done, marked, after)
    ensures KeysDistinct(rule, after, cluster)
    ensures View(rule, after, cluster) == Partial(rule, View(rule, before, cluster), done, marked)
  {
    KeysDistinctAfter(rule, cluster, before, byKey, done, marked, after);
    hide Lawful, Partial, Outcome, Sound, Indexes, KeysDistinct, View, Keys;
    var goal := Partial(rule, View(rule, before, cluster), done, marked);
    forall id | id in after && after[id].owner == cluster
      ensures rule.key(after[id]) in goal && after[id].body == goal[rule.key(after[id])]
    {
      RowAfter(rule, cluster, before, byKey, done, marked, after, id);
    }
    forall n | n in goal ensures n in Keys(rule, after, cluster) {
      KeyAfter(rule, cluster, before, byKey, done, marked, after, n);
    }
    ViewIs(rule, cluster, after, goal);
  }

  lemma ViewIs<P(!new), M(!new)>(rule: Rule<P, M>, cluster: string, rows: Rows<P>, goal: map<string, P>)
    requires forall id | id in rows && rows[id].owner == cluster ::
               rule.key(rows[id]) in goal && rows[id].body == goal[rule.key(rows[id])]
    requires forall n | n in goal :: n in Keys(rule, rows, cluster)
    ensures View(rule, rows, cluster) == goal
  {
    var view := View(rule, rows, cluster);
    assert forall n | n in view :: n in goal && view[n] == goal[n];
  }

  lemma KeysDistinctAfter<P(!new), M(!new)>(rule: Rule<P, M>, cluster: string, before: Rows<P>,
                                            byKey: map<string, Row<P>>, done: seq<M>, marked: set<string>,
                                            after: Rows<P>)
    requires Lawful(rule) && Sound(before) && KeysDistinct(rule, before, cluster)
    requires Indexes(rule, before, cluster, byKey)
    requires Outcome(rule, cluster, before, byKey, done, marked, after)
    ensures KeysDistinct(rule, after, cluster)
  {
    hide Lawful, Partial, OldRows, NewRows, AllArrived, Indexes;
    forall a, b | a in after && b in after && after[a].owner == cluster && after[b].owner == cluster
        && rule.key(after[a]) == rule.key(after[b])
      ensures a == b
    {
      RowAfter(rule, cluster, before, byKey, done, marked, after, a);
      RowAfter(rule, cluster, before, byKey, done, marked, after, b);
    }
  }

  lemma RowAfter<P(!new), M(!new)>(rule: Rule<P, M>, cluster: string, before: Rows<P>, byKey: map<string, Row<P>>,
                                   done: seq<M>, marked: set<string>, after: Rows<P>, id: string)
    requires Lawful(rule) && Sound(before) && KeysDistinct(rule, before, cluster)
    requires Indexes(rule, before, cluster, byKey)
    requires Outcome(rule, cluster, before, byKey, done, marked, after)
    requires id in after && after[id].owner == cluster
    ensures var goal := Partial(rule, View(rule, before, cluster), done, marked);
            rule.key(after[id]) in goal && after[id].body == goal[rule.key(after[id])]
    ensures var n := rule.key(after[id]);
            if id in before then before[id].owner == cluster && rule.key(before[id]) == n && n in byKey
            else rule.key(after[id]) == after[id].name && rule.key(after[id]) !in byKey
  {
    if id in before {
      assert after[id] == Expected(rule, cluster, byKey, done, marked, before[id]);
      OldRow(rule, cluster, before, byKey, done, marked, after, id);
    } else {
      NewRow(rule, cluster, before, byKey, done, marked, after, id);
    }
  }

  lemma KeyAfter<P(!new), M(!new)>(rule: Rule<P, M>, cluster: string, before: Rows<P>, byKey: map<string, Row<P>>,
                                   done: seq<M>, marked: set<string>, after: Rows<P>, n: string)
    requires Lawful(rule) && Sound(before) && KeysDistinct(rule, before, cluster)
    requires Indexes(rule, before, cluster, byKey)
    requires Outcome(rule, cluster, before, byKey, done, marked, after)
    requires n in Partial(rule, View(rule, before, cluster), done, marked)
    ensures n in Keys(rule, after, cluster)
  {
    if n in View(rule, before, cluster) {
      var id := IdOf(rule, before, cluster, n);
      OldRow(rule, cluster, before, byKey, done, marked, after, id);
    } else {
      assert n in NameSet(rule, done) && n !in byKey;
      assert Arrived(before, after, n);
      var id :| id in after && id !in before && after[id].name == n;
      NewRow(rule, cluster, before, byKey, done, marked, after, id);
    }
  }

  // ----- a later complete sync of the same snapshot absorbs any partial one -----

  ghost predicate SameReports<P(!new), M(!new)>(rule: Rule<P, M>, done: seq<M>, items: seq<M>) {
    forall n | Report(rule, done, n).Some? :: Report(rule, done, n) == Report(rule, items, n)
  }

  lemma TargetAbsorbs<P(!new), M(!new)>(rule: Rule<P, M>, view: map<string, P>, done: seq<M>, marked: set<string>,
                                        items: seq<M>)
    requires Lawful(rule) && SameReports(rule, done, items) && Unreported(rule, items, marked)
    ensures Target(rule, Partial(rule, view, done, marked), items) == Target(rule, view, items)
  {
    var partial := Partial(rule, view, done, marked);
    var left, right := Target(rule, partial, items), Target(rule, view, items);
    forall n ensures n in NameSet(rule, done) <==> Report(rule, done, n).Some? {}
    forall n ensures n in NameSet(rule, items) <==> Report(rule, items, n).Some? {}
    assert left.Keys == right.Keys;
    forall n | n in left ensures left[n] == right[n] {
      AbsorbsAt(rule, view, done, marked, items, n);
    }
  }

  lemma AbsorbsAt<P(!new), M(!new)>(rule: Rule<P, M>, view: map<string, P>, done: seq<M>, marked: set<string>,
                                    items: seq<M>, n: string)
    requires Lawful(rule) && SameReports(rule, done, items) && Unreported(rule, items, marked)
    requires n in Target(rule, Partial(rule, view, done, marked), items) && n in Target(rule, view, items)
    ensures Target(rule, Partial(rule, view, done, marked), items)[n] == Target(rule, view, items)[n]
  {
    assert n in NameSet(rule, done) <==> Report(rule, done, n).Some?;
    assert n in NameSet(rule, items) <==> Report(rule, items, n).Some?;
  }

  // With distinct names a report depends on what is listed, not on the order.
  lemma ReportIgnoresOrder<P(!new), M(!new)>(rule: Rule<P, M>, snapshot: seq<M>, order: seq<M>, k: nat)
    requires DistinctNames(rule, snapshot) && multiset(order) == multiset(snapshot) && k <= |order|
    ensures SameReports(rule, order[..k], snapshot)
    ensures forall n :: Report(rule, order, n) == Report(rule, snapshot, n)
  {
    SameItems(order, snapshot);
    forall n | Report(rule, order[..k], n).Some? ensures Report(rule, order[..k], n) == Report(rule, snapshot, n) {
      assert Report(rule, order[..k], n).value in order;
    }
    forall n ensures Report(rule, order, n) == Report(rule, snapshot, n) {
    }
  }

  lemma SameItems<T>(a: seq<T>, b: seq<T>)
    requires multiset(a) == multiset(b)
    ensures forall x :: x in a <==> x in b
  {
    forall x ensures x in a <==> x in b {
      assert x in a <==> x in multiset(a);
      assert x in b <==> x in multiset(b);
    }
  }

  // The post-state does not depend on the order in which LXD lists the items.
  lemma TargetIgnoresOrder<P(!new), M(!new)>(rule: Rule<P, M>, view: map<string, P>, snapshot: seq<M>, order: seq<M>)
    requires DistinctNames(rule, snapshot) && multiset(order) == multiset(snapshot)
    ensures Target(rule, view, order) == Target(rule, view, snapshot)
  {
    ReportIgnoresOrder(rule, snapshot, order, 0);
    SameItems(order, snapshot);
    assert NameSet(rule, order) == NameSet(rule, snapshot);
  }

  // ----- the same on the stored rows -----

  // No row is lost, none changes its header, and no other cluster is touched.
  ghost predicate Kept<P(!new)>(cluster: string, before: Rows<P>, after: Rows<P>) {
    && before.Keys <= after.Keys
    && (forall id | id in before :: after[id] == before[id].(body := after[id].body))
    && (forall id | id in before && before[id].owner != cluster :: after[id] == before[id])
    && (forall id | id in after && id !in before :: after[id].owner == cluster)
  }

  ghost predicate SameKeys<P(!new), M(!new)>(rule: Rule<P, M>, before: Rows<P>, after: Rows<P>) {
    forall id | id in before && id in after :: rule.key(after[id]) == rule.key(before[id])
  }

  lemma OutcomeKept<P(!new), M(!new)>(rule: Rule<P, M>, cluster: string, before: Rows<P>, byKey: map<string, Row<P>>,
                                      done: seq<M>, marked: set<string>, after: Rows<P>)
    requires Outcome(rule, cluster, before, byKey, done, marked, after)
    ensures Kept(cluster, before, after)
    ensures Lawful(rule) ==> SameKeys(rule, before, after)
  {
    forall id | id in before
      ensures after[id] == before[id].(body := after[id].body)
      ensures (before[id].owner != cluster ==> after[id] == before[id])
      ensures Lawful(rule) ==> rule.key(after[id]) == rule.key(before[id])
    {
      assert after[id] == Expected(rule, cluster, byKey, done, marked, before[id]);
    }
    assert forall id | id in after && id !in before :: Added(rule, cluster, byKey, done, after[id]);
  }

  lemma AttemptedKept<P(!new), M(!new)>(rule: Rule<P, M>, cluster: string, before: Rows<P>, items: seq<M>,
                                        after: Rows<P>)
    requires Attempted(rule, cluster, before, items, after)
    ensures Kept(cluster, before, after) && Sound(after)
  {
    hide OldRows, NewRows, AllArrived, Sound, Kept, Indexes;
    var byKey, k, marked := AttemptOf(rule, cluster, before, items, after);
    OutcomeKept(rule, cluster, before, byKey, items[..k], marked, after);
  }

  lemma CompletedIsAttempted<P(!new), M(!new)>(rule: Rule<P, M>, cluster: string, before: Rows<P>, items: seq<M>,
                                               after: Rows<P>)
    requires Completed(rule, cluster, before, items, after)
    ensures Attempted(rule, cluster, before, items, after)
  {
    hide Outcome, Indexes;
    var byKey :| Indexes(rule, before, cluster, byKey)
        && Outcome(rule, cluster, before, byKey, items, Missing(rule, byKey, items), after);
    var reach := Reach(|items|, Missing(rule, byKey, items));
    assert items[..reach.upserts] == items;
    assert Unreported(rule, items, reach.marked);
    assert ReachedBy(rule, cluster, before, byKey, items, reach, after);
    assert Reached(rule, cluster, before, items, reach, after);
  }

  // A complete sync refines its declarative post-state.
  lemma CompletedMeans<P(!new), M(!new)>(rule: Rule<P, M>, cluster: string, before: Rows<P>, items: seq<M>,
                                         after: Rows<P>)
    requires Lawful(rule) && Sound(before) && KeysDistinct(rule, before, cluster)
    requires Completed(rule, cluster, before, items, after)
    ensures Sound(after) && Kept(cluster, before, after) && SameKeys(rule, before, after)
    ensures KeysDistinct(rule, after, cluster)
    ensures View(rule, after, cluster) == Target(rule, View(rule, before, cluster), items)
  {
    hide Lawful, View, Partial, KeysDistinct, Sound, OldRows, NewRows, AllArrived, Indexes, Missing;
    var byKey :| Indexes(rule, before, cluster, byKey)
        && Outcome(rule, cluster, before, byKey, items, Missing(rule, byKey, items), after);
    var marked := Missing(rule, byKey, items);
    ViewAfter(rule, cluster, before, byKey, items, marked, after);
    OutcomeKept(rule, cluster, before, byKey, items, marked, after);
    MissingMeans(rule, cluster, before, byKey, items);
  }

  lemma MissingMeans<P(!new), M(!new)>(rule: Rule<P, M>, cluster: string, rows: Rows<P>, byKey: map<string, Row<P>>,
                                       items: seq<M>)
    requires Indexes(rule, rows, cluster, byKey)
    ensures Missing(rule, byKey, items) == View(rule, rows, cluster).Keys - NameSet(rule, items)
  {
    forall n ensures n in NameSet(rule, items) <==> Report(rule, items, n).Some? {}
    assert byKey.Keys == Keys(rule, rows, cluster) by {
      assert forall n | n in byKey :: byKey[n].id in rows;
    }
  }

  // An attempt, however it ends, leaves a state from which the same snapshot still leads to
  // the same post-state.
  lemma AttemptAbsorbed<P(!new), M(!new)>(rule: Rule<P, M>, cluster: string, before: Rows<P>, order: seq<M>,
                                          after: Rows<P>, snapshot: seq<M>)
    requires Lawful(rule) && Sound(before) && KeysDistinct(rule, before, cluster)
    requires DistinctNames(rule, snapshot) && multiset(order) == multiset(snapshot)
    requires Attempted(rule, cluster, before, order, after)
    ensures Sound(after) && Kept(cluster, before, after) && SameKeys(rule, before, after)
    ensures KeysDistinct(rule, after, cluster)
    ensures Target(rule, View(rule, after, cluster), snapshot) == Target(rule, View(rule, before, cluster), snapshot)
  {
    hide Lawful, View, Target, Partial, KeysDistinct, Sound, OldRows, NewRows, AllArrived;
    var byKey, k, marked := AttemptOf(rule, cluster, before, order, after);
    ViewAfter(rule, cluster, before, byKey, order[..k], marked, after);
    OutcomeKept(rule, cluster, before, byKey, order[..k], marked, after);
    ReportIgnoresOrder(rule, snapshot, order, k);
    TargetAbsorbs(rule, View(rule, before, cluster), order[..k], marked, snapshot);
  }

  // Equal up to the ids and creation times of rows `base` does not have.
  ghost predicate Agree<P(!new), M(!new)>(rule: Rule<P, M>, cluster: string, base: Rows<P>, a: Rows<P>, b: Rows<P>) {
    && Kept(cluster, base, a) && Kept(cluster, base, b)
    && (forall id | id in base :: a[id] == b[id])
    && View(rule, a, cluster) == View(rule, b, cluster)
  }

  lemma ViewsAgree<P(!new), M(!new)>(rule: Rule<P, M>, cluster: string, base: Rows<P>, a: Rows<P>, b: Rows<P>)
    requires KeysDistinct(rule, a, cluster) && KeysDistinct(rule, b, cluster)
    requires Kept(cluster, base, a) && Kept(cluster, base, b) && View(rule, a, cluster) == View(rule, b, cluster)
    requires SameKeys(rule, base, a) && SameKeys(rule, base, b)
    ensures Agree(rule, cluster, base, a, b)
  {
    forall id | id in base ensures a[id] == b[id] {
      if base[id].owner == cluster {
        var n := rule.key(base[id]);
        assert n in Keys(rule, a, cluster) && IdOf(rule, a, cluster, n) == id;
        assert n in Keys(rule, b, cluster) && IdOf(rule, b, cluster, n) == id;
        assert a[id].body == View(rule, a, cluster)[n];
      }
    }
  }

  // What a sync was given and how far it came determine the table, up to the ids and creation
  // times of new rows.
  lemma ReachDetermines<P(!new), M(!new)>(rule: Rule<P, M>, cluster: string, before: Rows<P>, items: seq<M>,
                                          reach: Reach, a: Rows<P>, b: Rows<P>)
    requires Lawful(rule) && Sound(before) && KeysDistinct(rule, before, cluster)
    requires Reached(rule, cluster, before, items, reach, a) && Reached(rule, cluster, before, items, reach, b)
    ensures Agree(rule, cluster, before, a, b)
  {
    hide Lawful, View, Partial, KeysDistinct, Sound, OldRows, NewRows, AllArrived, Indexes, SameKeys, Kept;
    var byKey :| ReachedBy(rule, cluster, before, byKey, items, reach, a);
    var byKey' :| ReachedBy(rule, cluster, before, byKey', items, reach, b);
    var done := items[..reach.upserts];
    ViewAfter(rule, cluster, before, byKey, done, reach.marked, a);
    ViewAfter(rule, cluster, before, byKey', done, reach.marked, b);
    OutcomeKept(rule, cluster, before, byKey, done, reach.marked, a);
    OutcomeKept(rule, cluster, before, byKey', done, reach.marked, b);
    ViewsAgree(rule, cluster, before, a, b);
  }

  // ----- retries -----

  ghost predicate TriedOn<P(!new), M(!new)>(rule: Rule<P, M>, cluster: string, before: Rows<P>, snapshot: seq<M>,
                                            after: Rows<P>) {
    exists order :: multiset(order) == multiset(snapshot) && Attempted(rule, cluster, before, order, after)
  }

  ghost predicate CompletedOn<P(!new), M(!new)>(rule: Rule<P, M>, cluster: string, before: Rows<P>, snapshot: seq<M>,
                                                after: Rows<P>) {
    exists order :: multiset(order) == multiset(snapshot) && Completed(rule, cluster, before, order, after)
  }

  lemma CompletedOnMeans<P(!new), M(!new)>(rule: Rule<P, M>, cluster: string, before: Rows<P>, snapshot: seq<M>,
                                           after: Rows<P>)
    requires Lawful(rule) && Sound(before) && KeysDistinct(rule, before, cluster) && DistinctNames(rule, snapshot)
    requires CompletedOn(rule, cluster, before, snapshot, after)
    ensures Sound(after) && Kept(cluster, before, after) && SameKeys(rule, before, after)
    ensures KeysDistinct(rule, after, cluster)
    ensures View(rule, after, cluster) == Target(rule, View(rule, before, cluster), snapshot)
  {
    hide Lawful, View, Target, KeysDistinct, Sound, Completed;
    var order :| multiset(order) == multiset(snapshot) && Completed(rule, cluster, before, order, after);
    CompletedMeans(rule, cluster, before, order, after);
    TargetIgnoresOrder(rule, View(rule, before, cluster), snapshot, order);
  }

  // Whatever a chain of failed or partial syncs of one snapshot did, each in its own order,
  // the state it leaves leads to the same post-state.
  lemma {:induction false} ChainAbsorbed<P(!new), M(!new)>(rule: Rule<P, M>, cluster: string, snapshot: seq<M>,
                                                           tries: seq<Rows<P>>)
    requires Lawful(rule) && DistinctNames(rule, snapshot) && |tries| > 0
    requires Sound(tries[0]) && KeysDistinct(rule, tries[0], cluster)
    requires forall i | 0 <= i < |tries| - 1 :: TriedOn(rule, cluster, tries[i], snapshot, tries[i + 1])
    ensures var last := tries[|tries| - 1];
            && Sound(last) && Kept(cluster, tries[0], last) && SameKeys(rule, tries[0], last)
               && KeysDistinct(rule, last, cluster)
            && Target(rule, View(rule, last, cluster), snapshot) ==
                   Target(rule, View(rule, tries[0], cluster), snapshot)
  {
    hide Lawful, View, Target, KeysDistinct, Sound, Attempted;
    if |tries| > 1 {
      var n := |tries| - 1;
      ChainAbsorbed(rule, cluster, snapshot, tries[..n]);
      assert TriedOn(rule, cluster, tries[n - 1], snapshot, tries[n]);
      var order :| multiset(order) == multiset(snapshot) && Attempted(rule, cluster, tries[n - 1], order, tries[n]);
      AttemptAbsorbed(rule, cluster, tries[n - 1], order, tries[n], snapshot);
    }
  }

  // Retry convergence: after any chain of partial syncs, one sync without failures reaches
  // the state an uninterrupted sync reaches from the original state.
  lemma RetryConverges<P(!new), M(!new)>(rule: Rule<P, M>, cluster: string, snapshot: seq<M>, tries: seq<Rows<P>>,
                                         after: Rows<P>, direct: Rows<P>)
    requires Lawful(rule) && DistinctNames(rule, snapshot) && |tries| > 0
    requires Sound(tries[0]) && KeysDistinct(rule, tries[0], cluster)
    requires forall i | 0 <= i < |tries| - 1 :: TriedOn(rule, cluster, tries[i], snapshot, tries[i + 1])
    requires CompletedOn(rule, cluster, tries[|tries| - 1], snapshot, after)
    requires CompletedOn(rule, cluster, tries[0], snapshot, direct)
    ensures Agree(rule, cluster, tries[0], after, direct)
  {
    hide Lawful, View, Target, KeysDistinct, Sound, TriedOn, CompletedOn;
    ChainAbsorbed(rule, cluster, snapshot, tries);
    CompletedOnMeans(rule, cluster, tries[|tries| - 1], snapshot, after);
    CompletedOnMeans(rule, cluster, tries[0], snapshot, direct);
    ViewsAgree(rule, cluster, tries[0], after, direct);
  }

  // A second sync of the same snapshot changes nothing at all.
  lemma SyncIdempotent<P(!new), M(!new)>(rule: Rule<P, M>, cluster: string, before: Rows<P>, snapshot: seq<M>,
                                         once: Rows<P>, twice: Rows<P>)
    requires Lawful(rule) && Sound(before) && KeysDistinct(rule, before, cluster) && DistinctNames(rule, snapshot)
    requires CompletedOn(rule, cluster, before, snapshot, once)
    requires CompletedOn(rule, cluster, once, snapshot, twice)
    ensures twice == once
  {
    hide Lawful, Target, Sound, CompletedOn, Partial, View, KeysDistinct, SameKeys;
    CompletedOnMeans(rule, cluster, before, snapshot, once);
    CompletedOnMeans(rule, cluster, once, snapshot, twice);
    FollowedTwice(rule, View(rule, before, cluster), snapshot);
    SameViewSameRows(rule, cluster, once, twice);
  }

  lemma FollowedTwice<P(!new), M(!new)>(rule: Rule<P, M>, view: map<string, P>, items: seq<M>)
    requires Lawful(rule)
    ensures Target(rule, Target(rule, view, items), items) == Target(rule, view, items)
  {
    hide Lawful, Target, Partial;
    TargetAbsorbs(rule, view, items, view.Keys - NameSet(rule, items), items) by {
      forall n | n in view.Keys - NameSet(rule, items) ensures Report(rule, items, n).None? {}
    }
    TargetIsPartial(rule, view, items);
  }

  // Two tables that agree on the other clusters and have the same view of this one are equal.
  lemma SameViewSameRows<P(!new), M(!new)>(rule: Rule<P, M>, cluster: string, once: Rows<P>, twice: Rows<P>)
    requires Kept(cluster, once, twice) && SameKeys(rule, once, twice)
    requires KeysDistinct(rule, once, cluster) && KeysDistinct(rule, twice, cluster)
    requires View(rule, twice, cluster) == View(rule, once, cluster)
    ensures twice == once
  {
    ViewsAgree(rule, cluster, once, twice, once);
    forall id | id in twice ensures id in once {
      assert id !in once ==> twice[id].owner == cluster;
      if twice[id].owner == cluster {
        var n := rule.key(twice[id]);
        assert n in Keys(rule, twice, cluster);
        assert n in View(rule, once, cluster);
        var same := IdOf(rule, once, cluster, n);
        assert rule.key(twice[same]) == n && twice[same].owner == cluster;
        assert same == id;
      }
    }
  }

  lemma TargetIsPartial<P(!new), M(!new)>(rule: Rule<P, M>, view: map<string, P>, items: seq<M>)
    ensures Target(rule, view, items) == Partial(rule, view, items, view.Keys - NameSet(rule, items))
  {
  }

  // ----- histories -----

  ghost function History<P(!new), M(!new)>(rule: Rule<P, M>, view: map<string, P>, snapshots: seq<seq<M>>): map<string,
      P> {
    if snapshots == [] then view
    else Target(rule, History(rule, view, snapshots[..|snapshots| - 1]), snapshots[|snapshots| - 1])
  }

  // The names are the initial ones plus every name ever seen.
  lemma {:induction false} HistoryNames<P(!new), M(!new)>(rule: Rule<P, M>, view: map<string, P>,
                                                          snapshots: seq<seq<M>>, n: string)
    ensures n in History(rule, view, snapshots) <==>
            n in view || exists i | 0 <= i < |snapshots| :: n in NameSet(rule, snapshots[i])
  {
    if snapshots != [] {
      var k := |snapshots| - 1;
      HistoryNames(rule, view, snapshots[..k], n);
      assert (exists i | 0 <= i < |snapshots| :: n in NameSet(rule, snapshots[i])) <==>
             n in NameSet(rule, snapshots[k]) || exists i | 0 <= i < k :: n in NameSet(rule, snapshots[..k][i]);
    }
  }

  // A run of complete syncs is its history.
  lemma {:induction false} RunIsHistory<P(!new), M(!new)>(rule: Rule<P, M>, cluster: string, snapshots: seq<seq<M>>,
                                                          states: seq<Rows<P>>)
    requires Lawful(rule) && |states| == |snapshots| + 1
    requires forall i | 0 <= i < |snapshots| :: DistinctNames(rule, snapshots[i])
    requires Sound(states[0]) && KeysDistinct(rule, states[0], cluster)
    requires forall i | 0 <= i < |snapshots| :: CompletedOn(rule, cluster, states[i], snapshots[i], states[i + 1])
    ensures var last := states[|snapshots|];
            && Sound(last) && Kept(cluster, states[0], last) && SameKeys(rule, states[0], last)
               && KeysDistinct(rule, last, cluster)
            && View(rule, last, cluster) == History(rule, View(rule, states[0], cluster), snapshots)
  {
    hide Lawful, View, Target, KeysDistinct, Sound, CompletedOn, DistinctNames;
    if snapshots != [] {
      var k := |snapshots| - 1;
      RunIsHistory(rule, cluster, snapshots[..k], states[..k + 1]);
      assert CompletedOn(rule, cluster, states[k], snapshots[k], states[k + 1]);
      CompletedOnMeans(rule, cluster, states[k], snapshots[k], states[k + 1]);
    }
  }
}
