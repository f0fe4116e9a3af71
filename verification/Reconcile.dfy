// The reconcile algorithm both inventory syncers share: index the stored records of a
// cluster, upsert every reported item in turn, then mark the records nothing was reported for.
module Reconcile {
  import opened Model
  import opened Memory

  // How one kind of record follows what LXD reports about it.
  datatype Rule<!P(!new), !M(!new)> = Rule(
    key: Row<P> -> string,     // the reported name a stored record answers to
    name: M -> string,         // the name of a reported item
    create: M -> P,            // the record of a newly seen item
    refresh: (P, M) -> P,      // a stored record after an item was reported for it
    gone: P -> P)              // a stored record after nothing was reported for it

  // ----- reports -----

  // The last item reported under a name.
  function Report<P(!new), M(!new)>(rule: Rule<P, M>, items: seq<M>, n: string): (r: Option<M>)
    ensures r.Some? ==> r.value in items && rule.name(r.value) == n
    ensures r.None? ==> forall m | m in items :: rule.name(m) != n
  {
    if items == [] then None
    else if rule.name(items[|items| - 1]) == n then Some(items[|items| - 1])
    else Report(rule, items[..|items| - 1], n)
  }

  ghost predicate DistinctNames<P(!new), M(!new)>(rule: Rule<P, M>, items: seq<M>) {
    forall i, j | 0 <= i < j < |items| :: rule.name(items[i]) != rule.name(items[j])
  }

  // ----- the index -----

  ghost predicate Indexes<P(!new), M(!new)>(rule: Rule<P, M>, rows: Rows<P>, cluster: string,
                                            byKey: map<string, Row<P>>) {
    && (forall n | n in byKey ::
          byKey[n].id in rows && rows[byKey[n].id] == byKey[n] && byKey[n].owner == cluster && rule.key(byKey[n]) == n)
    && (forall id | id in rows && rows[id].owner == cluster :: rule.key(rows[id]) in byKey)
  }

  // ----- what an attempt leaves behind -----

  // An existing row after the items in `done` were upserted and the keys in `marked` were marked.
  function Expected<P(!new), M(!new)>(rule: Rule<P, M>, cluster: string, byKey: map<string, Row<P>>, done: seq<M>,
                                      marked: set<string>, r: Row<P>): Row<P> {
    var n := rule.key(r);
    if r.owner != cluster || n !in byKey || byKey[n].id != r.id then r else
    match Report(rule, done, n)
    case Some(m) => r.(body := rule.refresh(r.body, m))
    case None => if n in marked then r.(body := rule.gone(r.body)) else r
  }

  ghost predicate Added<P(!new), M(!new)>(rule: Rule<P, M>, cluster: string, byKey: map<string, Row<P>>, done: seq<M>,
                                          r: Row<P>) {
    var m := Report(rule, done, r.name);
    r.owner == cluster && r.name !in byKey && m.Some? && r.body == rule.create(m.value)
  }

  ghost predicate OldRows<P(!new), M(!new)>(rule: Rule<P, M>, cluster: string, before: Rows<P>,
                                            byKey: map<string, Row<P>>, done: seq<M>, marked: set<string>,
                                            after: Rows<P>) {
    && before.Keys <= after.Keys
    && forall id | id in before :: after[id] == Expected(rule, cluster, byKey, done, marked, before[id])
  }

  ghost predicate NewRows<P(!new), M(!new)>(rule: Rule<P, M>, cluster: string, before: Rows<P>,
                                            byKey: map<string, Row<P>>, done: seq<M>, after: Rows<P>) {
    forall id | id in after && id !in before :: Added(rule, cluster, byKey, done, after[id])
  }

  ghost predicate Arrived<P(!new)>(before: Rows<P>, after: Rows<P>, n: string) {
    exists id | id in after && id !in before :: after[id].name == n
  }

  ghost predicate AllArrived<P(!new), M(!new)>(rule: Rule<P, M>, before: Rows<P>, byKey: map<string, Row<P>>,
                                               done: seq<M>, after: Rows<P>) {
    forall n | n !in byKey && Report(rule, done, n).Some? :: Arrived(before, after, n)
  }

  // Exactly one new row per newly seen name, the indexed rows refreshed or marked, and every
  // other row as it was.
  ghost predicate Outcome<P(!new), M(!new)>(rule: Rule<P, M>, cluster: string, before: Rows<P>,
                                            byKey: map<string, Row<P>>, done: seq<M>, marked: set<string>,
                                            after: Rows<P>) {
    && Sound(after)
    && OldRows(rule, cluster, before, byKey, done, marked, after)
    && NewRows(rule, cluster, before, byKey, done, after)
    && AllArrived(rule, before, byKey, done, after)
  }

  ghost predicate Unreported<P(!new), M(!new)>(rule: Rule<P, M>, items: seq<M>, marked: set<string>) {
    forall n | n in marked :: Report(rule, items, n).None?
  }

  ghost function Missing<P(!new), M(!new)>(rule: Rule<P, M>, byKey: map<string, Row<P>>, items: seq<M>): set<string> {
    set n | n in byKey && Report(rule, items, n).None?
  }

  // How far an attempt came: the number of items it upserted and the keys it marked.
  datatype Reach = Reach(upserts: nat, marked: set<string>)

  // What an attempt that came this far leaves behind: a prefix of the upserts, and marks only
  // once all of them succeeded.
  ghost predicate ReachedBy<P(!new), M(!new)>(rule: Rule<P, M>, cluster: string, before: Rows<P>,
                                              byKey: map<string, Row<P>>, items: seq<M>, reach: Reach, after: Rows<P>) {
    && reach.upserts <= |items| && Indexes(rule, before, cluster, byKey)
    && Unreported(rule, items, reach.marked) && (reach.marked != {} ==> reach.upserts == |items|)
    && Outcome(rule, cluster, before, byKey, items[..reach.upserts], reach.marked, after)
  }

  // The index depends on the order the rows are listed in when several have the same key.
  ghost predicate Reached<P(!new), M(!new)>(rule: Rule<P, M>, cluster: string, before: Rows<P>, items: seq<M>,
                                            reach: Reach, after: Rows<P>) {
    exists byKey :: ReachedBy(rule, cluster, before, byKey, items, reach, after)
  }

  // What any attempt may leave behind, however it ends.
  ghost predicate Attempted<P(!new), M(!new)>(rule: Rule<P, M>, cluster: string, before: Rows<P>, items: seq<M>,
                                              after: Rows<P>) {
    exists reach :: Reached(rule, cluster, before, items, reach, after)
  }

  // What a sync that returned an error leaves behind: a prefix of the upserts, and no marks.
  ghost predicate Interrupted<P(!new), M(!new)>(rule: Rule<P, M>, cluster: string, before: Rows<P>, items: seq<M>,
                                                after: Rows<P>) {
    exists reach: Reach | reach.marked == {} :: Reached(rule, cluster, before, items, reach, after)
  }

  // What an attempt without any failure leaves behind.
  ghost predicate Completed<P(!new), M(!new)>(rule: Rule<P, M>, cluster: string, before: Rows<P>, items: seq<M>,
                                              after: Rows<P>) {
    exists byKey ::
      && Indexes(rule, before, cluster, byKey)
      && Outcome(rule, cluster, before, byKey, items, Missing(rule, byKey, items), after)
  }

  // Every item is either tracked already, or new under a name no other row or item uses.
  ghost predicate Acceptable<P(!new), M(!new)>(rule: Rule<P, M>, rows: Rows<P>, cluster: string, items: seq<M>) {
    forall i | 0 <= i < |items| :: AcceptableAt(rule, rows, cluster, items, i)
  }

  ghost predicate AcceptableAt<P(!new), M(!new)>(rule: Rule<P, M>, rows: Rows<P>, cluster: string, items: seq<M>,
                                                 i: nat)
    requires i < |items|
  {
    || (exists id :: id in rows && rows[id].owner == cluster && rule.key(rows[id]) == rule.name(items[i]))
    || (!Taken(rows, cluster, rule.name(items[i]))
        && forall j | 0 <= j < i :: rule.name(items[j]) != rule.name(items[i]))
  }

  // ----- one step of an attempt -----

  lemma ReportMore<P(!new), M(!new)>(rule: Rule<P, M>, items: seq<M>, i: nat, n: string)
    requires i < |items|
    ensures Report(rule, items[..i + 1], n) ==
            if rule.name(items[i]) == n then Some(items[i]) else Report(rule, items[..i], n)
  {
    assert items[..i + 1][..i] == items[..i];
  }

  // How an attempt came about.
  lemma AttemptOf<P(!new), M(!new)>(rule: Rule<P, M>, cluster: string, before: Rows<P>, items: seq<M>, after: Rows<P>)
    returns (byKey: map<string, Row<P>>, k: nat, marked: set<string>)
    requires Attempted(rule, cluster, before, items, after)
    ensures k <= |items| && Indexes(rule, before, cluster, byKey)
    ensures Unreported(rule, items, marked) && (marked != {} ==> k == |items|)
    ensures Outcome(rule, cluster, before, byKey, items[..k], marked, after)
  {
    hide Indexes, Unreported, Outcome;
    var reach :| Reached(rule, cluster, before, items, reach, after);
    byKey :| ReachedBy(rule, cluster, before, byKey, items, reach, after);
    k, marked := reach.upserts, reach.marked;
  }

  lemma StartOutcome<P(!new), M(!new)>(rule: Rule<P, M>, cluster: string, before: Rows<P>, byKey: map<string, Row<P>>)
    requires Sound(before)
    ensures Outcome(rule, cluster, before, byKey, [], {}, before)
  {
  }

  lemma UpdateStep<P(!new), M(!new)>(rule: Rule<P, M>, cluster: string, before: Rows<P>, byKey: map<string, Row<P>>,
                                     items: seq<M>, i: nat, now: Rows<P>, r: Row<P>)
    requires Sound(before) && Indexes(rule, before, cluster, byKey) && i < |items|
    requires Outcome(rule, cluster, before, byKey, items[..i], {}, now)
    requires rule.name(items[i]) in byKey
    requires r == byKey[rule.name(items[i])].(body := rule.refresh(byKey[rule.name(items[i])].body, items[i]))
    ensures Verdict(now, Op.Update(r)) == None
    ensures Outcome(rule, cluster, before, byKey, items[..i + 1], {}, now[r.id := r])
    ensures Apply(now, Op.Update(r)) == now[r.id := r]
  {
    var n, after, done, more := rule.name(items[i]), now[r.id := r], items[..i], items[..i + 1];
    var none: set<string> := {};
    assert r.id in before && before[r.id] == byKey[n];
    SameHeader(rule, cluster, before, byKey, done, none, now, r);
    forall id | id in before ensures after[id] == Expected(rule, cluster, byKey, more, none, before[id]) {
      ReportMore(rule, items, i, rule.key(before[id]));
    }
    forall id | id in after && id !in before ensures Added(rule, cluster, byKey, more, after[id]) {
      ReportMore(rule, items, i, after[id].name);
    }
    KeepArrived(rule, before, byKey, items, i, now, after, n);
  }

  // Writing back a row of `before` under its own header keeps the table sound.
  lemma SameHeader<P(!new), M(!new)>(rule: Rule<P, M>, cluster: string, before: Rows<P>, byKey: map<string, Row<P>>,
                                     done: seq<M>, marked: set<string>, now: Rows<P>, r: Row<P>)
    requires Sound(before) && Outcome(rule, cluster, before, byKey, done, marked, now)
    requires r.id in before && r == before[r.id].(body := r.body)
    ensures Verdict(now, Op.Update(r)) == None
    ensures Apply(now, Op.Update(r)) == now[r.id := r] && Sound(now[r.id := r])
  {
    assert now[r.id] == Expected(rule, cluster, byKey, done, marked, before[r.id]);
    SameNameWrite(now, r);
  }

  lemma SameNameWrite<P(!new)>(now: Rows<P>, r: Row<P>)
    requires Sound(now) && r.id in now && r == now[r.id].(body := r.body)
    ensures Verdict(now, Op.Update(r)) == None
    ensures Apply(now, Op.Update(r)) == now[r.id := r] && Sound(now[r.id := r])
  {
    ApplyKeepsSound(now, Op.Update(r));
  }

  lemma KeepArrived<P(!new), M(!new)>(rule: Rule<P, M>, before: Rows<P>, byKey: map<string, Row<P>>,
                                      items: seq<M>, i: nat, now: Rows<P>, after: Rows<P>, n: string)
    requires i < |items| && n == rule.name(items[i]) && (n in byKey || Arrived(before, after, n))
    requires AllArrived(rule, before, byKey, items[..i], now)
    requires now.Keys <= after.Keys && forall id | id in now && id !in before :: after[id] == now[id]
    ensures AllArrived(rule, before, byKey, items[..i + 1], after)
  {
    forall x | x !in byKey && Report(rule, items[..i + 1], x).Some? ensures Arrived(before, after, x) {
      ReportMore(rule, items, i, x);
      if x != n {
        assert Arrived(before, now, x);
        var id :| id in now && id !in before && now[id].name == x;
        assert after[id].name == x;
      }
    }
  }

  lemma CreateStep<P(!new), M(!new)>(rule: Rule<P, M>, cluster: string, before: Rows<P>, byKey: map<string, Row<P>>,
                                     items: seq<M>, i: nat, now: Rows<P>, r: Row<P>)
    requires Sound(before) && Indexes(rule, before, cluster, byKey) && i < |items|
    requires Outcome(rule, cluster, before, byKey, items[..i], {}, now)
    requires rule.name(items[i]) !in byKey
    requires r.owner == cluster && r.name == rule.name(items[i]) && r.body == rule.create(items[i])
    requires r.id != "" && r.id !in now && !Taken(now, r.owner, r.name)
    ensures Outcome(rule, cluster, before, byKey, items[..i + 1], {}, now[r.id := r])
  {
    var n, after := rule.name(items[i]), now[r.id := r];
    assert Sound(after);
    OldRowsMore(rule, cluster, before, byKey, items, i, now, r);
    assert Arrived(before, after, n) by { assert after[r.id].name == n; }
    KeepArrived(rule, before, byKey, items, i, now, after, n);
    assert NewRows(rule, cluster, before, byKey, items[..i + 1], after) by {
      hide Sound, OldRows, AllArrived;
      forall id | id in after && id !in before ensures Added(rule, cluster, byKey, items[..i + 1], after[id]) {
        ReportMore(rule, items, i, after[id].name);
        assert id == r.id || now[id].name != n;
      }
    }
  }

  lemma OldRowsMore<P(!new), M(!new)>(rule: Rule<P, M>, cluster: string, before: Rows<P>, byKey: map<string, Row<P>>,
                                      items: seq<M>, i: nat, now: Rows<P>, r: Row<P>)
    requires i < |items| && rule.name(items[i]) !in byKey && r.id !in now
    requires OldRows(rule, cluster, before, byKey, items[..i], {}, now)
    ensures OldRows(rule, cluster, before, byKey, items[..i + 1], {}, now[r.id := r])
  {
    var none: set<string> := {};
    forall id | id in before ensures now[id] == Expected(rule, cluster, byKey, items[..i + 1], none, before[id]) {
      ReportMore(rule, items, i, rule.key(before[id]));
    }
  }

  // A create conflicts exactly when the item is not acceptable.
  lemma ConflictMeans<P(!new), M(!new)>(rule: Rule<P, M>, cluster: string, before: Rows<P>, byKey: map<string, Row<P>>,
                                        items: seq<M>, i: nat, now: Rows<P>)
    requires Sound(before) && Indexes(rule, before, cluster, byKey) && i < |items|
    requires Outcome(rule, cluster, before, byKey, items[..i], {}, now)
    requires rule.name(items[i]) !in byKey
    ensures Taken(now, cluster, rule.name(items[i])) <==> !AcceptableAt(rule, before, cluster, items, i)
  {
    var n := rule.name(items[i]);
    if Taken(now, cluster, n) {
      TakenFrom(rule, cluster, before, byKey, items[..i], now, n);
      assert Taken(before, cluster, n) || exists j | 0 <= j < i :: rule.name(items[j]) == n;
    }
    if Taken(before, cluster, n) {
      var x :| x in before && before[x].owner == cluster && before[x].name == n;
      assert now[x] == Expected(rule, cluster, byKey, items[..i], {}, before[x]);
    }
    if j :| 0 <= j < i && rule.name(items[j]) == n {
      assert items[j] in items[..i];
      TakenByArrival(rule, cluster, before, byKey, items[..i], now, n);
    }
    hide Outcome, Indexes, Sound, Taken;
  }

  lemma TakenByArrival<P(!new), M(!new)>(rule: Rule<P, M>, cluster: string, before: Rows<P>, byKey: map<string, Row<P>>,
                                         done: seq<M>, now: Rows<P>, n: string)
    requires Outcome(rule, cluster, before, byKey, done, {}, now) && n !in byKey && Report(rule, done, n).Some?
    ensures Taken(now, cluster, n)
  {
    assert Arrived(before, now, n);
    var x :| x in now && x !in before && now[x].name == n;
    assert Added(rule, cluster, byKey, done, now[x]);
  }

  lemma TakenFrom<P(!new), M(!new)>(rule: Rule<P, M>, cluster: string, before: Rows<P>, byKey: map<string, Row<P>>,
                                    done: seq<M>, now: Rows<P>, n: string)
    requires Outcome(rule, cluster, before, byKey, done, {}, now) && Taken(now, cluster, n)
    ensures Taken(before, cluster, n) || exists j | 0 <= j < |done| :: rule.name(done[j]) == n
  {
    var none: set<string> := {};
    var x :| x in now && now[x].owner == cluster && now[x].name == n;
    if x in before {
      assert now[x] == Expected(rule, cluster, byKey, done, none, before[x]);
    } else {
      assert Added(rule, cluster, byKey, done, now[x]);
      var j :| 0 <= j < |done| && done[j] == Report(rule, done, n).value;
      assert rule.name(done[j]) == n;
    }
  }

  lemma MarkStep<P(!new), M(!new)>(rule: Rule<P, M>, cluster: string, before: Rows<P>, byKey: map<string, Row<P>>,
                                   items: seq<M>, marked: set<string>, now: Rows<P>, n: string, r: Row<P>)
    requires Sound(before) && Indexes(rule, before, cluster, byKey)
    requires Outcome(rule, cluster, before, byKey, items, marked, now)
    requires n in byKey && Report(rule, items, n).None?
    requires r == byKey[n].(body := rule.gone(byKey[n].body))
    ensures Verdict(now, Op.Update(r)) == None
    ensures Outcome(rule, cluster, before, byKey, items, marked + {n}, now[r.id := r])
    ensures Apply(now, Op.Update(r)) == now[r.id := r]
  {
    var after := now[r.id := r];
    assert r.id in before && before[r.id] == byKey[n];
    SameHeader(rule, cluster, before, byKey, items, marked, now, r);
    forall id | id in before ensures after[id] == Expected(rule, cluster, byKey, items, marked + {n}, before[id]) {
    }
    forall x | x !in byKey && Report(rule, items, x).Some? ensures Arrived(before, after, x) {
      assert Arrived(before, now, x);
      var id :| id in now && id !in before && now[id].name == x;
      assert after[id].name == x;
    }
  }

  // An index of any table exists, whichever of two rows with the same key it keeps.
  lemma SomeIndex<P(!new), M(!new)>(rule: Rule<P, M>, rows: Rows<P>, cluster: string)
    returns (byKey: map<string, Row<P>>)
    requires Keyed(rows)
    ensures Indexes(rule, rows, cluster, byKey)
  {
    var keys := set id | id in rows && rows[id].owner == cluster :: rule.key(rows[id]);
    byKey := map n | n in keys :: var id :| id in rows && rows[id].owner == cluster
        && rule.key(rows[id]) == n; rows[id];
  }

  lemma NothingAttempted<P(!new), M(!new)>(rule: Rule<P, M>, rows: Rows<P>, cluster: string, items: seq<M>)
    requires Sound(rows)
    ensures Reached(rule, cluster, rows, items, Reach(0, {}), rows)
  {
    var byKey := SomeIndex(rule, rows, cluster);
    StartOutcome(rule, cluster, rows, byKey);
    assert items[..0] == [];
    Stopped(rule, cluster, rows, byKey, items, 0, rows);
  }

  lemma Stopped<P(!new), M(!new)>(rule: Rule<P, M>, cluster: string, before: Rows<P>, byKey: map<string, Row<P>>,
                                  items: seq<M>, i: nat, now: Rows<P>)
    requires i <= |items| && Indexes(rule, before, cluster, byKey)
    requires Outcome(rule, cluster, before, byKey, items[..i], {}, now)
    ensures Reached(rule, cluster, before, items, Reach(i, {}), now)
  {
    hide Outcome, Indexes;
    var none: set<string> := {};
    assert Unreported(rule, items, none);
    assert ReachedBy(rule, cluster, before, byKey, items, Reach(i, none), now);
  }

  // Whichever index was built, a sync of an acceptable report can be completed.
  lemma CanComplete<P(!new), M(!new)>(rule: Rule<P, M>, cluster: string, before: Rows<P>, byKey: map<string, Row<P>>,
                                      items: seq<M>)
    returns (after: Rows<P>)
    requires Sound(before) && Indexes(rule, before, cluster, byKey) && Acceptable(rule, before, cluster, items)
    ensures Outcome(rule, cluster, before, byKey, items, Missing(rule, byKey, items), after)
  {
    after := CanUpsert(rule, cluster, before, byKey, items);
    hide Outcome, Indexes, Missing, Sound;
    after := CanMark(rule, cluster, before, byKey, items, {}, after);
  }

  lemma {:induction false} CanMark<P(!new), M(!new)>(rule: Rule<P, M>, cluster: string, before: Rows<P>,
                                                     byKey: map<string, Row<P>>, items: seq<M>, marked: set<string>,
                                                     now: Rows<P>) returns (after: Rows<P>)
    requires Sound(before) && Indexes(rule, before, cluster, byKey)
    requires marked <= Missing(rule, byKey, items) && Outcome(rule, cluster, before, byKey, items, marked, now)
    ensures Outcome(rule, cluster, before, byKey, items, Missing(rule, byKey, items), after)
    decreases Missing(rule, byKey, items) - marked
  {
    hide Outcome, Indexes, Missing, Sound, Report, Apply, Verdict;
    var left := Missing(rule, byKey, items) - marked;
    if left == {} {
      forall n | n in Missing(rule, byKey, items) ensures n in marked { assert n !in left; }
      assert marked == Missing(rule, byKey, items);
      after := now;
    } else {
      var n :| n in left;
      MissingMember(rule, byKey, items, n);
      var r := byKey[n].(body := rule.gone(byKey[n].body));
      MarkStep(rule, cluster, before, byKey, items, marked, now, n, r);
      after := CanMark(rule, cluster, before, byKey, items, marked + {n}, now[r.id := r]);
    }
  }

  lemma MissingMember<P(!new), M(!new)>(rule: Rule<P, M>, byKey: map<string, Row<P>>, items: seq<M>, n: string)
    requires n in Missing(rule, byKey, items)
    ensures n in byKey && Report(rule, items, n).None?
  {
  }

  lemma CanUpsert<P(!new), M(!new)>(rule: Rule<P, M>, cluster: string, before: Rows<P>, byKey: map<string, Row<P>>,
                                    items: seq<M>)
    returns (now: Rows<P>)
    requires Sound(before) && Indexes(rule, before, cluster, byKey) && Acceptable(rule, before, cluster, items)
    ensures Outcome(rule, cluster, before, byKey, items, {}, now)
  {
    hide Outcome, Sound, Taken;
    now := before;
    StartOutcome(rule, cluster, before, byKey);
    assert items[..0] == [];
    for i := 0 to |items|
      invariant Outcome(rule, cluster, before, byKey, items[..i], {}, now)
    {
      var n := rule.name(items[i]);
      if n in byKey {
        var r := byKey[n].(body := rule.refresh(byKey[n].body, items[i]));
        UpdateStep(rule, cluster, before, byKey, items, i, now, r);
        now := now[r.id := r];
      } else {
        ConflictMeans(rule, cluster, before, byKey, items, i, now);
        assert AcceptableAt(rule, before, cluster, items, i);
        FreshIdExists(now.Keys);
        var id: string :| id != "" && id !in now.Keys;
        var r := Row(id, cluster, n, 0, rule.create(items[i]));
        CreateStep(rule, cluster, before, byKey, items, i, now, r);
        now := now[id := r];
      }
    }
    assert items[..|items|] == items;
  }

  // ----- the algorithm -----

  // The result says whether the sync returned without an error.
  method FollowReports<P(!new), M(!new)>(store: Store<P>, cluster: string, items: seq<M>, rule: Rule<P, M>)
    returns (ok: bool, ghost reach: Reach)
    requires Sound(store.rows)
    modifies store
    ensures Sound(store.rows)
    ensures Reached(rule, cluster, old(store.rows), items, reach, store.rows)
    ensures !ok ==> reach.marked == {}
    ensures !store.faulty ==> (ok <==> Acceptable(rule, old(store.rows), cluster, items))
    ensures !store.faulty && ok ==> Completed(rule, cluster, old(store.rows), items, store.rows)
  {
    NothingAttempted(rule, store.rows, cluster, items);
    var listing := store.List(cluster);
    if listing.Err? { return false, Reach(0, {}); }
    var byKey := Index(listing.value, rule, cluster, store.rows);
    var seen;
    ok, seen, reach := Upsert(store, cluster, items, rule, byKey);
    if ok {
      reach := MarkMissing(store, cluster, items, rule, byKey, seen, old(store.rows));
    }
  }

  method Upsert<P(!new), M(!new)>(store: Store<P>, cluster: string, items: seq<M>, rule: Rule<P, M>,
                                  byKey: map<string, Row<P>>)
    returns (ok: bool, seen: set<string>, ghost reach: Reach)
    requires Sound(store.rows) && Indexes(rule, store.rows, cluster, byKey)
    modifies store
    ensures Sound(store.rows)
    ensures Reached(rule, cluster, old(store.rows), items, reach, store.rows) && reach.marked == {}
    ensures !store.faulty ==> (ok <==> Acceptable(rule, old(store.rows), cluster, items))
    ensures ok ==> Outcome(rule, cluster, old(store.rows), byKey, items, {}, store.rows)
    ensures ok ==> forall n :: n in seen <==> Report(rule, items, n).Some?
  {
    hide Outcome, Indexes, Reached, AcceptableAt, Sound;
    ghost var before := store.rows;
    seen := {};
    StartOutcome(rule, cluster, before, byKey);
    assert items[..0] == [];
    for i := 0 to |items|
      invariant Sound(store.rows) && Outcome(rule, cluster, before, byKey, items[..i], {}, store.rows)
      invariant forall n :: n in seen <==> Report(rule, items[..i], n).Some?
      invariant !store.faulty ==> forall j | 0 <= j < i :: AcceptableAt(rule, before, cluster, items, j)
    {
      var n := rule.name(items[i]);
      forall x ensures Report(rule, items[..i + 1], x).Some? <==> x == n || Report(rule, items[..i], x).Some? {
        ReportMore(rule, items, i, x);
      }
      seen := seen + {n};
      Stopped(rule, cluster, before, byKey, items, i, store.rows);
      ok := UpsertItem(store, cluster, items, i, rule, byKey, before);
      if !ok { return false, seen, Reach(i, {}); }
    }
    Stopped(rule, cluster, before, byKey, items, |items|, store.rows);
    assert items[..|items|] == items;
    return true, seen, Reach(|items|, {});
  }

  // One round of the upsert loop: an update of a tracked item, or a create of a new one.
  method UpsertItem<P(!new), M(!new)>(store: Store<P>, cluster: string, items: seq<M>, i: nat, rule: Rule<P, M>,
                                      byKey: map<string, Row<P>>, ghost before: Rows<P>)
    returns (ok: bool)
    requires Sound(before) && Sound(store.rows) && Indexes(rule, before, cluster, byKey) && i < |items|
    requires Outcome(rule, cluster, before, byKey, items[..i], {}, store.rows)
    modifies store
    ensures Sound(store.rows)
    ensures if ok then Outcome(rule, cluster, before, byKey, items[..i + 1], {}, store.rows)
            else store.rows == old(store.rows)
    ensures !store.faulty ==> (ok <==> AcceptableAt(rule, before, cluster, items, i))
  {
    hide Outcome, Sound, Indexes;
    var m := items[i];
    var n := rule.name(m);
    ghost var now := store.rows;
    if n in byKey {
      var updated := byKey[n].(body := rule.refresh(byKey[n].body, m));
      UpdateStep(rule, cluster, before, byKey, items, i, now, updated);
      TrackedAcceptable(rule, before, cluster, byKey, items, i);
      var res := store.Update(updated);
      return res.Ok?;
    }
    var r := Row("", cluster, n, 0, rule.create(m));
    ConflictMeans(rule, cluster, before, byKey, items, i, now);
    var res := store.Create(r);
    if res.Err? { return false; }
    CreateStep(rule, cluster, before, byKey, items, i, now, res.value);
    return true;
  }

  lemma TrackedAcceptable<P(!new), M(!new)>(rule: Rule<P, M>, before: Rows<P>, cluster: string,
                                            byKey: map<string, Row<P>>, items: seq<M>, i: nat)
    requires Indexes(rule, before, cluster, byKey) && i < |items| && rule.name(items[i]) in byKey
    ensures AcceptableAt(rule, before, cluster, items, i)
  {
    assert byKey[rule.name(items[i])].id in before;
  }

  method MarkMissing<P(!new), M(!new)>(store: Store<P>, cluster: string, items: seq<M>, rule: Rule<P, M>,
                                       byKey: map<string, Row<P>>, seen: set<string>, ghost before: Rows<P>)
    returns (ghost reach: Reach)
    requires Sound(before) && Indexes(rule, before, cluster, byKey)
    requires Outcome(rule, cluster, before, byKey, items, {}, store.rows)
    requires forall n :: n in seen <==> Report(rule, items, n).Some?
    modifies store
    ensures Sound(store.rows)
    ensures Reached(rule, cluster, before, items, reach, store.rows)
    ensures !store.faulty ==> Completed(rule, cluster, before, items, store.rows)
  {
    hide OldRows, NewRows, AllArrived;
    ghost var marked: set<string> := {};
    var todo := byKey.Keys;
    while todo != {}
      invariant todo <= byKey.Keys && marked <= byKey.Keys
      invariant Unreported(rule, items, marked)
      invariant Outcome(rule, cluster, before, byKey, items, marked, store.rows)
      invariant !store.faulty ==> marked + (todo - seen) == Missing(rule, byKey, items)
      decreases todo
    {
      var n :| n in todo;
      todo := todo - {n};
      if n in seen { continue; }
      var updated := byKey[n].(body := rule.gone(byKey[n].body));
      MarkStep(rule, cluster, before, byKey, items, marked, store.rows, n, updated);
      var res := store.Update(updated);
      if res.Err? { continue; }
      marked := marked + {n};
    }
    assert items[..|items|] == items;
    reach := Reach(|items|, marked);
    assert ReachedBy(rule, cluster, before, byKey, items, reach, store.rows);
    if !store.faulty { assert marked == Missing(rule, byKey, items); }
  }

  // The last row listed under a key is the one that is kept.
  method Index<P(!new), M(!new)>(listing: seq<Row<P>>, rule: Rule<P, M>, ghost cluster: string, ghost rows: Rows<P>)
    returns (byKey: map<string, Row<P>>)
    requires Keyed(rows) && Lists(rows, cluster, listing)
    ensures Indexes(rule, rows, cluster, byKey)
  {
    byKey := map[];
    for i := 0 to |listing|
      invariant forall n | n in byKey :: byKey[n] in listing && rule.key(byKey[n]) == n
      invariant forall j | 0 <= j < i :: rule.key(listing[j]) in byKey
    {
      byKey := byKey[rule.key(listing[i]) := listing[i]];
    }
  }
}
