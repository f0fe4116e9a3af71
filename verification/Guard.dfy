// The startup guard: one manager's Run, and the protocol of N managers running it in any
// interleaving, with crashes.
module Guard {
  import opened Model
  import opened Memory

  // ----- the protocol -----

  datatype Pc =
    | Idle            // before TryLock
    | Holding         // lock acquired, clusters not yet listed
    | Cleared         // listed under the lock: no clusters
    | Coordinating    // inside RunBootstrap
    | Releasing       // about to unlock
    | Finished
    | Leaking         // finished, but the unlock failed and the session still holds the lock
    | Crashed

  // `lock` is the manager whose session holds the lock.
  datatype System = System(lock: Option<nat>, clusters: nat, successes: nat, managers: map<nat, Pc>)

  datatype Event =
    | Skip                   // bootstrap disabled, or TryLock returns an error
    | Acquire
    | Busy                   // TryLock returns false
    | ListError
    | SeesClusters
    | SeesNone
    | Begin
    | Succeed(added: nat)    // the coordinator returns nil, having recorded clusters
    | GiveUp(added: nat)     // the coordinator returns an error
    | Release
    | ReleaseError           // Unlock returns an error, which is only logged
    | Crash                  // the process dies, and its database session with it
    | Elsewhere(added: nat)  // clusters recorded by anyone else

  predicate Enabled(s: System, m: nat, e: Event) {
    && m in s.managers
    && match e
       case Skip => s.managers[m] == Idle
       case Acquire => s.managers[m] == Idle && s.lock.None?
       case Busy => s.managers[m] == Idle && s.lock.Some?
       case ListError => s.managers[m] == Holding
       case SeesClusters => s.managers[m] == Holding && s.clusters > 0
       case SeesNone => s.managers[m] == Holding && s.clusters == 0
       case Begin => s.managers[m] == Cleared
       case Succeed(_) => s.managers[m] == Coordinating
       case GiveUp(_) => s.managers[m] == Coordinating
       case Release => s.managers[m] == Releasing
       case ReleaseError => s.managers[m] == Releasing
       case Crash => s.managers[m] != Finished && s.managers[m] != Crashed
       case Elsewhere(_) => true
  }

  function At(s: System, m: nat, pc: Pc): System {
    s.(managers := s.managers[m := pc])
  }

  function Next(s: System, m: nat, e: Event): System
    requires Enabled(s, m, e)
  {
    match e
    case Skip => At(s, m, Finished)
    case Acquire => At(s, m, Holding).(lock := Some(m))
    case Busy => At(s, m, Finished)
    case ListError => At(s, m, Releasing)
    case SeesClusters => At(s, m, Releasing)
    case SeesNone => At(s, m, Cleared)
    case Begin => At(s, m, Coordinating)
    case Succeed(added) => At(s, m, Releasing).(clusters := s.clusters + added, successes := s.successes + 1)
    case GiveUp(added) => At(s, m, Releasing).(clusters := s.clusters + added)
    case Release => At(s, m, Finished).(lock := None)
    case ReleaseError => At(s, m, Leaking)
    case Crash => At(s, m, Crashed).(lock := if s.lock == Some(m) then None else s.lock)
    case Elsewhere(added) => s.(clusters := s.clusters + added)
  }

  type Script = seq<(nat, Event)>

  // The system after a script of events, each by the named manager.
  ghost predicate Feasible(s: System, script: Script)
    decreases |script|, 0
  {
    script == [] || (Feasible(s, script[..|script| - 1])
                     && Enabled(Exec(s, script[..|script| - 1]), script[|script| - 1].0, script[|script| - 1].1))
  }

  ghost function Exec(s: System, script: Script): System
    requires Feasible(s, script)
    decreases |script|, 1
  {
    if script == [] then s
    else Next(Exec(s, script[..|script| - 1]), script[|script| - 1].0, script[|script| - 1].1)
  }

  // A successful coordinator records a cluster.
  predicate Recording(script: Script) {
    forall i | 0 <= i < |script| :: script[i].1.Succeed? ==> script[i].1.added > 0
  }

  ghost predicate Fresh(s: System) {
    s.lock.None? && s.successes == 0 && forall m | m in s.managers :: s.managers[m] == Idle
  }

  // ----- what every reachable state satisfies -----

  predicate Inside(pc: Pc) {
    pc == Holding || pc == Cleared || pc == Coordinating || pc == Releasing
  }

  // Exactly the manager inside holds the lock, or one whose unlock failed.
  ghost predicate Excluded(s: System) {
    && (s.lock.Some? ==> s.lock.value in s.managers)
    && forall m | m in s.managers :: Inside(s.managers[m]) || s.managers[m] == Leaking <==> s.lock == Some(m)
  }

  // Once a run succeeded a cluster exists, and nobody is past the check.
  ghost predicate Once(s: System) {
    s.successes <= 1 && (s.successes == 1 ==>
        s.clusters > 0 && forall m | m in s.managers :: s.managers[m] != Cleared && s.managers[m] != Coordinating)
  }

  lemma {:induction false} AlwaysExcluded(s: System, script: Script)
    requires Fresh(s) && Feasible(s, script)
    ensures Excluded(Exec(s, script))
  {
    if script != [] { AlwaysExcluded(s, script[..|script| - 1]); }
  }

  // Mutual exclusion: no two managers are between acquire and release, so coordinators never
  // overlap.
  lemma MutualExclusion(s: System, script: Script, m: nat, n: nat)
    requires Fresh(s) && Feasible(s, script)
    requires m in Exec(s, script).managers && Inside(Exec(s, script).managers[m])
    requires n in Exec(s, script).managers && Inside(Exec(s, script).managers[n])
    ensures m == n
  {
    AlwaysExcluded(s, script);
  }

  // At most one coordinator run succeeds.
  lemma {:induction false} AtMostOneBootstrap(s: System, script: Script)
    requires Fresh(s) && Feasible(s, script) && Recording(script)
    ensures Once(Exec(s, script))
  {
    if script != [] {
      var front := script[..|script| - 1];
      assert forall i | 0 <= i < |front| :: front[i] == script[i];
      AtMostOneBootstrap(s, front);
      AlwaysExcluded(s, front);
    }
  }

  // Once every manager has finished or crashed, the session lock is free exactly when no unlock
  // failed in a process that still runs.
  lemma LockFreeAtTheEnd(s: System, script: Script)
    requires Fresh(s) && Feasible(s, script)
    requires forall m | m in Exec(s, script).managers :: Exec(s, script).managers[m] in {Finished, Leaking, Crashed}
    ensures Exec(s, script).lock.None?
            <==> forall m | m in Exec(s, script).managers :: Exec(s, script).managers[m] != Leaking
  {
    AlwaysExcluded(s, script);
  }

  // Two runs can succeed exactly when a success need not record a cluster: with the no-op
  // coordinator the manager is wired with, two managers one after the other both run it.
  lemma NoopCoordinatorRunsTwice() returns (s: System, script: Script)
    ensures Fresh(s) && s.clusters == 0 && Feasible(s, script) && !Recording(script)
    ensures Exec(s, script).successes == 2
  {
    s := System(None, 0, 0, map[0 := Idle, 1 := Idle]);
    script := NoopRun(s, [], 0);
    assert script[3] == (0, Succeed(0));
    var first := script;
    script := NoopRun(s, script, 1);
    assert script[3] == first[3];
  }

  // One manager's complete run whose coordinator succeeds without recording anything.
  lemma NoopRun(s: System, before: Script, m: nat) returns (script: Script)
    requires Feasible(s, before)
    requires var now := Exec(s, before);
             now.lock.None? && now.clusters == 0 && m in now.managers && now.managers[m] == Idle
    ensures Feasible(s, script)
    ensures script == before + [(m, Acquire), (m, SeesNone), (m, Begin), (m, Succeed(0)), (m, Release)]
    ensures Exec(s, script) == At(Exec(s, before), m, Finished).(successes := Exec(s, before).successes + 1)
  {
    hide Feasible, Exec;
    script := before;
    Continue(s, script, m, Acquire);
    script := script + [(m, Acquire)];
    Continue(s, script, m, SeesNone);
    script := script + [(m, SeesNone)];
    Continue(s, script, m, Begin);
    script := script + [(m, Begin)];
    Continue(s, script, m, Succeed(0));
    script := script + [(m, Succeed(0))];
    Continue(s, script, m, Release);
    script := script + [(m, Release)];
  }

  // ----- one manager's Run -----

  class Lock {
    var locked: bool

    // A faulty lock may answer any call with an error and then changes nothing; one that is not
    // is the in-memory lock.
    const faulty: bool

    constructor (faulty: bool)
      ensures !locked && this.faulty == faulty
    {
      this.faulty := faulty;
      locked := false;
    }

    method TryLock() returns (res: Result<bool>)
      modifies this
      ensures res.Err? ==> faulty && locked == old(locked)
      ensures res.Ok? ==> res.value == !old(locked) && locked
    {
      var fail: bool := *;
      if faulty && fail { return Err(Unavailable); }
      if locked { return Ok(false); }
      locked := true;
      return Ok(true);
    }

    method Unlock() returns (ok: bool)
      modifies this
      ensures if ok then !locked else faulty && locked == old(locked)
    {
      var fail: bool := *;
      if faulty && fail { return false; }
      locked := false;
      return true;
    }
  }

  // Clusters belong to no cluster.
  ghost predicate Unowned(rows: Rows<ClusterBody>) {
    forall id | id in rows :: rows[id].owner == ""
  }

  lemma OneClusterMore(rows: Rows<ClusterBody>, c: Cluster)
    requires Unowned(rows) && c.id !in rows && c.owner == ""
    ensures Unowned(rows[c.id := c]) && |rows[c.id := c]| == |rows| + 1
  {
    assert rows[c.id := c].Keys == rows.Keys + {c.id};
  }

  // The coordinator a guard invokes: it may record clusters, and may fail.
  class Coordinator {
    const repo: Store<ClusterBody>
    var runs: nat
    var succeeded: bool   // what the last run came to

    constructor (repo: Store<ClusterBody>)
      ensures this.repo == repo && runs == 0
    {
      this.repo := repo;
      runs, succeeded := 0, false;
    }

    method RunBootstrap(c: Cluster) returns (ok: bool)
      requires Sound(repo.rows) && Unowned(repo.rows)
      modifies this, repo
      ensures Sound(repo.rows) && Unowned(repo.rows) && runs == old(runs) + 1 && succeeded == ok
      ensures |repo.rows| >= |old(repo.rows)|
      ensures ok ==> |repo.rows| > |old(repo.rows)|
    {
      hide Sound, Unowned, Verdict, Apply, Admissible, Taken;
      runs := runs + 1;
      succeeded := false;
      var created := repo.Create(c.(owner := ""));
      if created.Err? { return false; }
      OneClusterMore(old(repo.rows), created.value);
      var giveUp: bool := *;
      succeeded := !giveUp;
      return succeeded;
    }
  }

  // One more event of the script.
  lemma Continue(s: System, script: Script, m: nat, e: Event)
    requires Feasible(s, script) && Enabled(Exec(s, script), m, e)
    ensures Feasible(s, script + [(m, e)]) && Exec(s, script + [(m, e)]) == Next(Exec(s, script), m, e)
    ensures Recording(script) && (e.Succeed? ==> e.added > 0) ==> Recording(script + [(m, e)])
  {
    assert (script + [(m, e)])[..|script|] == script;
  }

  // How the system stands when manager `me` is done. A lock still held is its own only when its
  // unlock failed; any other belongs to manager me + 1.
  ghost predicate Ends(now: System, me: nat, clusters: nat, locked: bool, faulty: bool) {
    && me in now.managers && now.clusters == clusters
    && now.managers[me] in {Finished, Leaking} && (now.managers[me] == Leaking ==> faulty)
    && now.lock == if !locked then None else Some(if now.managers[me] == Leaking then me else me + 1)
  }

  lemma NoEvents(s: System)
    ensures Feasible(s, []) && Exec(s, []) == s && Recording([])
  {
  }

  class Guard {
    const repo: Store<ClusterBody>
    const locker: Lock?

    constructor (repo: Store<ClusterBody>, locker: Lock?)
      ensures this.repo == repo && this.locker == locker
    {
      this.repo := repo;
      this.locker := locker;
    }

    // The system as manager `me` finds it; a lock already taken belongs to manager me + 1.
    ghost function Finds(me: nat): System
      reads repo, locker
    {
      var holder := if locker != null && locker.locked then Some(me + 1) else None;
      System(holder, |repo.rows|, 0, map[me := Idle, me + 1 := Idle])
    }

    predicate Dependable() {
      !repo.faulty && (locker != null ==> !locker.faulty)
    }

    // With a lock every step is a step of the protocol; the lock is left held only when an unlock
    // fails; and the coordinator runs exactly when bootstrap is enabled, the lock is free and no
    // cluster exists.
    method Run(enabled: bool, coordinator: Coordinator, c: Cluster, ghost me: nat)
      returns (ok: bool, ghost script: Script)
      requires Sound(repo.rows) && Unowned(repo.rows) && coordinator.repo == repo
      modifies coordinator, repo
      modifies if locker == null then {} else {locker}
      ensures Sound(repo.rows)
      ensures locker != null && !locker.faulty ==> locker.locked == old(locker.locked)
      ensures locker != null ==>
                && Feasible(old(Finds(me)), script) && Recording(script)
                && Ends(Exec(old(Finds(me)), script), me, |repo.rows|, locker.locked, locker.faulty)
      ensures coordinator.runs <= old(coordinator.runs) + 1
      ensures coordinator.runs > old(coordinator.runs) ==>
                enabled && old(repo.rows) == map[] && (locker != null ==> !old(locker.locked))
      ensures coordinator.runs == old(coordinator.runs) ==> repo.rows == old(repo.rows) && (Dependable() ==> ok)
      ensures coordinator.runs > old(coordinator.runs) ==> ok == coordinator.succeeded
      ensures Dependable() ==> (coordinator.runs > old(coordinator.runs) <==>
                                 enabled && old(repo.rows) == map[] && (locker != null ==> !old(locker.locked)))
    {
      hide Feasible, Exec, Recording, Ends, Next, Enabled, Sound, Unowned, Finds;
      ghost var s := Finds(me);
      script := [];
      if !enabled {
        if locker != null { EndsAtOnce(me, Skip); }
        return true, [(me, Skip)];
      }
      if locker != null {
        EndsAtOnce(me, Skip);
        if locker.locked { EndsAtOnce(me, Busy); } else { StartsHolding(me); }
        var acquired := locker.TryLock();
        if acquired.Err? {
          return false, [(me, Skip)];
        }
        if !acquired.value {
          return true, [(me, Busy)];
        }
        ok, script := UnderLock(coordinator, c, me, s, [(me, Acquire)]);
      } else {
        ok, script := CheckAndAct(coordinator, c, me, s, script);
      }
    }

    // A run that ends before it holds the lock.
    lemma EndsAtOnce(me: nat, e: Event)
      requires locker != null && (e == Skip || (e == Busy && locker.locked))
      ensures var script := [(me, e)];
              && Feasible(Finds(me), script) && Recording(script)
              && Ends(Exec(Finds(me), script), me, |repo.rows|, locker.locked, locker.faulty)
    {
      hide Feasible, Exec, Recording;
      NoEvents(Finds(me));
      Continue(Finds(me), [], me, e);
      assert [] + [(me, e)] == [(me, e)];
    }

    lemma StartsHolding(me: nat)
      requires locker != null && !locker.locked
      ensures var s, script := Finds(me), [(me, Acquire)];
              && Feasible(s, script) && Recording(script)
              && var now := Exec(s, script);
                 && me in now.managers && now.managers[me] == Holding
                 && now.clusters == |repo.rows| && now.lock == Some(me)
    {
      hide Feasible, Exec, Recording;
      NoEvents(Finds(me));
      Continue(Finds(me), [], me, Acquire);
      assert [] + [(me, Acquire)] == [(me, Acquire)];
    }

    // What follows once the lock is acquired, up to its release.
    method UnderLock(coordinator: Coordinator, c: Cluster, ghost me: nat, ghost s: System, ghost before: Script)
      returns (ok: bool, ghost script: Script)
      requires Sound(repo.rows) && Unowned(repo.rows) && coordinator.repo == repo && locker != null && locker.locked
      requires Feasible(s, before) && Recording(before) && me in Exec(s, before).managers
      requires Exec(s, before).managers[me] == Holding && Exec(s, before).clusters == |repo.rows|
      requires Exec(s, before).lock == Some(me)
      modifies coordinator, repo, locker
      ensures Sound(repo.rows) && Feasible(s, script) && Recording(script)
      ensures Ends(Exec(s, script), me, |repo.rows|, locker.locked, locker.faulty)
      ensures !locker.faulty ==> !locker.locked
      ensures coordinator.runs == old(coordinator.runs)
              || (coordinator.runs == old(coordinator.runs) + 1 && old(repo.rows) == map[])
      ensures coordinator.runs == old(coordinator.runs) ==> repo.rows == old(repo.rows) && (!repo.faulty ==> ok)
      ensures coordinator.runs > old(coordinator.runs) ==> ok == coordinator.succeeded
      ensures !repo.faulty ==> (coordinator.runs > old(coordinator.runs) <==> old(repo.rows) == map[])
    {
      hide Feasible, Exec, Recording, Sound, Unowned;
      ok, script := CheckAndAct(coordinator, c, me, s, before);
      var released := locker.Unlock();
      Continue(s, script, me, if released then Release else ReleaseError);
      script := script + [(me, if released then Release else ReleaseError)];
    }

    // The part of Run under the lock: list the clusters, act only when there is none.
    method CheckAndAct(coordinator: Coordinator, c: Cluster, ghost me: nat, ghost s: System, ghost before: Script)
      returns (ok: bool, ghost script: Script)
      requires Sound(repo.rows) && Unowned(repo.rows) && coordinator.repo == repo
      requires locker != null ==>
                 && Feasible(s, before) && Recording(before) && me in Exec(s, before).managers
                 && Exec(s, before).managers[me] == Holding && Exec(s, before).clusters == |repo.rows|
      modifies coordinator, repo
      ensures Sound(repo.rows) && Unowned(repo.rows)
      ensures locker != null ==>
                && Feasible(s, script) && Recording(script) && me in Exec(s, script).managers
                && Exec(s, script).managers[me] == Releasing && Exec(s, script).clusters == |repo.rows|
                   && Exec(s, script).lock == Exec(s, before).lock
      ensures coordinator.runs == old(coordinator.runs)
              || (coordinator.runs == old(coordinator.runs) + 1 && old(repo.rows) == map[])
      ensures coordinator.runs == old(coordinator.runs) ==> repo.rows == old(repo.rows) && (!repo.faulty ==> ok)
      ensures coordinator.runs > old(coordinator.runs) ==> ok == coordinator.succeeded
      ensures !repo.faulty ==> (coordinator.runs > old(coordinator.runs) <==> old(repo.rows) == map[])
    {
      hide Feasible, Exec, Recording;
      script := before;
      var listing := repo.List("");
      if listing.Err? {
        if locker != null { Continue(s, script, me, ListError); script := script + [(me, ListError)]; }
        return false, script;
      }
      assert |listing.value| == 0 <==> repo.rows == map[] by {
        assert forall id | id in repo.rows :: repo.rows[id] in listing.value;
        assert |listing.value| > 0 ==> listing.value[0].id in repo.rows;
        assert |repo.rows| == 0 <==> repo.rows == map[];
      }
      hide Lists;
      if |listing.value| > 0 {
        if locker != null { Continue(s, script, me, SeesClusters); script := script + [(me, SeesClusters)]; }
        return true, script;
      }
      if locker != null {
        Continue(s, script, me, SeesNone);
        script := script + [(me, SeesNone)];
        Continue(s, script, me, Begin);
        script := script + [(me, Begin)];
      }
      ok := coordinator.RunBootstrap(c);
      ghost var added: nat := |repo.rows|;
      if locker != null {
        Continue(s, script, me, if ok then Succeed(added) else GiveUp(added));
        script := script + [(me, if ok then Succeed(added) else GiveUp(added))];
      }
    }
  }
}
