// The PostgreSQL advisory lock: instances that borrow sessions from one pool, against the
// abstract lock of which at most one instance is the holder.
module AdvisoryLock {
  import opened Model

  type Session = nat
  type Instance = nat

  // What an instance is doing, between the statements of TryLock and Unlock.
  datatype Work =
    | Resting
    | Trying(session: Session)      // connection acquired, pg_try_advisory_lock to be asked
    | Storing(session: Session)     // granted, to be retained in the conn field
    | Unlocking(session: Session)   // taken out of the conn field, pg_advisory_unlock to be asked
    | Dropping(session: Session)    // to be released to the pool

  // `owner` is the session holding the advisory lock, `depth` how often it was granted to it.
  datatype Pg = Pg(
    idle: set<Session>,
    known: set<Session>,
    owner: Option<Session>,
    depth: nat,
    conn: map<Instance, Session>,   // the instances whose conn field is not nil
    work: map<Instance, Work>,      // the instances, and what they are doing
    acquired: nat,
    released: nat)

  datatype Event =
    | Borrow(session: Session)   // pool.Acquire: an idle session, or a new one
    | TryQuery
    | TryError                   // the query fails without effect
    | Retain                     // l.conn = conn
    | TakeOut                    // conn := l.conn; l.conn = nil
    | UnlockQuery
    | UnlockError                // the query fails without effect
    | Drop                       // conn.Release()

  predicate Enabled(s: Pg, i: Instance, e: Event) {
    && i in s.work
    && match e
       case Borrow(c) => s.work[i].Resting? && (c in s.idle || c !in s.known)
       case TryQuery => s.work[i].Trying?
       case TryError => s.work[i].Trying?
       case Retain => s.work[i].Storing?
       case TakeOut => s.work[i].Resting? && i in s.conn
       case UnlockQuery => s.work[i].Unlocking?
       case UnlockError => s.work[i].Unlocking?
       case Drop => s.work[i].Dropping?
  }

  function At(s: Pg, i: Instance, w: Work): Pg {
    s.(work := s.work[i := w])
  }

  // A session that holds the lock is granted it again.
  predicate Grants(s: Pg, c: Session) {
    s.owner.None? || s.owner.value == c
  }

  function Next(s: Pg, i: Instance, e: Event): Pg
    requires Enabled(s, i, e)
  {
    match e
    case Borrow(c) => At(s, i, Trying(c)).(idle := s.idle - {c}, known := s.known + {c}, acquired := s.acquired + 1)
    case TryQuery =>
      var c := s.work[i].session;
      if Grants(s, c) then At(s, i, Storing(c)).(owner := Some(c), depth := s.depth + 1) else At(s, i, Dropping(c))
    case TryError => At(s, i, Dropping(s.work[i].session))
    case Retain => At(s, i, Resting).(conn := s.conn[i := s.work[i].session])
    case TakeOut => At(s, i, Unlocking(s.conn[i])).(conn := s.conn - {i})
    case UnlockQuery =>
      var c := s.work[i].session;
      if s.owner != Some(c) then At(s, i, Dropping(c))
      else if s.depth <= 1 then At(s, i, Dropping(c)).(owner := None, depth := 0)
      else At(s, i, Dropping(c)).(depth := s.depth - 1)
    case UnlockError => At(s, i, Dropping(s.work[i].session))
    case Drop => At(s, i, Resting).(idle := s.idle + {s.work[i].session}, released := s.released + 1)
  }

  type Script = seq<(Instance, Event)>

  ghost predicate Feasible(s: Pg, script: Script)
    decreases |script|, 0
  {
    script == [] || (Feasible(s, script[..|script| - 1])
                     && Enabled(Exec(s, script[..|script| - 1]), script[|script| - 1].0, script[|script| - 1].1))
  }

  ghost function Exec(s: Pg, script: Script): Pg
    requires Feasible(s, script)
    decreases |script|, 1
  {
    if script == [] then s
    else Next(Exec(s, script[..|script| - 1]), script[|script| - 1].0, script[|script| - 1].1)
  }

  ghost predicate Fresh(s: Pg) {
    && s.owner.None? && s.depth == 0 && s.conn == map[] && s.idle == s.known
    && s.acquired == 0 && s.released == 0 && forall i | i in s.work :: s.work[i] == Resting
  }

  predicate UnlocksSucceed(script: Script) {
    forall k | 0 <= k < |script| :: script[k].1 != UnlockError
  }

  // ----- where sessions are -----

  predicate Retains(s: Pg, i: Instance, c: Session) {
    i in s.conn && s.conn[i] == c
  }

  predicate Uses(s: Pg, i: Instance, c: Session) {
    i in s.work && !s.work[i].Resting? && s.work[i].session == c
  }

  // The instance on whose behalf session c holds the lock.
  predicate Holds(s: Pg, i: Instance, c: Session) {
    Retains(s, i, c) || (Uses(s, i, c) && (s.work[i].Storing? || s.work[i].Unlocking?))
  }

  // Every known session is idle or in exactly one place: one conn field or one running call.
  ghost predicate Placed(s: Pg) {
    InRange(s) && Unshared(s) && Accounted(s)
  }

  // The borrowed connections are the acquired ones that were not released.
  ghost predicate Balanced(s: Pg) {
    s.acquired == s.released + |s.known - s.idle|
  }

  // The lock is held once, by a session some instance retains or is about to retain or unlock.
  ghost predicate Owned(s: Pg) {
    && (s.owner.None? ==> s.depth == 0 && forall i, c :: !Holds(s, i, c))
    && (s.owner.Some? ==>
          && s.depth == 1 && (exists i :: Holds(s, i, s.owner.value))
          && forall i, c | Holds(s, i, c) :: c == s.owner.value)
  }

  // How an event moves sessions between places.
  lemma Moves(s: Pg, i: Instance, e: Event)
    requires Enabled(s, i, e)
    ensures forall j, c :: Uses(Next(s, i, e), j, c) <==>
              if j != i then Uses(s, j, c)
              else match e
                   case Borrow(b) => c == b
                   case TakeOut => Retains(s, i, c)
                   case Retain => false
                   case Drop => false
                   case _ => Uses(s, i, c)
    ensures forall j, c :: Retains(Next(s, i, e), j, c) <==>
              if j != i then Retains(s, j, c)
              else match e
                   case TakeOut => false
                   case Retain => Uses(s, i, c)
                   case _ => Retains(s, i, c)
    ensures Next(s, i, e).work.Keys == s.work.Keys
  {
  }

  // How an event moves sessions in and out of the pool.
  lemma PoolMoves(s: Pg, i: Instance, e: Event)
    requires Enabled(s, i, e)
    ensures Next(s, i, e).known == (if e.Borrow? then s.known + {e.session} else s.known)
    ensures Next(s, i, e).idle ==
              match e
              case Borrow(c) => s.idle - {c}
              case Drop => s.idle + {s.work[i].session}
              case _ => s.idle
    ensures Next(s, i, e).acquired == (if e.Borrow? then s.acquired + 1 else s.acquired)
    ensures Next(s, i, e).released == (if e.Drop? then s.released + 1 else s.released)
    ensures e.Borrow? ==> e.session in s.idle || e.session !in s.known
  {
  }

  lemma StepPlaced(s: Pg, i: Instance, e: Event)
    requires Placed(s) && Balanced(s) && Enabled(s, i, e)
    requires e == Retain ==> i !in s.conn
    ensures Placed(Next(s, i, e)) && Balanced(Next(s, i, e))
  {
    PlacesMove(s, i, e);
    if e.Drop? { assert Uses(s, i, s.work[i].session); }
    hide Unshared, Accounted;
    BalanceKept(s, i, e);
  }

  lemma BalanceKept(s: Pg, i: Instance, e: Event)
    requires InRange(s) && Balanced(s) && Enabled(s, i, e)
    requires e.Drop? ==> Uses(s, i, s.work[i].session)
    ensures Balanced(Next(s, i, e))
  {
    PoolMoves(s, i, e);
    hide Next, Enabled, Balanced;
    if e.Borrow? {
      BorrowBalances(s, Next(s, i, e), e.session);
    } else if e.Drop? {
      DropBalances(s, Next(s, i, e), s.work[i].session);
    } else {
      SameBalance(s, Next(s, i, e));
    }
  }

  lemma BorrowBalances(s: Pg, s': Pg, c: Session)
    requires s.idle <= s.known && (c in s.idle || c !in s.known) && Balanced(s)
    requires s'.known == s.known + {c} && s'.idle == s.idle - {c} && s'.acquired == s.acquired + 1
    requires s'.released == s.released
    ensures Balanced(s')
  {
    assert s'.known - s'.idle == (s.known - s.idle) + {c};
  }

  lemma DropBalances(s: Pg, s': Pg, c: Session)
    requires c in s.known && c !in s.idle && Balanced(s)
    requires s'.known == s.known && s'.idle == s.idle + {c} && s'.acquired == s.acquired
    requires s'.released == s.released + 1
    ensures Balanced(s')
  {
    assert s.known - s.idle == (s'.known - s'.idle) + {c};
  }

  lemma SameBalance(s: Pg, s': Pg)
    requires Balanced(s)
    requires s'.known == s.known && s'.idle == s.idle && s'.acquired == s.acquired && s'.released == s.released
    ensures Balanced(s')
  {
  }

  ghost predicate InRange(s: Pg) {
    && s.idle <= s.known
    && (forall i, c | Retains(s, i, c) :: i in s.work && c in s.known && c !in s.idle)
    && (forall i, c | Uses(s, i, c) :: c in s.known && c !in s.idle)
  }

  ghost predicate Unshared(s: Pg) {
    && (forall i, j, c | Retains(s, i, c) && Retains(s, j, c) :: i == j)
    && (forall i, j, c | Uses(s, i, c) && Uses(s, j, c) :: i == j)
    && (forall i, j, c :: !(Retains(s, i, c) && Uses(s, j, c)))
  }

  ghost predicate Accounted(s: Pg) {
    forall c | c in s.known && c !in s.idle :: exists i :: Retains(s, i, c) || Uses(s, i, c)
  }

  lemma PlacesMove(s: Pg, i: Instance, e: Event)
    requires Placed(s) && Enabled(s, i, e)
    requires e == Retain ==> i !in s.conn
    ensures Placed(Next(s, i, e))
  {
    var s' := Next(s, i, e);
    Moves(s, i, e);
    PoolMoves(s, i, e);
    assert e == Drop ==> Uses(s, i, s.work[i].session);
    hide Next, Enabled;
    assert e == Retain ==> forall c :: !Retains(s, i, c);
    assert InRange(s') by { hide Retains, Uses; }
    assert Unshared(s') by { hide Retains, Uses; }
    forall c | c in s'.known && c !in s'.idle ensures exists j :: Retains(s', j, c) || Uses(s', j, c) {
      if e == Borrow(c) {
        assert Uses(s', i, c);
      } else {
        var j :| Retains(s, j, c) || Uses(s, j, c);
        assert Retains(s', j, c) || Uses(s', j, c);
      }
    }
  }

  // ----- who holds the lock -----

  // How an event changes who holds which session's lock.
  lemma HoldsMove(s: Pg, i: Instance, e: Event)
    requires Enabled(s, i, e)
    ensures forall j, c :: Holds(Next(s, i, e), j, c) <==>
              if j != i then Holds(s, j, c)
              else match e
                   case TryQuery => Retains(s, i, c) || (Grants(s, s.work[i].session) && c == s.work[i].session)
                   case Retain => c == s.work[i].session
                   case UnlockQuery => Retains(s, i, c)
                   case UnlockError => Retains(s, i, c)
                   case _ => Holds(s, i, c)
    ensures e.UnlockQuery? || e.UnlockError? || e.Retain? ==> Holds(s, i, s.work[i].session)
    ensures !e.Borrow? && !e.TakeOut? ==> Uses(s, i, s.work[i].session)
    ensures e.TryQuery? ==> forall c :: Holds(s, i, c) <==> Retains(s, i, c)
  {
  }

  // A stored connection never overwrites another.
  lemma RetainIntoNil(s: Pg, i: Instance)
    requires Placed(s) && Enabled(s, i, Retain) && s.owner.Some? && forall j, c | Holds(s, j, c) :: c == s.owner.value
    ensures i !in s.conn
  {
    HoldsMove(s, i, Retain);
    if i in s.conn {
      assert Retains(s, i, s.conn[i]);
      assert Holds(s, i, s.conn[i]);
    }
  }

  lemma StepOwned(s: Pg, i: Instance, e: Event)
    requires Placed(s) && Owned(s) && Enabled(s, i, e) && e != UnlockError
    ensures Owned(Next(s, i, e))
  {
    hide Placed, Owned;
    match e
    case TryQuery => TryOwned(s, i);
    case UnlockQuery => UnlockOwned(s, i);
    case Retain => RetainOwned(s, i);
    case _ => OtherOwned(s, i, e);
  }

  lemma TryOwned(s: Pg, i: Instance)
    requires Placed(s) && Owned(s) && Enabled(s, i, TryQuery)
    ensures Owned(Next(s, i, TryQuery))
  {
    HoldsMove(s, i, TryQuery);
    hide InRange, Accounted;
    var c, s' := s.work[i].session, Next(s, i, TryQuery);
    assert forall j :: !Holds(s, j, c);
    if Grants(s, c) {
      assert s.owner == None;
      hide Unshared, Holds, Retains, Uses;
      assert Holds(s', i, c);
    } else {
      var j :| Holds(s, j, s.owner.value);
      hide Unshared, Holds, Retains, Uses;
      assert Holds(s', j, s.owner.value);
    }
  }

  // The one session that holds the lock is the one whose query frees it.
  lemma UnlockOwned(s: Pg, i: Instance)
    requires Placed(s) && Owned(s) && Enabled(s, i, UnlockQuery)
    ensures Owned(Next(s, i, UnlockQuery)) && Next(s, i, UnlockQuery).owner == None
  {
    var b, s' := s.work[i].session, Next(s, i, UnlockQuery);
    HoldsMove(s, i, UnlockQuery);
    assert Holds(s, i, b);
    assert s.owner == Some(b) && s.depth == 1;
    HolderUnique(s);
    forall j, c ensures !Holds(s', j, c) {
      RetainerHolds(s, i, c);
      assert !Retains(s, i, b);
      assert Holds(s, j, c) ==> c == b && j == i;
    }
    hide Placed, Holds;
  }

  lemma RetainerHolds(s: Pg, i: Instance, c: Session)
    ensures Retains(s, i, c) ==> Holds(s, i, c)
  {
  }

  lemma RetainOwned(s: Pg, i: Instance)
    requires Placed(s) && Owned(s) && Enabled(s, i, Retain)
    ensures Owned(Next(s, i, Retain))
  {
    HoldsMove(s, i, Retain);
    OwnerMoves(s, i, Retain);
    assert Holds(s, i, s.work[i].session);
    RetainIntoNil(s, i);
    hide Placed, Next, Enabled, Holds;
    var j :| Holds(s, j, s.owner.value);
    assert Holds(Next(s, i, Retain), i, s.work[i].session);
  }

  lemma OtherOwned(s: Pg, i: Instance, e: Event)
    requires Owned(s) && Enabled(s, i, e) && !e.TryQuery? && !e.UnlockQuery? && !e.UnlockError? && !e.Retain?
    ensures Owned(Next(s, i, e))
  {
    HoldsMove(s, i, e);
    OwnerMoves(s, i, e);
    hide Next, Enabled, Holds;
    if s.owner.Some? {
      var j :| Holds(s, j, s.owner.value);
      assert Holds(Next(s, i, e), j, s.owner.value);
    }
  }

  lemma OwnerMoves(s: Pg, i: Instance, e: Event)
    requires Enabled(s, i, e)
    ensures e != TryQuery && e != UnlockQuery ==> Next(s, i, e).owner == s.owner && Next(s, i, e).depth == s.depth
  {
  }

  // While unlock queries succeed: every session is idle or in one place, the connections
  // acquired and not released are the borrowed ones, and the lock is held by at most one
  // session, never an idle one, on behalf of one instance.
  lemma {:induction false} AlwaysOwned(s: Pg, script: Script)
    requires Fresh(s) && Feasible(s, script) && UnlocksSucceed(script)
    ensures Placed(Exec(s, script)) && Balanced(Exec(s, script)) && Owned(Exec(s, script))
  {
    if script == [] {
      assert s.known - s.idle == {};
    } else {
      var n := |script| - 1;
      var front, i, e := script[..n], script[n].0, script[n].1;
      assert forall k | 0 <= k < n :: front[k] == script[k];
      AlwaysOwned(s, front);
      var now := Exec(s, front);
      hide Placed, Balanced, Owned;
      StepOwned(now, i, e);
      if e == Retain { StoredNeverOverwrites(now, i); }
      StepPlaced(now, i, e);
    }
  }

  lemma StoredNeverOverwrites(s: Pg, i: Instance)
    requires Placed(s) && Owned(s) && Enabled(s, i, Retain)
    ensures i !in s.conn
  {
    HoldsMove(s, i, Retain);
    assert Holds(s, i, s.work[i].session);
    RetainIntoNil(s, i);
  }

  // Between calls: the lock is free exactly when no conn field is set, its session is the one
  // conn field's, and the borrowed sessions are exactly the retained ones.
  lemma QuiescentLock(s: Pg, script: Script)
    requires Fresh(s) && Feasible(s, script) && UnlocksSucceed(script)
    requires forall i | i in Exec(s, script).work :: Exec(s, script).work[i].Resting?
    ensures var now := Exec(s, script);
            && (now.owner.None? <==> now.conn == map[])
            && (forall i | i in now.conn :: now.owner == Some(now.conn[i]) && now.conn[i] !in now.idle)
            && (forall i, j | i in now.conn && j in now.conn :: i == j)
            && (forall c | c in now.known - now.idle :: exists i :: Retains(now, i, c))
            && now.acquired == now.released + |now.known - now.idle|
  {
    AlwaysOwned(s, script);
    var now := Exec(s, script);
    hide Exec;
    forall i | i in now.conn ensures now.owner == Some(now.conn[i]) {
      assert Retains(now, i, now.conn[i]);
      assert Holds(now, i, now.conn[i]);
    }
    forall i, j | i in now.conn && j in now.conn ensures i == j {
      assert Retains(now, i, now.conn[i]) && Retains(now, j, now.conn[j]);
    }
    if now.owner.Some? {
      var i :| Holds(now, i, now.owner.value);
      assert Retains(now, i, now.owner.value);
    }
  }

  // ----- refinement of the abstract lock -----

  // The abstract lock knows only its holder.
  ghost function Holder(s: Pg): Option<Instance> {
    if s.owner.Some? && exists i :: Holds(s, i, s.owner.value)
    then var i :| Holds(s, i, s.owner.value); Some(i)
    else None
  }

  // TryLock on the abstract lock succeeds when it is free, Unlock frees it, and nothing else
  // changes the holder.
  lemma RefinesAbstractLock(s: Pg, i: Instance, e: Event)
    requires Placed(s) && Owned(s) && Enabled(s, i, e) && e != UnlockError
    ensures e == TryQuery ==> Holder(Next(s, i, e)) == if Holder(s).None? then Some(i) else Holder(s)
    ensures e == TryQuery ==> (Next(s, i, e).work[i].Storing? <==> Holder(s).None?)
    ensures e == UnlockQuery ==> Holder(s) == Some(i) && Holder(Next(s, i, e)).None?
    ensures e != TryQuery && e != UnlockQuery ==> Holder(Next(s, i, e)) == Holder(s)
  {
    StepOwned(s, i, e);
    HoldsMove(s, i, e);
    OwnerMoves(s, i, e);
    HolderUnique(s);
    if e == Retain {
      StoredNeverOverwrites(s, i);
    }
    PlacedNext(s, i, e);
    HolderUnique(Next(s, i, e));
    if e == TryQuery {
      assert forall j :: !Holds(s, j, s.work[i].session);
    }
    hide Placed, InRange, Unshared, Accounted;
  }

  lemma PlacedNext(s: Pg, i: Instance, e: Event)
    requires Placed(s) && Owned(s) && Enabled(s, i, e)
    ensures Placed(Next(s, i, e))
  {
    if e == Retain { StoredNeverOverwrites(s, i); }
    PlacesMove(s, i, e);
  }

  lemma HolderUnique(s: Pg)
    requires Placed(s)
    ensures forall i, j, c | Holds(s, i, c) && Holds(s, j, c) :: i == j
  {
    hide InRange, Accounted;
  }

  // ----- when an unlock query fails -----

  // More grants outstanding than anyone will ever give back.
  ghost predicate Leaked(s: Pg) {
    && s.owner.Some?
    && (forall i, c | Holds(s, i, c) :: c == s.owner.value)
    && s.depth >= 1 && ((exists i :: Holds(s, i, s.owner.value)) ==> s.depth >= 2)
  }

  // After the query the lock is free exactly when the query succeeded; otherwise its session
  // goes back to the pool still holding it.
  lemma UnlockFreesExactly(s: Pg, i: Instance)
    requires Placed(s) && Owned(s) && Enabled(s, i, UnlockQuery)
    ensures Next(s, i, UnlockQuery).owner.None?
    ensures Leaked(Next(s, i, UnlockError))
    ensures var after := Next(Next(s, i, UnlockError), i, Drop);
            after.owner == Some(s.work[i].session) && s.work[i].session in after.idle
  {
    HoldsMove(s, i, UnlockQuery);
    HoldsMove(s, i, UnlockError);
    HolderUnique(s);
    assert Holds(s, i, s.work[i].session);
  }

  lemma StepLeaked(s: Pg, i: Instance, e: Event)
    requires Placed(s) && Leaked(s) && Enabled(s, i, e)
    ensures Placed(Next(s, i, e)) && Leaked(Next(s, i, e))
  {
    HoldsMove(s, i, e);
    OwnerMoves(s, i, e);
    if e == Retain { RetainIntoNil(s, i); }
    PlacesMove(s, i, e);
    HolderUnique(s);
    var s' := Next(s, i, e);
    if e == TryQuery {
      assert forall j :: !Holds(s, j, s.work[i].session);
    } else if e == UnlockQuery || e == UnlockError {
      assert Holds(s, i, s.work[i].session) && s.work[i].session == s.owner.value && s.depth >= 2;
      var b := s.work[i].session;
      assert !Retains(s, i, b);
      forall j, c ensures !Holds(s', j, c) {
        assert Retains(s, i, c) ==> Holds(s, i, c);
        assert Holds(s, j, c) ==> c == b && j == i;
      }
    } else {
      assert forall j, c :: Holds(s', j, c) ==> Holds(s, j, c);
    }
    hide Placed, InRange, Unshared, Accounted, Holds, Retains, Uses;
  }

  // A leaked lock is never free again, whatever calls follow, until its session ends.
  lemma {:induction false} LeakIsForever(s: Pg, script: Script)
    requires Placed(s) && Leaked(s) && Feasible(s, script)
    ensures Placed(Exec(s, script)) && Leaked(Exec(s, script)) && Exec(s, script).owner.Some?
  {
    if script != [] {
      var n := |script| - 1;
      LeakIsForever(s, script[..n]);
      hide Placed;
      StepLeaked(Exec(s, script[..n]), script[n].0, script[n].1);
    }
  }

  // ----- the code -----

  // Over every run from a fresh pool: the lock is held by the one session some instance keeps, or
  // by none, exactly when every unlock query has succeeded.
  lemma OwnedExactlyWhenUnlocksSucceed(s: Pg, script: Script)
    requires Fresh(s) && Feasible(s, script)
    ensures Owned(Exec(s, script)) <==> UnlocksSucceed(script)
  {
    OwnedOrLeaked(s, script);
    if UnlocksSucceed(script) { AlwaysOwned(s, script); }
    hide Fresh, Feasible, Exec, UnlocksSucceed;
    if Leaked(Exec(s, script)) { LeakedNotOwned(Exec(s, script)); }
  }

  lemma LeakedNotOwned(s: Pg)
    requires Leaked(s)
    ensures !Owned(s)
  {
  }

  lemma {:induction false} OwnedOrLeaked(s: Pg, script: Script)
    requires Fresh(s) && Feasible(s, script)
    ensures Placed(Exec(s, script))
    ensures UnlocksSucceed(script) || Leaked(Exec(s, script))
  {
    hide Placed, Leaked, Owned, Next, Enabled;
    if UnlocksSucceed(script) {
      AlwaysOwned(s, script);
    } else {
      var n := |script| - 1;
      var front, i, e := script[..n], script[n].0, script[n].1;
      assert forall k | 0 <= k < n :: front[k] == script[k];
      OwnedOrLeaked(s, front);
      if UnlocksSucceed(front) {
        AlwaysOwned(s, front);
        LeaksAt(Exec(s, front), i);
      } else {
        StepLeaked(Exec(s, front), i, e);
      }
    }
  }

  lemma LeaksAt(s: Pg, i: Instance)
    requires Placed(s) && Owned(s) && Enabled(s, i, UnlockError)
    ensures Placed(Next(s, i, UnlockError)) && Leaked(Next(s, i, UnlockError))
  {
    hide Placed, Owned, Leaked;
    UnlockFreesExactly(s, i);
    PlacesMove(s, i, UnlockError);
  }

  lemma Continue(s: Pg, script: Script, i: Instance, e: Event)
    requires Feasible(s, script) && Enabled(Exec(s, script), i, e)
    ensures Feasible(s, script + [(i, e)]) && Exec(s, script + [(i, e)]) == Next(Exec(s, script), i, e)
  {
    assert (script + [(i, e)])[..|script|] == script;
  }

  // The pool and the database behind it. Each call is one event of the protocol.
  class Pool {
    var pg: Pg

    // Borrowing from an unreliable pool, and every query over it, may fail.
    const reliable: bool

    constructor (instances: set<Instance>, reliable: bool)
      ensures Fresh(pg) && pg.work.Keys == instances && this.reliable == reliable
    {
      this.reliable := reliable;
      pg := Pg({}, {}, None, 0, map[], map i | i in instances :: Resting, 0, 0);
    }

    method Acquire(i: Instance) returns (conn: Option<Session>)
      requires i in pg.work && pg.work[i].Resting?
      modifies this
      ensures reliable ==> conn.Some?
      ensures conn.None? ==> pg == old(pg)
      ensures conn.Some? ==> Enabled(old(pg), i, Borrow(conn.value)) && pg == Next(old(pg), i, Borrow(conn.value))
    {
      var fail: bool := *;
      if !reliable && fail { return None; }
      var c: Session :| c in pg.idle || c !in pg.known by { SomeSession(pg.known); }
      pg := Next(pg, i, Borrow(c));
      return Some(c);
    }

    // None is a failed query.
    method TryAdvisoryLock(i: Instance) returns (granted: Option<bool>)
      requires i in pg.work && pg.work[i].Trying?
      modifies this
      ensures reliable ==> granted.Some?
      ensures granted.None? ==> pg == Next(old(pg), i, TryError)
      ensures granted.Some? ==>
                  pg == Next(old(pg), i, TryQuery) && granted.value == Grants(old(pg), old(pg).work[i].session)
    {
      var fail: bool := *;
      if !reliable && fail { pg := Next(pg, i, TryError); return None; }
      granted := Some(Grants(pg, pg.work[i].session));
      pg := Next(pg, i, TryQuery);
    }

    method AdvisoryUnlock(i: Instance) returns (released: Option<bool>)
      requires i in pg.work && pg.work[i].Unlocking?
      modifies this
      ensures reliable ==> released.Some?
      ensures released.None? ==> pg == Next(old(pg), i, UnlockError)
      ensures released.Some? ==>
                && pg == Next(old(pg), i, UnlockQuery)
                && released.value == (old(pg).owner == Some(old(pg).work[i].session))
    {
      var fail: bool := *;
      if !reliable && fail { pg := Next(pg, i, UnlockError); return None; }
      released := Some(pg.owner == Some(pg.work[i].session));
      pg := Next(pg, i, UnlockQuery);
    }

    // A step that only moves the connection.
    method Move(i: Instance, e: Event)
      requires (e == Retain || e == TakeOut || e == Drop) && Enabled(pg, i, e)
      modifies this
      ensures pg == Next(old(pg), i, e)
    {
      pg := Next(pg, i, e);
    }
  }

  lemma SomeSession(known: set<Session>)
    ensures exists c: Session :: c !in known
  {
    assert Above(known) !in known;
  }

  ghost function Above(known: set<Session>): (c: Session)
    ensures forall k | k in known :: k < c
  {
    if known == {} then 0 else
      var k :| k in known;
      var rest := Above(known - {k});
      assert forall j | j in known :: j == k || j in known - {k};
      if k < rest then rest else k + 1
  }

  // A session that holds the lock is a known one and not idle.
  ghost predicate InUse(s: Pg) {
    s.owner.Some? ==> s.owner.value in s.known - s.idle
  }

  lemma OwnedInUse(s: Pg)
    requires Placed(s) && Owned(s)
    ensures InUse(s)
  {
    if s.owner.Some? {
      var i :| Holds(s, i, s.owner.value);
    }
  }

  class AdvisoryLock {
    const pool: Pool
    const me: Instance
    var conn: Option<Session>

    constructor (pool: Pool, me: Instance)
      requires me in pool.pg.work && pool.pg.work[me] == Resting && me !in pool.pg.conn
      ensures Valid() && this.pool == pool && this.me == me
    {
      this.pool, this.me, this.conn := pool, me, None;
    }

    ghost predicate Valid()
      reads this, pool
    {
      && me in pool.pg.work && pool.pg.work[me] == Resting
      && conn == (if me in pool.pg.conn then Some(pool.pg.conn[me]) else None)
    }

    // A granted lock is held by the session now in the conn field; in every other case the
    // lock and the borrowed sessions are as before.
    method TryLock() returns (res: Result<bool>, ghost script: Script)
      requires Valid()
      modifies this`conn, pool
      ensures Valid()
      ensures Feasible(old(pool.pg), script) && pool.pg == Exec(old(pool.pg), script) && UnlocksSucceed(script)
      ensures res == Ok(true) ==> conn.Some? && pool.pg.owner == conn && pool.pg.depth == old(pool.pg).depth + 1
      ensures res == Ok(false) ==> old(pool.pg).owner.Some?
      // over a reliable pool the answer is whether the lock was free
      ensures pool.reliable ==> res.Ok?
      ensures pool.reliable && InUse(old(pool.pg)) ==> res == Ok(old(pool.pg).owner.None?)
      ensures res != Ok(true) ==>
                && conn == old(conn) && pool.pg.conn == old(pool.pg).conn
                && pool.pg.owner == old(pool.pg).owner && pool.pg.depth == old(pool.pg).depth
                && pool.pg.acquired - old(pool.pg).acquired == pool.pg.released - old(pool.pg).released
    {
      hide Feasible, Exec;
      ghost var before := pool.pg;
      script := Nothing(before);
      var borrowed := pool.Acquire(me);
      if borrowed.None? { return Err(Unavailable), script; }
      Continue(before, script, me, Borrow(borrowed.value));
      script := script + [(me, Borrow(borrowed.value))];

      var granted := pool.TryAdvisoryLock(me);
      ghost var asked := if granted.None? then TryError else TryQuery;
      Continue(before, script, me, asked);
      script := script + [(me, asked)];
      if granted.None? || !granted.value {
        Continue(before, script, me, Drop);
        script := script + [(me, Drop)];
        pool.Move(me, Drop);
        res := if granted.None? then Err(Unavailable) else Ok(false);
        return;
      }
      Continue(before, script, me, Retain);
      script := script + [(me, Retain)];
      pool.Move(me, Retain);
      conn := borrowed;
      return Ok(true), script;
    }

    // The conn field is cleared and its connection released whatever the query answers.
    method Unlock() returns (res: Result<()>, ghost script: Script)
      requires Valid()
      modifies this`conn, pool
      ensures Valid() && conn.None?
      ensures Feasible(old(pool.pg), script) && pool.pg == Exec(old(pool.pg), script)
      ensures old(conn).None? ==> res == Ok(()) && pool.pg == old(pool.pg)
      ensures old(conn).Some? ==> old(conn).value in pool.pg.idle && pool.pg.released == old(pool.pg).released + 1
      ensures pool.reliable ==> (res.Ok? <==> old(conn).None? || old(pool.pg).owner == old(conn))
      ensures res.Ok? ==> UnlocksSucceed(script)
      ensures res.Ok? && old(conn).Some? ==>
                  old(pool.pg).owner == old(conn) && (old(pool.pg).depth <= 1 ==> pool.pg.owner.None?)
    {
      hide Feasible, Exec, Next, Enabled, UnlocksSucceed;
      ghost var before := pool.pg;
      script := Nothing(before);
      AllSucceed(me, script);
      if conn.None? { return Ok(()), script; }
      UnlockSteps(before, me, UnlockQuery);
      UnlockSteps(before, me, UnlockError);
      Continue(before, script, me, TakeOut);
      script := script + [(me, TakeOut)];
      pool.Move(me, TakeOut);
      conn := None;

      var released := pool.AdvisoryUnlock(me);
      ghost var asked := if released.None? then UnlockError else UnlockQuery;
      Continue(before, script, me, asked);
      script := script + [(me, asked)];
      Continue(before, script, me, Drop);
      script := script + [(me, Drop)];
      pool.Move(me, Drop);
      res := if released == Some(true) then Ok(()) else Err(Unavailable);
      assert released.Some? ==> UnlocksSucceed(script) by { AllSucceed(me, script); }
    }
  }

  lemma AllSucceed(me: Instance, script: Script)
    ensures script == [(me, TakeOut), (me, UnlockQuery), (me, Drop)] || script == [] ==> UnlocksSucceed(script)
  {
  }

  // The three steps of an unlock, whatever the query answers.
  lemma UnlockSteps(s: Pg, i: Instance, query: Event)
    requires i in s.conn && i in s.work && s.work[i] == Resting && (query == UnlockQuery || query == UnlockError)
    ensures Enabled(s, i, TakeOut)
    ensures var out := Next(s, i, TakeOut);
            && i in out.work && out.work[i] == Unlocking(s.conn[i]) && out.owner == s.owner && Enabled(out, i, query)
            && var asked := Next(out, i, query);
               Enabled(asked, i, Drop)
               && var done := Next(asked, i, Drop);
                  && i in done.work && done.work[i] == Resting && i !in done.conn
                  && s.conn[i] in done.idle && done.released == s.released + 1
                  && (query == UnlockQuery && s.owner == Some(s.conn[i]) && s.depth <= 1 ==> done.owner.None?)
  {
  }

  ghost function Nothing(s: Pg): (script: Script)
    ensures Feasible(s, script) && Exec(s, script) == s && script == []
  {
    []
  }
}
