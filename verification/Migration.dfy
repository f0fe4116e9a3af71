// The migration runner: Up applies the pending forward scripts in path order, Down rolls
// back the highest recorded version. Each script runs in one transaction with the change
// of its row in schema_migrations.
module Migration {
  import opened Model
  import opened ByteOrder
  import opened MigrationPaths

  // What a script does to the schema, or that it fails on it.
  type Script<!S> = S -> Option<S>

  type Files<!S> = map<string, Script<S>>

  datatype Db<S> = Db(schema: S, versions: set<string>)

  // ----- sorted listings -----

  predicate Ascending(s: seq<string>) {
    forall i, j | 0 <= i < j < |s| :: Below(s[i], s[j])
  }

  ghost predicate IsLeast(p: string, paths: set<string>) {
    p in paths && forall q | q in paths && q != p :: Below(p, q)
  }

  lemma {:induction false} LeastExists(paths: set<string>)
    requires paths != {}
    ensures exists p :: IsLeast(p, paths)
  {
    var x :| x in paths;
    var rest := paths - {x};
    if rest == {} {
      assert paths == {x};
      assert IsLeast(x, paths);
    } else {
      LeastExists(rest);
      var y :| IsLeast(y, rest);
      Trichotomy(x, y);
      if Below(x, y) {
        forall q | q in paths && q != x ensures Below(x, q) {
          if q != y { Transitive(x, y, q); }
        }
        assert IsLeast(x, paths);
      } else {
        assert IsLeast(y, paths);
      }
    }
  }

  ghost function InOrder(paths: set<string>): (r: seq<string>)
    ensures Ascending(r) && |r| == |paths| && forall p :: p in r <==> p in paths
  {
    if paths == {} then [] else
      LeastExists(paths);
      var p :| IsLeast(p, paths);
      [p] + InOrder(paths - {p})
  }

  // There is only one ascending listing, so the order of the directory walk is forgotten.
  lemma {:induction false} OneListing(a: seq<string>, b: seq<string>)
    requires Ascending(a) && Ascending(b) && |a| == |b| && forall p :: p in a <==> p in b
    ensures a == b
  {
    if a != [] {
      assert a[0] in b;
      var x, y := a[0], b[0];
      assert x in b && y in a;
      assert x == y || Below(y, x);
      assert x == y || Below(x, y);
      if Below(x, y) { Asymmetric(x, y); }
      Irreflexive(x);
      forall p ensures p in a[1..] <==> p in b[1..] {
        assert p in a <==> p == x || p in a[1..];
        assert p in b <==> p == x || p in b[1..];
      }
      OneListing(a[1..], b[1..]);
      assert a == [x] + a[1..] && b == [x] + b[1..];
    }
  }

  ghost function PathsOf<S>(files: Files<S>, direction: string): seq<string> {
    InOrder(set p | p in files && HasSuffix(p, "." + direction + ".sql"))
  }

  // A listed file with its version.
  datatype Listed = Listed(path: string, version: string)

  function Named(paths: seq<string>): seq<Listed> {
    if paths == [] then []
    else Named(paths[..|paths| - 1]) + [Listed(paths[|paths| - 1], VersionFromPath(paths[|paths| - 1]))]
  }

  lemma {:induction false} NamedAt(paths: seq<string>)
    ensures |Named(paths)| == |paths|
    ensures forall i | 0 <= i < |paths| :: Named(paths)[i] == Listed(paths[i], VersionFromPath(paths[i]))
  {
    hide VersionFromPath;
    if paths != [] { NamedAt(paths[..|paths| - 1]); }
  }

  ghost function Ups<S>(files: Files<S>): seq<Listed> { Named(PathsOf(files, "up")) }
  ghost function Downs<S>(files: Files<S>): seq<Listed> { Named(PathsOf(files, "down")) }

  // The scripts with the forward and the rollback files in the order they are listed.
  datatype Plan<!S> = Plan(files: Files<S>, ups: seq<Listed>, downs: seq<Listed>)

  ghost function PlanOf<S>(files: Files<S>): Plan<S> {
    Plan(files, Ups(files), Downs(files))
  }

  // ----- the two transactions -----

  // A script that cannot be read fails like one that cannot be run.
  function Outcome<S>(m: Plan<S>, path: string, schema: S): Option<S> {
    if path in m.files then m.files[path](schema) else None
  }

  function Applied<S>(m: Plan<S>, db: Db<S>, file: Listed): Option<Db<S>> {
    match Outcome(m, file.path, db.schema)
    case None => None
    case Some(s) => if file.version in db.versions then None else Some(Db(s, db.versions + {file.version}))
  }

  function RolledBack<S>(m: Plan<S>, db: Db<S>, path: string, version: string): Option<Db<S>> {
    match Outcome(m, path, db.schema)
    case None => None
    case Some(s) => Some(Db(s, db.versions - {version}))
  }

  // ----- what Up does -----

  // The fold of the scripts, each together with its version row.
  function Play<S>(m: Plan<S>, db: Db<S>, paths: seq<Listed>): Option<Db<S>> {
    if paths == [] then Some(db) else
    match Play(m, db, paths[..|paths| - 1])
    case None => None
    case Some(d) => Applied(m, d, paths[|paths| - 1])
  }

  function Pending(paths: seq<Listed>, versions: set<string>): seq<Listed> {
    if paths == [] then [] else
    var front, p := Pending(paths[..|paths| - 1], versions), paths[|paths| - 1];
    if p.version in versions then front else front + [p]
  }

  function VersionsOf(paths: seq<Listed>): set<string> {
    set p | p in paths :: p.version
  }

  ghost predicate DistinctVersions(paths: seq<Listed>) {
    forall i, j | 0 <= i < j < |paths| :: paths[i].version != paths[j].version
  }

  ghost function Waiting<S>(m: Plan<S>, db: Db<S>): seq<Listed> {
    Pending(m.ups, db.versions)
  }

  // ----- what Down does -----

  ghost predicate IsHighest(v: string, versions: set<string>) {
    v in versions && forall w | w in versions && w != v :: Below(w, v)
  }

  lemma {:induction false} HighestExists(versions: set<string>)
    requires versions != {}
    ensures exists v :: IsHighest(v, versions)
  {
    var x :| x in versions;
    var rest := versions - {x};
    if rest == {} {
      assert versions == {x};
      assert IsHighest(x, versions);
    } else {
      HighestExists(rest);
      var y :| IsHighest(y, rest);
      Trichotomy(x, y);
      if Below(y, x) {
        forall q | q in versions && q != x ensures Below(q, x) {
          if q != y { Transitive(q, y, x); }
        }
        assert IsHighest(x, versions);
      } else {
        assert IsHighest(y, versions);
      }
    }
  }

  lemma HighestUnique(v: string, w: string, versions: set<string>)
    requires IsHighest(v, versions) && IsHighest(w, versions)
    ensures v == w
  {
    if Below(v, w) { Asymmetric(v, w); }
  }

  // The empty string means that nothing is applied.
  ghost function Latest(versions: set<string>): (v: string)
    ensures versions != {} ==> IsHighest(v, versions)
  {
    if versions == {} then "" else
      HighestExists(versions);
      var v :| IsHighest(v, versions);
      v
  }

  function Find(paths: seq<Listed>, version: string): Option<Listed> {
    if paths == [] then None
    else if paths[0].version == version then Some(paths[0])
    else Find(paths[1..], version)
  }

  // A failure-free Down; None is an error.
  ghost function Undo<S>(m: Plan<S>, db: Db<S>): Option<Db<S>> {
    var latest := Latest(db.versions);
    if latest == "" then Some(db) else
    match Find(m.downs, latest)
    case None => None
    case Some(p) => RolledBack(m, db, p.path, latest)
  }

  lemma {:induction false} Found(paths: seq<Listed>, version: string, i: nat)
    requires i <= |paths| && forall j | 0 <= j < i :: paths[j].version != version
    ensures i == |paths| ==> Find(paths, version) == None
    ensures i < |paths| && paths[i].version == version ==> Find(paths, version) == Some(paths[i])
  {
    if i > 0 { Found(paths[1..], version, i - 1); }
  }

  lemma {:induction false} FoundMeans(paths: seq<Listed>, version: string)
    ensures match Find(paths, version)
            case Some(p) => p in paths && p.version == version
            case None => forall p | p in paths :: p.version != version
  {
    if paths != [] { FoundMeans(paths[1..], version); }
  }

  // ----- facts about the fold -----

  lemma {:induction false} PlayAppend<S>(m: Plan<S>, db: Db<S>, a: seq<Listed>, b: seq<Listed>)
    ensures Play(m, db, a + b) ==
            match Play(m, db, a) case None => None case Some(d) => Play(m, d, b)
  {
    if b == [] {
      assert a + b == a;
    } else {
      PlayAppend(m, db, a, b[..|b| - 1]);
      assert (a + b)[..|a + b| - 1] == a + b[..|b| - 1];
    }
  }

  lemma {:induction false} PlayVersions<S>(m: Plan<S>, db: Db<S>, paths: seq<Listed>)
    requires Play(m, db, paths).Some?
    ensures Play(m, db, paths).value.versions == db.versions + VersionsOf(paths)
  {
    if paths != [] {
      var front, p := paths[..|paths| - 1], paths[|paths| - 1];
      PlayVersions(m, db, front);
      assert paths == front + [p];
      VersionsAppend(front, [p]);
    }
  }

  // The scripts of `paths` ran one after another, each on what the one before had left.
  ghost predicate RanThrough<S>(files: Files<S>, paths: seq<Listed>, schemas: seq<S>) {
    && |schemas| == |paths| + 1
    && forall i | 0 <= i < |paths| ::
         paths[i].path in files && files[paths[i].path](schemas[i]) == Some(schemas[i + 1])
  }

  ghost predicate RanAll<S(!new)>(files: Files<S>, paths: seq<Listed>, start: S, end: S) {
    exists schemas: seq<S> | RanThrough(files, paths, schemas) :: schemas[0] == start && schemas[|paths|] == end
  }

  // The fold is defined exactly when the scripts run one after another and no version is
  // recorded twice; then it ends at the last schema, with every version recorded.
  lemma {:induction false} PlayMeans<S(!new)>(m: Plan<S>, db: Db<S>, paths: seq<Listed>, db': Db<S>)
    ensures Play(m, db, paths) == Some(db')
            <==> RanAll(m.files, paths, db.schema, db'.schema) && FreshVersions(paths, db.versions)
                 && db'.versions == db.versions + VersionsOf(paths)
  {
    hide RanAll, Applied, FreshVersions, VersionsOf, Play;
    if paths == [] {
      PlayNone(m, db, db');
      assert db.versions + VersionsOf(paths) == db.versions;
    } else {
      var front, p := paths[..|paths| - 1], paths[|paths| - 1];
      assert paths == front + [p];
      VersionsAppend(front, [p]);
      PlayLast(m, db, front, p);
      if Play(m, db, paths) == Some(db') {
        var d := Play(m, db, front).value;
        PlayMeans(m, db, front, d);
        RanOneMore(m, db, d, front, p, db');
      }
      if RanAll(m.files, paths, db.schema, db'.schema) && FreshVersions(paths, db.versions)
          && db'.versions == db.versions + VersionsOf(paths) {
        var d := RanOneLess(m, db, front, p, db');
        PlayMeans(m, db, front, d);
      }
    }
  }

  lemma PlayNone<S(!new)>(m: Plan<S>, db: Db<S>, db': Db<S>)
    ensures Play(m, db, []) == Some(db)
    ensures VersionsOf([]) == {} && FreshVersions([], db.versions)
    ensures RanAll(m.files, [], db.schema, db'.schema) <==> db.schema == db'.schema
  {
    if db.schema == db'.schema { assert RanThrough(m.files, [], [db.schema]); }
  }

  lemma PlayLast<S>(m: Plan<S>, db: Db<S>, front: seq<Listed>, p: Listed)
    ensures Play(m, db, front + [p]) ==
            match Play(m, db, front) case None => None case Some(d) => Applied(m, d, p)
  {
    assert (front + [p])[..|front|] == front;
  }

  // Every version is new when its file's turn comes.
  ghost predicate FreshVersions(paths: seq<Listed>, versions: set<string>) {
    DistinctVersions(paths) && forall p | p in paths :: p.version !in versions
  }

  lemma RanOneMore<S(!new)>(m: Plan<S>, db: Db<S>, d: Db<S>, front: seq<Listed>, p: Listed, db': Db<S>)
    requires RanAll(m.files, front, db.schema, d.schema) && FreshVersions(front, db.versions)
    requires d.versions == db.versions + VersionsOf(front) && Applied(m, d, p) == Some(db')
    ensures RanAll(m.files, front + [p], db.schema, db'.schema) && FreshVersions(front + [p], db.versions)
    ensures db'.versions == db.versions + VersionsOf(front + [p])
  {
    VersionsAppend(front, [p]);
    var schemas :| RanThrough(m.files, front, schemas) && schemas[0] == db.schema && schemas[|front|] == d.schema;
    assert RanThrough(m.files, front + [p], schemas + [db'.schema]);
  }

  lemma RanOneLess<S(!new)>(m: Plan<S>, db: Db<S>, front: seq<Listed>, p: Listed, db': Db<S>) returns (d: Db<S>)
    requires RanAll(m.files, front + [p], db.schema, db'.schema) && FreshVersions(front + [p], db.versions)
    requires db'.versions == db.versions + VersionsOf(front + [p])
    ensures RanAll(m.files, front, db.schema, d.schema) && FreshVersions(front, db.versions)
    ensures d.versions == db.versions + VersionsOf(front) && Applied(m, d, p) == Some(db')
  {
    var all, n := front + [p], |front|;
    VersionsAppend(front, [p]);
    var schemas :| RanThrough(m.files, all, schemas) && schemas[0] == db.schema && schemas[n + 1] == db'.schema;
    d := Db(schemas[n], db.versions + VersionsOf(front));
    assert RanThrough(m.files, front, schemas[..n + 1]) by {
      assert forall i | 0 <= i < n :: all[i] == front[i];
    }
    assert all[n] == p && p in all;
    forall q | q in front ensures q.version != p.version && q in all {
      var i :| 0 <= i < n && front[i] == q;
      assert all[i] == q;
    }
    assert FreshVersions(front, db.versions) by {
      assert forall i | 0 <= i < n :: all[i] == front[i];
    }
    assert p.version !in d.versions;
    assert d.versions + {p.version} == db'.versions;
  }

  lemma VersionsAppend(a: seq<Listed>, b: seq<Listed>)
    ensures VersionsOf(a + b) == VersionsOf(a) + VersionsOf(b)
    ensures |b| == 1 ==> VersionsOf(b) == {b[0].version}
  {
    forall v ensures v in VersionsOf(a + b) <==> v in VersionsOf(a) + VersionsOf(b) {
      forall p | p in a + b ensures p in a || p in b {}
      forall p | p in a || p in b ensures p in a + b {}
    }
    if |b| == 1 { assert b[0] in b; }
  }

  lemma {:induction false} PendingPrefix(paths: seq<Listed>, versions: set<string>, i: nat)
    requires i <= |paths|
    ensures Pending(paths[..i], versions) <= Pending(paths, versions)
  {
    if i < |paths| {
      var front := paths[..|paths| - 1];
      PendingPrefix(front, versions, i);
      assert front[..i] == paths[..i];
    } else {
      assert paths[..i] == paths;
    }
  }

  lemma {:induction false} PendingMeans(paths: seq<Listed>, versions: set<string>)
    ensures forall p :: p in Pending(paths, versions) <==> p in paths && p.version !in versions
  {
    if paths != [] {
      var front, p := paths[..|paths| - 1], paths[|paths| - 1];
      PendingMeans(front, versions);
      assert paths == front + [p];
    }
  }

  lemma {:induction false} NonePending(paths: seq<Listed>, versions: set<string>)
    requires forall p | p in paths :: p.version in versions
    ensures Pending(paths, versions) == []
  {
    if paths != [] { NonePending(paths[..|paths| - 1], versions); }
  }

  lemma NothingStaysPending(paths: seq<Listed>, versions: set<string>)
    ensures Pending(paths, versions + VersionsOf(Pending(paths, versions))) == []
  {
    PendingMeans(paths, versions);
    hide Pending;
    NonePending(paths, versions + VersionsOf(Pending(paths, versions)));
  }

  // What is pending after the first n pending files have been applied.
  lemma {:induction false} PendingShrinks(paths: seq<Listed>, versions: set<string>, n: nat)
    requires DistinctVersions(paths) && n <= |Pending(paths, versions)|
    ensures Pending(paths, versions + VersionsOf(Pending(paths, versions)[..n])) == Pending(paths, versions)[n..]
  {
    var all := Pending(paths, versions);
    if paths != [] {
      var front, p := paths[..|paths| - 1], paths[|paths| - 1];
      var before := Pending(front, versions);
      PendingMeans(front, versions);
      assert forall q | q in front :: q.version != p.version;
      if n <= |before| {
        PendingShrinks(front, versions, n);
        assert all[..n] == before[..n];
        assert forall q | q in before[..n] :: q in before;
      } else {
        assert all[..n] == all && all[n..] == [];
        NothingStaysPending(paths, versions);
      }
    }
  }

  // ----- Up after Up -----

  // However far a first Up came, a second one is left with the rest, and where it succeeds
  // it ends where one uninterrupted Up would have ended.
  lemma RerunCompletes<S>(m: Plan<S>, a: Db<S>, n: nat)
    requires DistinctVersions(m.ups) && n <= |Waiting(m, a)|
    requires Play(m, a, Waiting(m, a)[..n]).Some?
    ensures var b := Play(m, a, Waiting(m, a)[..n]).value;
            && Waiting(m, b) == Waiting(m, a)[n..]
            && Play(m, b, Waiting(m, b)) == Play(m, a, Waiting(m, a))
  {
    hide Play, Pending, VersionsOf, DistinctVersions;
    var todo := Waiting(m, a);
    PlayVersions(m, a, todo[..n]);
    PendingShrinks(m.ups, a.versions, n);
    PlayAppend(m, a, todo[..n], todo[n..]);
    assert todo[..n] + todo[n..] == todo;
  }

  // After a successful Up nothing is pending.
  lemma NothingLeft<S>(m: Plan<S>, a: Db<S>)
    requires DistinctVersions(m.ups) && Play(m, a, Waiting(m, a)).Some?
    ensures Waiting(m, Play(m, a, Waiting(m, a)).value) == []
  {
    assert Waiting(m, a)[..|Waiting(m, a)|] == Waiting(m, a);
    RerunCompletes(m, a, |Waiting(m, a)|);
  }

  // ----- every run of Ups and Downs -----

  ghost predicate Increasing(paths: seq<Listed>) {
    forall i, j | 0 <= i < j < |paths| :: Below(paths[i].version, paths[j].version)
  }

  // The migrations are numbered in path order, and every down script inverts its up script.
  ghost predicate WellFormed<S(!new)>(m: Plan<S>) {
    && Increasing(m.ups)
    && (forall u | u in m.ups :: u.version != "")
    && (forall u, d | u in m.ups && d in m.downs && u.version == d.version :: Inverts(m, d, u))
  }

  ghost predicate Inverts<S(!new)>(m: Plan<S>, down: Listed, up: Listed) {
    forall s: S :: Outcome(m, up.path, s).Some? ==> Outcome(m, down.path, Outcome(m, up.path, s).value) == Some(s)
  }

  lemma IncreasingDistinct(paths: seq<Listed>)
    requires Increasing(paths)
    ensures DistinctVersions(paths)
  {
    forall i, j | 0 <= i < j < |paths| ensures paths[i].version != paths[j].version {
      Irreflexive(paths[i].version);
    }
  }

  // The first k migrations, and nothing else, have been applied to an empty database.
  ghost predicate At<S>(m: Plan<S>, empty: S, db: Db<S>, k: nat) {
    k <= |m.ups| && Play(m, Db(empty, {}), m.ups[..k]) == Some(db)
  }

  // The first k scripts have run one after another, and exactly their versions are recorded.
  ghost predicate Prefix<S(!new)>(m: Plan<S>, empty: S, db: Db<S>) {
    exists k: nat | k <= |m.ups| ::
      RanAll(m.files, m.ups[..k], empty, db.schema) && db.versions == VersionsOf(m.ups[..k])
  }

  lemma AtIsPrefix<S(!new)>(m: Plan<S>, empty: S, db: Db<S>, k: nat)
    requires At(m, empty, db, k)
    ensures RanAll(m.files, m.ups[..k], empty, db.schema) && db.versions == VersionsOf(m.ups[..k])
  {
    hide Play, RanAll, VersionsOf;
    PlayMeans(m, Db(empty, {}), m.ups[..k], db);
    assert Db(empty, {}).versions + VersionsOf(m.ups[..k]) == VersionsOf(m.ups[..k]);
  }

  // Up may stop after any of its files; Down may fail, and then it changes nothing.
  ghost predicate UpStep<S>(m: Plan<S>, a: Db<S>, b: Db<S>) {
    exists n: nat | n <= |Waiting(m, a)| :: Play(m, a, Waiting(m, a)[..n]) == Some(b)
  }

  ghost predicate DownStep<S>(m: Plan<S>, a: Db<S>, b: Db<S>) {
    b == a || Undo(m, a) == Some(b)
  }

  ghost predicate Run<S>(m: Plan<S>, states: seq<Db<S>>) {
    forall i | 0 <= i < |states| - 1 :: UpStep(m, states[i], states[i + 1]) || DownStep(m, states[i], states[i + 1])
  }

  lemma AtVersions<S>(m: Plan<S>, empty: S, db: Db<S>, k: nat)
    requires At(m, empty, db, k)
    ensures db.versions == VersionsOf(m.ups[..k])
  {
    PlayVersions(m, Db(empty, {}), m.ups[..k]);
  }

  lemma {:induction false} NothingApplied(paths: seq<Listed>)
    ensures Pending(paths, {}) == paths
  {
    if paths != [] {
      NothingApplied(paths[..|paths| - 1]);
      assert paths == paths[..|paths| - 1] + [paths[|paths| - 1]];
    }
  }

  lemma WaitingAt<S>(m: Plan<S>, empty: S, db: Db<S>, k: nat)
    requires DistinctVersions(m.ups) && At(m, empty, db, k)
    ensures Waiting(m, db) == m.ups[k..]
  {
    NothingApplied(m.ups);
    RerunCompletes(m, Db(empty, {}), k);
  }

  lemma UpMoves<S>(m: Plan<S>, empty: S, a: Db<S>, k: nat, n: nat)
    requires DistinctVersions(m.ups) && At(m, empty, a, k) && n <= |Waiting(m, a)|
    requires Play(m, a, Waiting(m, a)[..n]).Some?
    ensures At(m, empty, Play(m, a, Waiting(m, a)[..n]).value, k + n)
  {
    hide Waiting, Play, DistinctVersions;
    WaitingAt(m, empty, a, k);
    PlayAppend(m, Db(empty, {}), m.ups[..k], m.ups[k..][..n]);
    assert m.ups[..k] + m.ups[k..][..n] == m.ups[..k + n];
  }

  // The version of the last path is the highest one.
  lemma LastIsHighest(paths: seq<Listed>)
    requires Increasing(paths) && paths != []
    ensures IsHighest(paths[|paths| - 1].version, VersionsOf(paths))
  {
    var last := paths[|paths| - 1];
    assert last in paths;
    forall v | v in VersionsOf(paths) && v != last.version ensures Below(v, last.version) {
      var i :| 0 <= i < |paths| && paths[i].version == v;
    }
  }

  lemma LatestAt<S(!new)>(m: Plan<S>, empty: S, db: Db<S>, k: nat)
    requires WellFormed(m) && At(m, empty, db, k) && k > 0
    ensures Latest(db.versions) == m.ups[k - 1].version && Latest(db.versions) != ""
  {
    AtVersions(m, empty, db, k);
    LastIsHighest(m.ups[..k]);
    HighestUnique(m.ups[k - 1].version, Latest(db.versions), db.versions);
    assert m.ups[k - 1] in m.ups;
  }

  // From k migrations a successful Down leads to k - 1 of them.
  lemma UndoMoves<S(!new)>(m: Plan<S>, empty: S, a: Db<S>, k: nat)
    requires WellFormed(m) && At(m, empty, a, k) && Undo(m, a).Some?
    ensures At(m, empty, Undo(m, a).value, if k == 0 then 0 else k - 1)
  {
    hide Outcome;
    if k == 0 {
      assert a.versions == {};
    } else {
      var ups := m.ups;
      var u, v := ups[k - 1], ups[k - 1].version;
      LatestAt(m, empty, a, k);
      FoundMeans(m.downs, v);
      var d := Find(m.downs, v).value;
      assert ups[..k][..k - 1] == ups[..k - 1] && ups[..k][k - 1] == u && u in ups;
      var b := Play(m, Db(empty, {}), ups[..k - 1]).value;
      assert Applied(m, b, u) == Some(a);
      assert Inverts(m, d, u);
      assert Outcome(m, d.path, a.schema) == Some(b.schema);
      assert a.versions - {v} == b.versions;
      assert Undo(m, a) == Some(b);
    }
  }

  // After any sequence of Ups and Downs on an empty database, stopped wherever they may be, the
  // first k up scripts have run one after another and exactly their versions are recorded.
  lemma RunKeepsPrefix<S(!new)>(m: Plan<S>, empty: S, states: seq<Db<S>>)
    requires WellFormed(m) && states != [] && states[0] == Db(empty, {}) && Run(m, states)
    ensures Prefix(m, empty, states[|states| - 1])
  {
    hide WellFormed, Run, RanAll, Play, VersionsOf;
    var k := RunKeepsAt(m, empty, states);
    AtIsPrefix(m, empty, states[|states| - 1], k);
  }

  lemma {:induction false} RunKeepsAt<S(!new)>(m: Plan<S>, empty: S, states: seq<Db<S>>) returns (k: nat)
    requires WellFormed(m) && states != [] && states[0] == Db(empty, {}) && Run(m, states)
    ensures At(m, empty, states[|states| - 1], k)
  {
    var last := states[|states| - 1];
    if |states| == 1 {
      k := 0;
    } else {
      var front := states[..|states| - 1];
      var a := front[|front| - 1];
      assert a == states[|states| - 2];
      k := RunKeepsAt(m, empty, front);
      IncreasingDistinct(m.ups);
      k := StepMoves(m, empty, a, last, k);
    }
  }

  lemma StepMoves<S(!new)>(m: Plan<S>, empty: S, a: Db<S>, b: Db<S>, k: nat) returns (j: nat)
    requires WellFormed(m) && DistinctVersions(m.ups) && At(m, empty, a, k)
    requires UpStep(m, a, b) || DownStep(m, a, b)
    ensures At(m, empty, b, j)
  {
    hide Waiting, Undo, At, Play, WellFormed, DistinctVersions;
    if UpStep(m, a, b) {
      var n: nat :| n <= |Waiting(m, a)| && Play(m, a, Waiting(m, a)[..n]) == Some(b);
      UpMoves(m, empty, a, k, n);
      j := k + n;
    } else if b == a {
      j := k;
    } else {
      UndoMoves(m, empty, a, k);
      j := if k == 0 then 0 else k - 1;
    }
  }

  // ----- Down after Up -----

  ghost function UndoTimes<S>(m: Plan<S>, db: Db<S>, n: nat): Option<Db<S>>
    decreases n
  {
    if n == 0 then Some(db) else
    match Undo(m, db)
    case None => None
    case Some(d) => UndoTimes(m, d, n - 1)
  }

  // n Downs lead from k + n migrations back to the first k of them.
  lemma {:induction false} DownsGoBack<S(!new)>(m: Plan<S>, empty: S, a: Db<S>, b: Db<S>, k: nat, n: nat)
    requires WellFormed(m) && At(m, empty, a, k) && At(m, empty, b, k + n)
    requires forall u | u in m.ups :: Find(m.downs, u.version).Some?
    ensures UndoTimes(m, b, n) == Some(a)
    decreases n
  {
    hide Undo, WellFormed;
    if n > 0 {
      UndoSucceeds(m, empty, b, k + n);
      DownsGoBack(m, empty, a, Undo(m, b).value, k, n - 1);
    }
  }

  // An Up that applied n migrations is undone by n Downs.
  lemma DownsUndoUp<S(!new)>(m: Plan<S>, empty: S, a: Db<S>, k: nat, n: nat)
    requires WellFormed(m) && At(m, empty, a, k) && n <= |Waiting(m, a)|
    requires forall u | u in m.ups :: Find(m.downs, u.version).Some?
    requires Play(m, a, Waiting(m, a)[..n]).Some?
    ensures UndoTimes(m, Play(m, a, Waiting(m, a)[..n]).value, n) == Some(a)
  {
    hide Waiting, Undo, At, Play;
    IncreasingDistinct(m.ups);
    UpMoves(m, empty, a, k, n);
    DownsGoBack(m, empty, a, Play(m, a, Waiting(m, a)[..n]).value, k, n);
  }

  lemma UndoSucceeds<S(!new)>(m: Plan<S>, empty: S, a: Db<S>, k: nat)
    requires WellFormed(m) && At(m, empty, a, k) && k > 0
    requires forall u | u in m.ups :: Find(m.downs, u.version).Some?
    ensures Undo(m, a).Some? && At(m, empty, Undo(m, a).value, k - 1)
  {
    hide Outcome;
    var ups := m.ups;
    var u := ups[k - 1];
    assert ups[..k][..k - 1] == ups[..k - 1] && ups[..k][k - 1] == u && u in ups;
    LatestAt(m, empty, a, k);
    FoundMeans(m.downs, u.version);
    var d := Find(m.downs, u.version).value;
    assert Inverts(m, d, u);
    UndoMoves(m, empty, a, k);
  }

  // ----- when Down undoes what was applied last -----

  // Down takes back the file the last Up applied last, if and only if no version recorded
  // before that Up is above it.
  lemma DownTakesLastApplied<S>(m: Plan<S>, a: Db<S>, n: nat)
    requires Increasing(m.ups) && 0 < n <= |Waiting(m, a)|
    requires Play(m, a, Waiting(m, a)[..n]).Some?
    ensures var last := Waiting(m, a)[n - 1].version;
            (Latest(Play(m, a, Waiting(m, a)[..n]).value.versions) == last)
            <==> forall v | v in a.versions :: Below(v, last)
  {
    var done := Waiting(m, a)[..n];
    var last := done[n - 1].version;
    var versions := Play(m, a, done).value.versions;
    PlayVersions(m, a, done);
    PendingIncreasing(m.ups, a.versions);
    PendingMeans(m.ups, a.versions);
    LastIsHighest(done);
    assert done[n - 1] in Waiting(m, a);
    if forall v | v in a.versions :: Below(v, last) {
      assert IsHighest(last, versions);
      HighestUnique(last, Latest(versions), versions);
    }
  }

  lemma {:induction false} PendingIncreasing(paths: seq<Listed>, versions: set<string>)
    requires Increasing(paths)
    ensures Increasing(Pending(paths, versions))
  {
    if paths != [] {
      var front, p := paths[..|paths| - 1], paths[|paths| - 1];
      PendingIncreasing(front, versions);
      PendingMeans(front, versions);
      var before := Pending(front, versions);
      forall i | 0 <= i < |before| ensures Below(before[i].version, p.version) {
        assert before[i] in before;
        var j :| 0 <= j < |front| && front[j] == before[i];
        assert paths[j] == front[j];
      }
    }
  }

  lemma UpSuffix()
    ensures "." + "up" + ".sql" == ".up.sql"
  {
  }

  const LATE := Listed("2.up.sql", "2")
  const EARLY := Listed("3.up.sql", "3")

  function LateFiles(): Files<int> {
    map[LATE.path := (s: int) => Some(s), EARLY.path := (s: int) => Some(s)]
  }

  lemma LateUps()
    ensures Ups(LateFiles()) == [LATE, EARLY] && Below("2", "3")
  {
    hide VersionFromPath, Named, HasSuffix, Below;
    UpSuffix();
    LatePaths();
    assert (set p | p in LateFiles() && HasSuffix(p, ".up.sql")) == {LATE.path, EARLY.path};
    OneListing(PathsOf(LateFiles(), "up"), [LATE.path, EARLY.path]);
    hide PathsOf;
    LateNames();
  }

  lemma LatePaths()
    ensures HasSuffix(LATE.path, ".up.sql") && HasSuffix(EARLY.path, ".up.sql")
    ensures Below(LATE.path, EARLY.path) && Below("2", "3")
  {
    assert LATE.path[1..] == ".up.sql" && EARLY.path[1..] == ".up.sql";
  }

  lemma LateNames()
    ensures Named([LATE.path, EARLY.path]) == [LATE, EARLY]
  {
    hide VersionFromPath;
    NamedAt([LATE.path, EARLY.path]);
    VersionRoundTrip("", "2", "up");
    VersionRoundTrip("", "3", "up");
    assert PathOf("", "2", "up") == LATE.path && PathOf("", "3", "up") == EARLY.path;
  }

  // Otherwise it takes back an older one: here version 2 arrives after version 3 was applied.
  lemma LateVersionKept()
    ensures Increasing(Ups(LateFiles()))
    ensures Waiting(PlanOf(LateFiles()), Db(0, {"3"})) == [LATE]
    ensures Play(PlanOf(LateFiles()), Db(0, {"3"}), [LATE]) == Some(Db(0, {"3", "2"}))
    ensures Latest({"3", "2"}) == "3"
  {
    hide Ups, Downs;
    LateUps();
    assert [LATE, EARLY][..1] == [LATE] && [LATE][..0] == [];
    assert Pending([LATE], {"3"}) == [LATE];
    assert {"3"} + {"2"} == {"3", "2"};
    assert "2" !in {"3"};
    assert Applied(PlanOf(LateFiles()), Db(0, {"3"}), LATE) == Some(Db(0, {"3", "2"}));
    assert IsHighest("3", {"3", "2"});
    HighestUnique("3", Latest({"3", "2"}), {"3", "2"});
  }

  // Down leads from this prefix to the one before it.
  ghost predicate StepsBack<S>(m: Plan<S>, empty: S, db: Db<S>, k: nat)
    requires k > 0
  {
    Undo(m, db).Some? && At(m, empty, Undo(m, db).value, k - 1)
  }

  // Last in, first out: where every script runs and has an inverse, Down leads from every prefix
  // to the one before it exactly when the versions increase along the paths.
  lemma LastInFirstOut<S(!new)>(m: Plan<S>, empty: S)
    requires Play(m, Db(empty, {}), m.ups).Some?
    requires forall u | u in m.ups :: u.version != "" && Find(m.downs, u.version).Some?
    requires forall u, d | u in m.ups && d in m.downs && u.version == d.version :: Inverts(m, d, u)
    ensures (forall k, db | 0 < k && At(m, empty, db, k) :: StepsBack(m, empty, db, k)) <==> Increasing(m.ups)
  {
    hide Undo, At, Play, Find, Inverts;
    if Increasing(m.ups) {
      forall k, db | 0 < k && At(m, empty, db, k) ensures StepsBack(m, empty, db, k) {
        UndoSucceeds(m, empty, db, k);
      }
    }
    if forall k, db | 0 < k && At(m, empty, db, k) :: StepsBack(m, empty, db, k) {
      forall i, j | 0 <= i < j < |m.ups| ensures Below(m.ups[i].version, m.ups[j].version) {
        var db := ReachedPrefix(m, empty, j + 1);
        assert StepsBack(m, empty, db, j + 1);
        TakenBackIsHighest(m, empty, db, j + 1, i);
      }
    }
  }

  lemma ReachedPrefix<S>(m: Plan<S>, empty: S, k: nat) returns (db: Db<S>)
    requires k <= |m.ups| && Play(m, Db(empty, {}), m.ups).Some?
    ensures At(m, empty, db, k)
  {
    hide Play;
    PlayAppend(m, Db(empty, {}), m.ups[..k], m.ups[k..]);
    assert m.ups[..k] + m.ups[k..] == m.ups;
    db := Play(m, Db(empty, {}), m.ups[..k]).value;
  }

  // What was applied last was not recorded before.
  lemma LastIsNew<S>(m: Plan<S>, empty: S, db: Db<S>, k: nat)
    requires At(m, empty, db, k) && k > 0
    ensures m.ups[k - 1].version !in VersionsOf(m.ups[..k - 1])
    ensures db.versions == VersionsOf(m.ups[..k - 1]) + {m.ups[k - 1].version}
  {
    assert m.ups[..k][..k - 1] == m.ups[..k - 1];
    PlayVersions(m, Db(empty, {}), m.ups[..k - 1]);
    hide Play, VersionsOf;
  }

  // A Down that leads back to the prefix before took back the highest version.
  lemma TakenBackIsHighest<S>(m: Plan<S>, empty: S, db: Db<S>, k: nat, i: nat)
    requires i + 1 < k && At(m, empty, db, k) && StepsBack(m, empty, db, k)
    requires forall u | u in m.ups :: u.version != ""
    ensures Below(m.ups[i].version, m.ups[k - 1].version)
  {
    var last, front := m.ups[k - 1].version, m.ups[..k - 1];
    LastIsNew(m, empty, db, k);
    AtVersions(m, empty, Undo(m, db).value, k - 1);
    assert front[i] == m.ups[i] && front[i] in front;
    assert forall v | v in db.versions :: v != "";
    hide Play, Find, VersionsOf;
    var latest := Latest(db.versions);
    assert latest in db.versions;
    assert Undo(m, db).value.versions == db.versions - {latest};
    assert latest == last;
  }

  // ----- one directory -----

  // The layout the repository uses: every file in one directory, named by a version made of
  // bytes above the dot and without slashes.
  ghost predicate OneDirectory<S>(files: Files<S>, dir: string) {
    Directory(dir) && forall p | p in files :: exists v, direction :: NamedBy(p, dir, v, direction)
  }

  ghost predicate NamedBy(p: string, dir: string, v: string, direction: string) {
    p == PathOf(dir, v, direction) && AboveDot(v) && NoSlash(v) && v != "" && direction in {"up", "down"}
  }

  lemma DownPathHasW(dir: string, v: string)
    ensures var p := PathOf(dir, v, "down"); |p| > 6 && p[|p| - 6] == 'w'
  {
    assert PathOf(dir, v, "down") == (dir + v + ".do") + "wn.sql";
  }

  lemma UpPathHasU(p: string)
    requires HasSuffix(p, ".up.sql")
    ensures |p| > 6 && p[|p| - 6] == 'u'
  {
    var tail := p[|p| - 7..];
    assert tail == ".up.sql";
    assert tail[1] == 'u';
    assert p[|p| - 7 + 1] == tail[1];
  }

  lemma UpPathsAreUps(p: string, dir: string, v: string, direction: string)
    requires Directory(dir) && NamedBy(p, dir, v, direction) && HasSuffix(p, ".up.sql")
    ensures p == PathOf(dir, v, "up") && VersionFromPath(p) == v
  {
    hide VersionFromPath, HasSuffix, PathOf;
    VersionRoundTrip(dir, v, direction);
    DownPathHasW(dir, v);
    UpPathHasU(p);
  }

  // Then Up applies the files in version order, so that every theorem above applies.
  lemma OneDirectoryIncreasing<S>(files: Files<S>, dir: string)
    requires OneDirectory(files, dir)
    ensures Increasing(Ups(files)) && forall u | u in Ups(files) :: u.version != ""
  {
    hide VersionFromPath, AboveDot, NoSlash, PathOf, Below, Ups, OneDirectory, Directory;
    var ups := Ups(files);
    forall u | u in ups ensures u.version != "" {
      var i :| 0 <= i < |ups| && ups[i] == u;
      UpNamed(files, dir, i);
    }
    forall i, j | 0 <= i < j < |ups| ensures Below(ups[i].version, ups[j].version) {
      UpNamed(files, dir, i);
      UpNamed(files, dir, j);
      UpsAscend(files, i, j);
      PathOrderIsVersionOrder(dir, ups[i].version, ups[j].version, "up");
    }
  }

  lemma UpsAscend<S>(files: Files<S>, i: nat, j: nat)
    requires i < j < |Ups(files)|
    ensures Below(Ups(files)[i].path, Ups(files)[j].path)
  {
    hide HasSuffix, VersionFromPath, Named;
    NamedAt(PathsOf(files, "up"));
  }

  lemma UpNamed<S>(files: Files<S>, dir: string, i: nat)
    requires OneDirectory(files, dir) && i < |Ups(files)|
    ensures var u := Ups(files)[i]; u.version != "" && AboveDot(u.version) && u.path == PathOf(dir, u.version, "up")
  {
    hide VersionFromPath, PathOf, AboveDot, NoSlash, Named;
    NamedAt(PathsOf(files, "up"));
    UpSuffix();
    var p := PathsOf(files, "up")[i];
    assert p in PathsOf(files, "up");
    var v, direction :| NamedBy(p, dir, v, direction);
    UpPathsAreUps(p, dir, v, direction);
  }

  // ----- the runner -----

  class Runner<S(!new)> {
    const files: Files<S>

    // Every call into the database or the file system of an unreliable runner may fail.
    const reliable: bool

    // The database: both fields change in one commit or not at all.
    var schema: S
    var versions: set<string>

    constructor (files: Files<S>, reliable: bool, empty: S)
      ensures this.files == files && this.reliable == reliable && Now() == Db(empty, {})
    {
      this.files := files;
      this.reliable := reliable;
      schema := empty;
      versions := {};
    }

    ghost function Now(): Db<S>
      reads this
    {
      Db(schema, versions)
    }

    method Lost() returns (lost: bool)
      ensures reliable ==> !lost
    {
      var chance: bool := *;
      return !reliable && chance;
    }

    // The walk reports the files in any order; sort.Strings puts them in byte order.
    method ListFiles(direction: string) returns (listing: Option<seq<string>>)
      ensures listing.Some? ==> listing.value == PathsOf(files, direction)
      ensures reliable ==> listing.Some?
    {
      var suffix := "." + direction + ".sql";
      var paths: set<string> := {};
      var todo := files.Keys;
      while todo != {}
        invariant todo <= files.Keys
        invariant paths == set p | p in files.Keys - todo && HasSuffix(p, suffix)
        decreases todo
      {
        var lost := Lost();
        if lost { return None; }
        var p :| p in todo;
        todo := todo - {p};
        if HasSuffix(p, suffix) { paths := paths + {p}; }
      }
      assert Ascending(InOrder(paths));
      var sorted: seq<string> :| Ascending(sorted) && |sorted| == |paths| && (forall p | p in sorted :: p in paths)
          && (forall p | p in paths :: p in sorted);
      OneListing(sorted, InOrder(paths));
      assert paths == set p | p in files && HasSuffix(p, suffix);
      return Some(sorted);
    }

    method ReadFile(path: string) returns (script: Option<Script<S>>)
      ensures script.Some? ==> path in files && script.value == files[path]
      ensures reliable ==> script.Some? == (path in files)
    {
      var lost := Lost();
      if lost || path !in files { return None; }
      return Some(files[path]);
    }

    method ApplyFile(path: string, version: string) returns (ok: bool)
      modifies this
      ensures if ok
              then Applied(PlanOf(files), old(Now()), Listed(path, version)) == Some(Now())
              else Now() == old(Now())
      // the script has run on the schema it found, and only its version is new
      ensures ok ==>
                && path in files && files[path](old(schema)) == Some(schema)
                && version !in old(versions) && versions == old(versions) + {version}
      ensures reliable ==> ok == Applied(PlanOf(files), old(Now()), Listed(path, version)).Some?
      ensures reliable && !ok ==> path !in files || files[path](schema) == None || version in versions
    {
      var script := ReadFile(path);
      if script == None { return false; }
      var lost := Lost();                      // BeginTx
      if lost { return false; }
      var tx := Db(schema, versions);
      lost := Lost();                          // the script
      var changed := script.value(tx.schema);
      if lost || changed == None { return false; }
      tx := tx.(schema := changed.value);
      lost := Lost();                          // INSERT, under the primary key
      if lost || version in tx.versions { return false; }
      tx := tx.(versions := tx.versions + {version});
      lost := Lost();                          // Commit
      if lost { return false; }
      schema, versions := tx.schema, tx.versions;
      return true;
    }

    method RollbackFile(path: string, version: string) returns (ok: bool)
      modifies this
      ensures if ok then RolledBack(PlanOf(files), old(Now()), path, version) == Some(Now()) else Now() == old(Now())
      ensures ok ==>
                path in files && files[path](old(schema)) == Some(schema) && versions == old(versions) - {version}
      ensures reliable ==> ok == RolledBack(PlanOf(files), old(Now()), path, version).Some?
      ensures reliable && !ok ==> path !in files || files[path](schema) == None
    {
      var script := ReadFile(path);
      if script == None { return false; }
      var lost := Lost();
      if lost { return false; }
      var tx := Db(schema, versions);
      lost := Lost();
      var changed := script.value(tx.schema);
      if lost || changed == None { return false; }
      tx := tx.(schema := changed.value);
      lost := Lost();
      if lost { return false; }
      tx := tx.(versions := tx.versions - {version});
      lost := Lost();
      if lost { return false; }
      schema, versions := tx.schema, tx.versions;
      return true;
    }

    // The highest version; empty when there is none.
    method LatestVersion() returns (latest: Option<string>)
      ensures latest.Some? ==> latest.value == Latest(versions)
      ensures reliable ==> latest.Some?
    {
      var lost := Lost();
      if lost { return None; }
      if versions == {} { return Some(""); }
      HighestExists(versions);
      var v :| v in versions && forall w | w in versions && w != v :: Below(w, v);
      HighestUnique(v, Latest(versions), versions);
      return Some(v);
    }

    // Up has applied exactly the first `count` pending files, schema change and version row
    // together, and nothing of the next one.
    method Up() returns (count: nat, ok: bool)
      modifies this
      ensures count <= |Waiting(PlanOf(files), old(Now()))|
      ensures Play(PlanOf(files), old(Now()), Waiting(PlanOf(files), old(Now()))[..count]) == Some(Now())
      ensures RanAll(files, Waiting(PlanOf(files), old(Now()))[..count], old(schema), schema)
      ensures versions == old(versions) + VersionsOf(Waiting(PlanOf(files), old(Now()))[..count])
      ensures ok ==> count == |Waiting(PlanOf(files), old(Now()))|
      // after a successful Up the version of every forward script is on record
      ensures ok ==> forall p | p in files && HasSuffix(p, ".up.sql") :: VersionFromPath(p) in versions
      ensures reliable && !ok ==>
                && count < |Waiting(PlanOf(files), old(Now()))|
                && var next := Waiting(PlanOf(files), old(Now()))[count];
                   next.path !in files || files[next.path](schema) == None || next.version in versions
      ensures UpStep(PlanOf(files), old(Now()), Now())
    {
      hide VersionFromPath, HasSuffix, Named, Applied, Waiting, PathsOf, Pending, Play, RanAll, VersionsOf;
      ghost var all := Waiting(PlanOf(files), Now());
      PlayNothing(PlanOf(files), Now(), all);
      UpFolds(files, Now(), Now(), 0);
      var lost := Lost();                      // ensureTable
      if lost { return 0, false; }
      var listing := ListFiles("up");
      if listing == None { return 0, false; }
      lost := Lost();                          // appliedVersions
      if lost { return 0, false; }
      var paths, applied := listing.value, versions;
      ghost var named := Named(paths);
      NamedAt(paths);
      WaitingMeans(files, Now());
      PendingNone(named, applied);
      count := 0;
      for i := 0 to |paths|
        invariant Pending(named[..i], applied) <= all && count == |Pending(named[..i], applied)|
        invariant Play(PlanOf(files), old(Now()), all[..count]) == Some(Now())
        invariant RanAll(files, all[..count], old(schema), schema)
        invariant versions == old(versions) + VersionsOf(all[..count])
      {
        var f := paths[i];
        var version := VersionFromPath(f);
        PendingNext(named, applied, i);
        PendingPrefix(named, applied, i + 1);
        if version in applied { continue; }
        PlayNext(PlanOf(files), old(Now()), all, count);
        var done := ApplyFile(f, version);
        if !done { return count, false; }
        count := count + 1;
        UpFolds(files, old(Now()), Now(), count);
      }
      EveryUpRecorded(files, old(Now()));
      assert named[..|paths|] == named;
      assert all[..count] == all;
      return count, true;
    }

    method Down() returns (count: nat, ok: bool)
      modifies this
      ensures if ok then Undo(PlanOf(files), old(Now())) == Some(Now()) else Now() == old(Now())
      // a rollback script of the highest version has run, and only that version is gone
      ensures ok && count == 1 ==> exists p | p in files && HasSuffix(p, ".down.sql") ::
                && IsHighest(VersionFromPath(p), old(versions))
                && files[p](old(schema)) == Some(schema) && versions == old(versions) - {VersionFromPath(p)}
      ensures count == if ok && Latest(old(versions)) != "" then 1 else 0
      ensures reliable ==> ok == Undo(PlanOf(files), old(Now())).Some?
      // it can only be missing, or fail
      ensures reliable && !ok ==>
                || (forall p | p in files && HasSuffix(p, ".down.sql") :: VersionFromPath(p) != Latest(versions))
                || (exists p | p in files && HasSuffix(p, ".down.sql") ::
                      VersionFromPath(p) == Latest(versions) && files[p](schema) == None)
      ensures DownStep(PlanOf(files), old(Now()), Now())
    {
      hide VersionFromPath, Named, HasSuffix, PathsOf, RolledBack;
      var lost := Lost();                      // ensureTable
      if lost { return 0, false; }
      var latest := LatestVersion();
      if latest == None { return 0, false; }
      if latest.value == "" { return 0, true; }
      var listing := ListFiles("down");
      if listing == None { return 0, false; }
      var paths := listing.value;
      NamedAt(paths);
      DownPaths(files);
      var i := 0;
      while i < |paths| && VersionFromPath(paths[i]) != latest.value
        invariant i <= |paths| && forall j | 0 <= j < i :: VersionFromPath(paths[j]) != latest.value
      {
        i := i + 1;
      }
      Found(Named(paths), latest.value, i);
      if i == |paths| { return 0, false; }
      assert paths[i] in paths;
      var done := RollbackFile(paths[i], latest.value);
      if !done { return 0, false; }
      return 1, true;
    }
  }

  lemma DownPaths<S>(files: Files<S>)
    ensures forall p :: p in PathsOf(files, "down") <==> p in files && HasSuffix(p, ".down.sql")
  {
    hide HasSuffix;
    assert "." + "down" + ".sql" == ".down.sql";
  }

  // What the fold of the first n pending files means.
  lemma UpFolds<S(!new)>(files: Files<S>, start: Db<S>, now: Db<S>, n: nat)
    requires n <= |Waiting(PlanOf(files), start)|
    requires Play(PlanOf(files), start, Waiting(PlanOf(files), start)[..n]) == Some(now)
    ensures RanAll(files, Waiting(PlanOf(files), start)[..n], start.schema, now.schema)
    ensures now.versions == start.versions + VersionsOf(Waiting(PlanOf(files), start)[..n])
  {
    hide Play, RanAll, VersionsOf, Waiting, Ups, Downs;
    PlayMeans(PlanOf(files), start, Waiting(PlanOf(files), start)[..n], now);
  }

  // A forward script's version is on record, or its file is pending.
  lemma EveryUpRecorded<S>(files: Files<S>, db: Db<S>)
    ensures forall p | p in files && HasSuffix(p, ".up.sql") ::
              VersionFromPath(p) in db.versions + VersionsOf(Waiting(PlanOf(files), db))
  {
    hide VersionFromPath, HasSuffix, Named, Pending;
    var paths := PathsOf(files, "up");
    UpSuffix();
    NamedAt(paths);
    PendingMeans(Named(paths), db.versions);
    forall p | p in files && HasSuffix(p, ".up.sql")
      ensures VersionFromPath(p) in db.versions + VersionsOf(Waiting(PlanOf(files), db))
    {
      assert p in set q | q in files && HasSuffix(q, "." + "up" + ".sql");
      assert p in paths;
      var i :| 0 <= i < |paths| && paths[i] == p;
      assert Named(paths)[i] in Named(paths);
    }
  }

  lemma WaitingMeans<S>(files: Files<S>, db: Db<S>)
    ensures Waiting(PlanOf(files), db) == Pending(Named(PathsOf(files, "up")), db.versions)
  {
  }

  lemma PlayNothing<S>(m: Plan<S>, db: Db<S>, paths: seq<Listed>)
    ensures Play(m, db, paths[..0]) == Some(db)
  {
  }

  lemma PendingNone(paths: seq<Listed>, versions: set<string>)
    ensures Pending(paths[..0], versions) == []
  {
  }

  lemma PlayNext<S>(m: Plan<S>, db: Db<S>, paths: seq<Listed>, k: nat)
    requires k < |paths|
    ensures Play(m, db, paths[..k + 1]) ==
            match Play(m, db, paths[..k]) case None => None case Some(d) => Applied(m, d, paths[k])
  {
    assert paths[..k + 1][..k] == paths[..k];
  }

  lemma PendingNext(paths: seq<Listed>, versions: set<string>, i: nat)
    requires i < |paths|
    ensures Pending(paths[..i + 1], versions) ==
            Pending(paths[..i], versions) + if paths[i].version in versions then [] else [paths[i]]
  {
    assert paths[..i + 1][..i] == paths[..i];
  }
}
