// The in-memory repositories: one keyed table per kind of record, with unique names per
// cluster. ClusterStore, NodeStore and InstanceStore differ only in the record they hold.
module Memory {
  import opened Model

  type Rows<P> = map<string, Row<P>>

  // ----- what every reachable table satisfies -----

  ghost predicate Keyed<P(!new)>(rows: Rows<P>) {
    "" !in rows && forall id | id in rows :: rows[id].id == id
  }

  ghost predicate NamesUnique<P(!new)>(rows: Rows<P>) {
    forall a, b | a in rows && b in rows && rows[a].owner == rows[b].owner && rows[a].name == rows[b].name :: a == b
  }

  ghost predicate Sound<P(!new)>(rows: Rows<P>) {
    Keyed(rows) && NamesUnique(rows)
  }

  predicate Taken<P>(rows: Rows<P>, owner: string, name: string) {
    exists id | id in rows :: rows[id].owner == owner && rows[id].name == name
  }

  predicate TakenByOther<P>(rows: Rows<P>, r: Row<P>) {
    exists id | id in rows :: rows[id].id != r.id && rows[id].owner == r.owner && rows[id].name == r.name
  }

  // `out` enumerates the rows of one cluster, in some order, each once.
  ghost predicate Lists<P(!new)>(rows: Rows<P>, owner: string, out: seq<Row<P>>) {
    && (forall i | 0 <= i < |out| :: out[i].id in rows && rows[out[i].id] == out[i] && out[i].owner == owner)
    && (forall i, j | 0 <= i < j < |out| :: out[i].id != out[j].id)
    && (forall id | id in rows && rows[id].owner == owner :: rows[id] in out)
  }

  // Two listings of the same rows are permutations of each other.
  lemma ListsPermute<P(!new)>(rows: Rows<P>, owner: string, a: seq<Row<P>>, b: seq<Row<P>>)
    requires Lists(rows, owner, a) && Lists(rows, owner, b)
    ensures multiset(a) == multiset(b)
  {
    forall x: Row<P> ensures multiset(a)[x] == multiset(b)[x] {
      CountDistinct(a, x);
      CountDistinct(b, x);
      assert x in a ==> x.id in rows && rows[x.id] == x;
      assert x in b ==> x.id in rows && rows[x.id] == x;
    }
  }

  lemma {:induction false} CountDistinct<P(!new)>(s: seq<Row<P>>, x: Row<P>)
    requires forall i, j | 0 <= i < j < |s| :: s[i].id != s[j].id
    ensures multiset(s)[x] == if x in s then 1 else 0
  {
    if s != [] {
      var front := s[..|s| - 1];
      assert s == front + [s[|s| - 1]];
      CountDistinct(front, x);
    }
  }

  // ----- the operations as functions -----

  datatype Op<P> =
    | Create(row: Row<P>, id: string, now: int)   // `id` and `now` are the fresh id and the clock
    | Update(row: Row<P>)
    | Delete(id: string)

  // The freshness every generated id is assumed to have.
  predicate Admissible<P>(rows: Rows<P>, op: Op<P>) {
    op.Create? ==> op.id != "" && op.id !in rows
  }

  // The verdict of the store on an operation: nothing, or the error it returns.
  function Verdict<P>(rows: Rows<P>, op: Op<P>): Option<Error> {
    match op
    case Create(r, _, _) => if Taken(rows, r.owner, r.name) then Some(Conflict) else None
    case Update(r) =>
      if r.id !in rows then Some(NotFound)
      else if TakenByOther(rows, r) then Some(Conflict) else None
    case Delete(id) => if id !in rows then Some(NotFound) else None
  }

  function Apply<P>(rows: Rows<P>, op: Op<P>): Rows<P> {
    if Verdict(rows, op).Some? then rows else
    match op
    case Create(r, id, now) => rows[id := r.(id := id, createdAt := now)]
    case Update(r) => rows[r.id := r.(createdAt := rows[r.id].createdAt)]
    case Delete(id) => rows - {id}
  }

  function Run<P>(rows: Rows<P>, ops: seq<Op<P>>): Rows<P> {
    if ops == [] then rows else Apply(Run(rows, ops[..|ops| - 1]), ops[|ops| - 1])
  }

  ghost predicate AdmissibleRun<P(!new)>(rows: Rows<P>, ops: seq<Op<P>>) {
    forall i | 0 <= i < |ops| :: Admissible(Run(rows, ops[..i]), ops[i])
  }

  lemma ApplyKeepsSound<P(!new)>(rows: Rows<P>, op: Op<P>)
    requires Sound(rows) && Admissible(rows, op)
    ensures Sound(Apply(rows, op))
  {
  }

  // Over every sequence of store operations: each key is its row's id, and names stay
  // unique within a cluster.
  lemma {:induction false} RunKeepsSound<P(!new)>(rows: Rows<P>, ops: seq<Op<P>>)
    requires Sound(rows) && AdmissibleRun(rows, ops)
    ensures Sound(Run(rows, ops))
  {
    if ops != [] {
      var front := ops[..|ops| - 1];
      assert forall i | 0 <= i < |front| :: front[..i] == ops[..i];
      RunKeepsSound(rows, front);
      ApplyKeepsSound(Run(rows, front), ops[|ops| - 1]);
    }
  }

  // A row that is never deleted is never lost, and its creation time never changes.
  lemma {:induction false} CreationTimeFixed<P(!new)>(rows: Rows<P>, ops: seq<Op<P>>, id: string)
    requires Sound(rows) && AdmissibleRun(rows, ops) && id in rows
    requires forall i | 0 <= i < |ops| :: ops[i] != Delete(id)
    ensures id in Run(rows, ops) && Run(rows, ops)[id].createdAt == rows[id].createdAt
  {
    if ops != [] {
      var front := ops[..|ops| - 1];
      assert forall i | 0 <= i < |front| :: front[..i] == ops[..i] && front[i] == ops[i];
      CreationTimeFixed(rows, front, id);
    }
  }

  // In any reachable table, writing back an existing row under its own name and cluster succeeds.
  lemma SameNameUpdateSucceeds<P(!new)>(rows: Rows<P>, ops: seq<Op<P>>, r: Row<P>)
    requires Sound(rows) && AdmissibleRun(rows, ops)
    requires r.id in Run(rows, ops)
    requires r.owner == Run(rows, ops)[r.id].owner && r.name == Run(rows, ops)[r.id].name
    ensures Verdict(Run(rows, ops), Update(r)) == None
  {
    RunKeepsSound(rows, ops);
  }

  // ----- the store -----

  // Some string is not among finitely many.
  lemma FreshIdExists(used: set<string>)
    ensures exists id: string :: id != "" && id !in used
  {
    var id := LongerThanAll(used);
  }

  ghost function LongerThanAll(used: set<string>): (id: string)
    ensures id != "" && forall u | u in used :: |u| < |id|
  {
    if used == {} then "x" else
      var u :| u in used;
      var shorter := LongerThanAll(used - {u});
      shorter + u + "x"
  }

  class Store<P(!new)> {
    var rows: Rows<P>

    // A store that is faulty may refuse any call with Unavailable and then changes nothing;
    // one that is not is the in-memory store.
    const faulty: bool

    constructor (faulty: bool)
      ensures rows == map[] && this.faulty == faulty
      ensures Sound(rows)
    {
      rows := map[];
      this.faulty := faulty;
    }

    // The rows of one cluster, in the arbitrary order of a map iteration.
    method List(owner: string) returns (res: Result<seq<Row<P>>>)
      requires Sound(rows)
      ensures res.Ok? ==> Lists(rows, owner, res.value)
      ensures !faulty ==> res.Ok?
    {
      var refuse: bool := *;
      if faulty && refuse { return Err(Unavailable); }
      var out: seq<Row<P>> := [];
      var todo := rows.Keys;
      while todo != {}
        invariant todo <= rows.Keys
        invariant forall i | 0 <= i < |out| ::
                    out[i].id in rows.Keys - todo && rows[out[i].id] == out[i] && out[i].owner == owner
        invariant forall i, j | 0 <= i < j < |out| :: out[i].id != out[j].id
        invariant forall id | id in rows.Keys - todo && rows[id].owner == owner :: rows[id] in out
        decreases todo
      {
        var id :| id in todo;
        todo := todo - {id};
        if rows[id].owner == owner {
          out := out + [rows[id]];
        }
      }
      return Ok(out);
    }

    method Create(r: Row<P>) returns (res: Result<Row<P>>)
      requires Sound(rows)
      modifies this
      ensures Sound(rows)
      ensures res.Err? ==> rows == old(rows)
      ensures res.Err? && res.error != Unavailable ==> res.error == Conflict && Taken(old(rows), r.owner, r.name)
      ensures res.Ok? ==>
                && Admissible(old(rows), Op.Create(r, res.value.id, res.value.createdAt))
                && Verdict(old(rows), Op.Create(r, res.value.id, res.value.createdAt)) == None
                && rows == Apply(old(rows), Op.Create(r, res.value.id, res.value.createdAt))
                && res.value == r.(id := res.value.id, createdAt := res.value.createdAt)
                && res.value.id !in old(rows) && rows == old(rows)[res.value.id := res.value]
      ensures !faulty ==> res != Err(Unavailable) && res.Ok? == !Taken(old(rows), r.owner, r.name)
    {
      var refuse: bool := *;
      if faulty && refuse { return Err(Unavailable); }
      var todo := rows.Keys;
      while todo != {}
        invariant todo <= rows.Keys
        invariant forall id | id in rows.Keys - todo :: !(rows[id].owner == r.owner && rows[id].name == r.name)
        decreases todo
      {
        var id :| id in todo;
        todo := todo - {id};
        if rows[id].owner == r.owner && rows[id].name == r.name { return Err(Conflict); }
      }
      FreshIdExists(rows.Keys);
      var id: string :| id != "" && id !in rows.Keys;
      var now: int := *;
      var stored := r.(id := id, createdAt := now);
      rows := rows[id := stored];
      return Ok(stored);
    }

    method Update(r: Row<P>) returns (res: Result<Row<P>>)
      requires Sound(rows)
      modifies this
      ensures Sound(rows)
      ensures res.Err? ==> rows == old(rows)
      ensures res.Err? && res.error != Unavailable ==> Verdict(old(rows), Op.Update(r)) == Some(res.error)
      ensures res.Ok? ==>
                && Verdict(old(rows), Op.Update(r)) == None
                && rows == Apply(old(rows), Op.Update(r))
                && res.value == rows[r.id]
                && rows == old(rows)[r.id := r.(createdAt := old(rows)[r.id].createdAt)]
      ensures !faulty ==> res != Err(Unavailable) && res.Ok? == Verdict(old(rows), Op.Update(r)).None?
    {
      var refuse: bool := *;
      if faulty && refuse { return Err(Unavailable); }
      if r.id !in rows { return Err(NotFound); }
      var todo := rows.Keys;
      while todo != {}
        invariant todo <= rows.Keys
        invariant forall id | id in rows.Keys - todo ::
                      !(rows[id].id != r.id && rows[id].owner == r.owner && rows[id].name == r.name)
        decreases todo
      {
        var id :| id in todo;
        todo := todo - {id};
        if rows[id].id != r.id && rows[id].owner == r.owner && rows[id].name == r.name { return Err(Conflict); }
      }
      var stored := r.(createdAt := rows[r.id].createdAt);
      rows := rows[r.id := stored];
      return Ok(stored);
    }

    method Delete(id: string) returns (res: Result<()>)
      requires Sound(rows)
      modifies this
      ensures Sound(rows)
      ensures res.Err? ==> rows == old(rows)
      ensures res.Ok? ==> Verdict(old(rows), Op.Delete(id)) == None && rows == Apply(old(rows), Op.Delete(id))
      ensures res.Ok? ==>
                && id in old(rows) && rows.Keys == old(rows).Keys - {id}
                && forall other | other in rows :: rows[other] == old(rows)[other]
      ensures !faulty ==> res == if id in old(rows) then Ok(()) else Err(NotFound)
    {
      var refuse: bool := *;
      if faulty && refuse { return Err(Unavailable); }
      if id !in rows { return Err(NotFound); }
      rows := rows - {id};
      return Ok(());
    }
  }
}
