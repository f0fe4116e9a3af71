// BinPacking.Schedule: the fullest online node that still has room, smallest id on a tie.
module Scheduler {
  import opened Model
  import opened ByteOrder

  datatype Request = Request(cpu: int64, mem: int64, disk: int64)

  datatype Load = Load(cpu: int, mem: int, disk: int)

  // `load` after accounting for one more instance.
  function Plus(load: Load, inst: Instance, node: string): Load {
    if inst.body.nodeId == node && node != ""
    then Load(load.cpu + inst.body.cpu, load.mem + inst.body.mem, load.disk + inst.body.disk)
    else load
  }

  // The exact amounts committed to a node by the instances placed on it; an empty node id
  // means that an instance is not placed.
  function Used(insts: seq<Instance>, node: string): Load {
    if insts == [] then Load(0, 0, 0) else Plus(Used(insts[..|insts| - 1], node), insts[|insts| - 1], node)
  }

  // What the 64-bit accumulators hold, and what they leave free.
  function Committed(n: Node, insts: seq<Instance>): Load {
    var used := Used(insts, n.id);
    Load(Wrap64(used.cpu), Wrap64(used.mem), Wrap64(used.disk))
  }

  function Headroom(n: Node, insts: seq<Instance>): Load {
    var used := Used(insts, n.id);
    Load(Wrap64(n.body.cpu - used.cpu), Wrap64(n.body.mem - used.mem), Wrap64(n.body.disk - used.disk))
  }

  predicate Usable(n: Node) {
    n.body.status == Online && n.body.cpu > 0 && n.body.mem > 0 && n.body.disk > 0
  }

  predicate Eligible(n: Node, insts: seq<Instance>, req: Request) {
    var free := Headroom(n, insts);
    Usable(n) && free.cpu >= req.cpu && free.mem >= req.mem && free.disk >= req.disk
  }

  // The mean of the three utilisation ratios.
  function Score(n: Node, insts: seq<Instance>): real
    requires Usable(n)
  {
    var c := Committed(n, insts);
    (c.cpu as real / n.body.cpu as real + c.mem as real / n.body.mem as real
        + c.disk as real / n.body.disk as real) / 3.0
  }

  // `a` is preferred to `b`.
  predicate Better(a: Node, b: Node, insts: seq<Instance>)
    requires Usable(a) && Usable(b)
  {
    Score(a, insts) > Score(b, insts) || (Score(a, insts) == Score(b, insts) && Below(a.id, b.id))
  }

  // `n` is the one node the strategy asks for.
  ghost predicate Wins(n: Node, nodes: seq<Node>, insts: seq<Instance>, req: Request) {
    && n in nodes && Eligible(n, insts, req)
    && forall m | m in nodes && Eligible(m, insts, req) && m != n :: Better(n, m, insts)
  }

  ghost predicate DistinctIds<P(!new)>(rows: seq<Row<P>>) {
    forall i, j | 0 <= i < j < |rows| :: rows[i].id != rows[j].id
  }

  lemma BetterTransitive(a: Node, b: Node, c: Node, insts: seq<Instance>)
    requires Usable(a) && Usable(b) && Usable(c) && Better(a, b, insts) && Better(b, c, insts)
    ensures Better(a, c, insts)
  {
    if Below(a.id, b.id) && Below(b.id, c.id) { Transitive(a.id, b.id, c.id); }
  }

  lemma BetterTotal(a: Node, b: Node, insts: seq<Instance>)
    requires Usable(a) && Usable(b) && a.id != b.id
    ensures Better(a, b, insts) != Better(b, a, insts)
  {
    Trichotomy(a.id, b.id);
    if Below(a.id, b.id) { Asymmetric(a.id, b.id); } else { Asymmetric(b.id, a.id); }
  }

  // ----- the answer as a function of the arguments -----

  function Best(nodes: seq<Node>, insts: seq<Instance>, req: Request): (best: Option<Node>)
    ensures best.Some? ==> best.value in nodes && Eligible(best.value, insts, req)
  {
    if nodes == [] then None else
    var best := Best(nodes[..|nodes| - 1], insts, req);
    var n := nodes[|nodes| - 1];
    if !Eligible(n, insts, req) then best
    else if best.Some? && !Better(n, best.value, insts) then best
    else Some(n)
  }

  // The answer is the winner, and there is none exactly when no node is eligible.
  lemma {:induction false} BestWins(nodes: seq<Node>, insts: seq<Instance>, req: Request)
    requires DistinctIds(nodes)
    ensures Best(nodes, insts, req).None? <==> forall n | n in nodes :: !Eligible(n, insts, req)
    ensures Best(nodes, insts, req).Some? ==> Wins(Best(nodes, insts, req).value, nodes, insts, req)
  {
    if nodes != [] {
      var front, n := nodes[..|nodes| - 1], nodes[|nodes| - 1];
      BestWins(front, insts, req);
      assert nodes == front + [n];
      var best := Best(front, insts, req);
      if best.Some? && Eligible(n, insts, req) {
        BetterTotal(n, best.value, insts);
        forall m | m in nodes && Eligible(m, insts, req) && m != Best(nodes, insts, req).value
          ensures Better(Best(nodes, insts, req).value, m, insts)
        {
          if m in front && m != best.value && Better(n, best.value, insts) {
            BetterTransitive(n, best.value, m, insts);
          }
        }
      }
    }
  }

  lemma WinnerUnique(a: Node, b: Node, nodes: seq<Node>, insts: seq<Instance>, req: Request)
    requires DistinctIds(nodes) && Wins(a, nodes, insts, req) && Wins(b, nodes, insts, req)
    ensures a == b
  {
    if a != b { BetterTotal(a, b, insts); }
  }

  // ----- order of the arguments does not matter -----

  function Without<T>(s: seq<T>, k: nat): seq<T>
    requires k < |s|
  {
    s[..k] + s[k + 1..]
  }

  lemma WithoutLast<T>(s: seq<T>, k: nat)
    requires k < |s| - 1
    ensures Without(s, k) == Without(s[..|s| - 1], k) + [s[|s| - 1]]
  {
    var n := |s| - 1;
    assert s[..n][..k] == s[..k] && s[..n][k + 1..] == s[k + 1..n];
    assert s[k + 1..] == s[k + 1..n] + [s[n]];
  }

  lemma {:induction false} UsedWithout(insts: seq<Instance>, k: nat, node: string)
    requires k < |insts|
    ensures Used(insts, node) == Plus(Used(Without(insts, k), node), insts[k], node)
  {
    var n := |insts| - 1;
    if k == n {
      assert Without(insts, k) == insts[..n];
    } else {
      UsedWithout(insts[..n], k, node);
      WithoutLast(insts, k);
      var front := Without(insts[..n], k);
      assert (front + [insts[n]])[..n - 1] == front;
      hide Without;
    }
  }

  lemma {:induction false} UsedPermuted(a: seq<Instance>, b: seq<Instance>, node: string)
    requires multiset(a) == multiset(b)
    ensures Used(a, node) == Used(b, node)
  {
    hide Used, Plus;
    if a == [] {
      assert |multiset(b)| == 0;
      assert b == a;
    } else {
      var n := |a| - 1;
      assert a[n] in multiset(a);
      var k :| 0 <= k < |b| && b[k] == a[n];
      MultisetWithout(a, n);
      MultisetWithout(b, k);
      assert Without(a, n) == a[..n];
      UsedPermuted(a[..n], Without(b, k), node);
      UsedWithout(a, n, node);
      UsedWithout(b, k, node);
    }
  }

  lemma MultisetWithout<T>(s: seq<T>, k: nat)
    requires k < |s|
    ensures multiset(Without(s, k)) == multiset(s) - multiset{s[k]}
  {
    assert s == s[..k] + [s[k]] + s[k + 1..];
  }

  // For nodes with distinct ids the choice is the same for every order in which the
  // repositories list the nodes and the instances.
  lemma ChoiceIgnoresOrder(nodes: seq<Node>, nodes': seq<Node>, insts: seq<Instance>, insts': seq<Instance>,
                           req: Request)
    requires DistinctIds(nodes) && DistinctIds(nodes')
    requires multiset(nodes) == multiset(nodes') && multiset(insts) == multiset(insts')
    ensures Best(nodes, insts, req) == Best(nodes', insts', req)
  {
    SameMembers(nodes, nodes');
    forall n | n in nodes ensures Eligible(n, insts, req) == Eligible(n, insts', req) {
      UsedPermuted(insts, insts', n.id);
    }
    BestWins(nodes, insts, req);
    BestWins(nodes', insts', req);
    if Best(nodes, insts, req).Some? {
      var n := Best(nodes, insts, req).value;
      WinsIgnoresOrder(n, nodes, nodes', insts, insts', req);
      WinnerUnique(n, Best(nodes', insts', req).value, nodes', insts', req);
    }
  }

  lemma WinsIgnoresOrder(n: Node, nodes: seq<Node>, nodes': seq<Node>, insts: seq<Instance>, insts': seq<Instance>,
                         req: Request)
    requires multiset(nodes) == multiset(nodes') && multiset(insts) == multiset(insts')
    requires Wins(n, nodes, insts, req)
    ensures Wins(n, nodes', insts', req)
  {
    SameMembers(nodes, nodes');
    UsedPermuted(insts, insts', n.id);
    forall m | m in nodes' && Eligible(m, insts', req) && m != n ensures Better(n, m, insts') {
      UsedPermuted(insts, insts', m.id);
      assert Eligible(m, insts, req) && Better(n, m, insts);
    }
  }

  lemma SameMembers<T>(a: seq<T>, b: seq<T>)
    requires multiset(a) == multiset(b)
    ensures forall x :: x in a <==> x in b
  {
    forall x ensures x in a <==> x in b {
      assert x in a <==> x in multiset(a);
      assert x in b <==> x in multiset(b);
    }
  }

  // ----- the loop -----

  datatype Candidate = Candidate(node: Node, score: real)

  predicate Before(a: Candidate, b: Candidate) {
    a.score > b.score || (a.score == b.score && Below(a.node.id, b.node.id))
  }

  // sort.Slice with the comparison above: afterwards nothing sorts strictly before the
  // element in front of it.
  method SortCandidates(a: array<Candidate>)
    modifies a
    ensures multiset(a[..]) == multiset(old(a[..]))
    ensures forall i, j | 0 <= i < j < a.Length :: !Before(a[j], a[i])
  {
    hide Before;
    var done := 0;
    while done < a.Length
      invariant 0 <= done <= a.Length
      invariant multiset(a[..]) == multiset(old(a[..]))
      invariant Settled(a[..], done)
    {
      var least := First(a, done);
      ghost var was := a[..];
      a[done], a[least] := a[least], a[done];
      SwapSettles(was, done, least, a[..]);
      done := done + 1;
    }
  }

  // Nothing sorts before any of the first `done` elements, except what is in front of it.
  ghost predicate Settled(s: seq<Candidate>, done: nat) {
    done <= |s| && forall i, j | 0 <= i < done && i < j < |s| :: !Before(s[j], s[i])
  }

  lemma SwapSettles(was: seq<Candidate>, done: nat, least: nat, now: seq<Candidate>)
    requires Settled(was, done) && done <= least < |was| && forall j | done <= j < |was| :: !Before(was[j], was[least])
    requires |now| == |was| && now[done] == was[least] && now[least] == was[done]
    requires forall k | 0 <= k < |was| && k != done && k != least :: now[k] == was[k]
    ensures Settled(now, done + 1)
  {
    hide Before;
    forall i, j | 0 <= i <= done && i < j < |now| ensures !Before(now[j], now[i]) {
      var k := if j == done then least else if j == least then done else j;
      assert now[j] == was[k] && k >= i;
      if i < done { assert !Before(was[k], was[i]); }
    }
  }

  method First(a: array<Candidate>, from: nat) returns (least: nat)
    requires from < a.Length
    ensures from <= least < a.Length && forall j | from <= j < a.Length :: !Before(a[j], a[least])
  {
    hide Before;
    least := from;
    NotBeforeItself(a[from]);
    for k := from + 1 to a.Length
      invariant from <= least < k
      invariant forall j | from <= j < k :: !Before(a[j], a[least])
    {
      if Before(a[k], a[least]) {
        forall j | from <= j < k + 1 ensures !Before(a[j], a[k]) {
          NotBefore(a[j], a[least], a[k]);
        }
        least := k;
      }
    }
  }

  lemma NotBeforeItself(x: Candidate)
    ensures !Before(x, x)
  {
    Irreflexive(x.node.id);
  }

  lemma NotBefore(x: Candidate, y: Candidate, z: Candidate)
    requires (!Before(x, y) && Before(z, y)) || x == z
    ensures !Before(x, z)
  {
    if x == z {
      Irreflexive(x.node.id);
    } else if Before(x, z) {
      if Below(x.node.id, z.node.id) && Below(z.node.id, y.node.id) {
        Transitive(x.node.id, z.node.id, y.node.id);
      }
    }
  }

  function Held(alloc: map<string, int64>, id: string): int64 {
    if id in alloc then alloc[id] else 0
  }

  datatype Allocations = Allocations(cpu: map<string, int64>, mem: map<string, int64>, disk: map<string, int64>) {
    function On(id: string): Load { Load(Held(cpu, id), Held(mem, id), Held(disk, id)) }
  }

  function Wrapped(l: Load): Load {
    Load(Wrap64(l.cpu), Wrap64(l.mem), Wrap64(l.disk))
  }

  // One `+=` in each of the three maps.
  function Charged(alloc: Allocations, inst: InstanceBody): Allocations {
    var id := inst.nodeId;
    Allocations(
      alloc.cpu[id := Wrap64(Held(alloc.cpu, id) + inst.cpu)],
      alloc.mem[id := Wrap64(Held(alloc.mem, id) + inst.mem)],
      alloc.disk[id := Wrap64(Held(alloc.disk, id) + inst.disk)])
  }

  lemma ChargedOn(alloc: Allocations, used: Load, inst: Instance, id: string)
    requires alloc.On(id) == Wrapped(used) && inst.body.nodeId != ""
    ensures Charged(alloc, inst.body).On(id) == Wrapped(Plus(used, inst, id))
  {
    WrapAbsorbs(used.cpu, inst.body.cpu);
    WrapAbsorbs(used.mem, inst.body.mem);
    WrapAbsorbs(used.disk, inst.body.disk);
    hide Wrap64;
  }

  // Step 1: the three per-node accumulators hold the reduced per-node sums.
  method Allocate(insts: seq<Instance>) returns (alloc: Allocations)
    ensures forall id :: alloc.On(id) == Wrapped(Used(insts, id))
  {
    hide Wrap64, Plus, Charged;
    alloc := Allocations(map[], map[], map[]);
    assert Wrapped(Load(0, 0, 0)) == Load(0, 0, 0) by { WrapZero(); }
    for i := 0 to |insts|
      invariant forall id :: alloc.On(id) == Wrapped(Used(insts[..i], id))
    {
      ghost var was := alloc;
      if insts[i].body.nodeId != "" {
        alloc := Charged(alloc, insts[i].body);
      }
      forall id ensures alloc.On(id) == Wrapped(Used(insts[..i + 1], id)) {
        assert insts[..i + 1][..i] == insts[..i];
        if insts[i].body.nodeId != "" {
          ChargedOn(was, Used(insts[..i], id), insts[i], id);
        } else {
          Unplaced(Used(insts[..i], id), insts[i], id);
        }
      }
    }
    assert insts[..|insts|] == insts;
  }

  lemma WrapZero()
    ensures Wrap64(0) == 0
  {
  }

  lemma Unplaced(used: Load, inst: Instance, id: string)
    requires inst.body.nodeId == ""
    ensures Plus(used, inst, id) == used
  {
  }

  // Steps 2 and 3 for one node: its score, unless it is discarded.
  method Rate(n: Node, on: Load, req: Request, ghost insts: seq<Instance>) returns (score: Option<real>)
    requires on == Committed(n, insts)
    ensures score == if Eligible(n, insts, req) then Some(Score(n, insts)) else None
  {
    hide Wrap64, Used, Score, Headroom, Committed;
    HeadroomIs(n, on, insts);
    if n.body.status != Online { return None; }
    if n.body.cpu <= 0 || n.body.mem <= 0 || n.body.disk <= 0 { return None; }
    ScoreIs(n, on, insts);
    var free := Load(Wrap64(n.body.cpu - on.cpu), Wrap64(n.body.mem - on.mem), Wrap64(n.body.disk - on.disk));
    if free.cpu < req.cpu || free.mem < req.mem || free.disk < req.disk { return None; }
    return Some((on.cpu as real / n.body.cpu as real + on.mem as real / n.body.mem as real
        + on.disk as real / n.body.disk as real) / 3.0);
  }

  // Subtracting the reduced sum is reducing the exact difference.
  lemma HeadroomIs(n: Node, on: Load, insts: seq<Instance>)
    requires on == Committed(n, insts)
    ensures Headroom(n, insts) ==
                Load(Wrap64(n.body.cpu - on.cpu), Wrap64(n.body.mem - on.mem), Wrap64(n.body.disk - on.disk))
  {
    hide Wrap64, Used;
    var used := Used(insts, n.id);
    WrapAbsorbs(used.cpu, n.body.cpu);
    WrapAbsorbs(used.mem, n.body.mem);
    WrapAbsorbs(used.disk, n.body.disk);
  }

  lemma ScoreIs(n: Node, on: Load, insts: seq<Instance>)
    requires on == Committed(n, insts) && Usable(n)
    ensures Score(n, insts) == (on.cpu as real / n.body.cpu as real + on.mem as real / n.body.mem as real
                + on.disk as real / n.body.disk as real) / 3.0
  {
    hide Committed;
  }

  ghost predicate Rated(eligible: seq<Candidate>, nodes: seq<Node>, insts: seq<Instance>, req: Request) {
    && (forall n | n in nodes && Eligible(n, insts, req) :: Candidate(n, Score(n, insts)) in eligible)
    && (forall c | c in eligible :: c.node in nodes && Eligible(c.node, insts, req) && c.score == Score(c.node, insts))
  }

  method Filter(nodes: seq<Node>, alloc: Allocations, req: Request, ghost insts: seq<Instance>)
    returns (eligible: seq<Candidate>)
    requires forall n | n in nodes :: alloc.On(n.id) == Committed(n, insts)
    ensures Rated(eligible, nodes, insts, req)
  {
    eligible := [];
    for i := 0 to |nodes|
      invariant Rated(eligible, nodes[..i], insts, req)
    {
      var n := nodes[i];
      assert nodes[..i + 1] == nodes[..i] + [n];
      var score := Rate(n, alloc.On(n.id), req, insts);
      if score.Some? {
        eligible := eligible + [Candidate(n, score.value)];
      }
    }
    assert nodes[..|nodes|] == nodes;
  }

  // None is ErrNoCapacity.
  method Schedule(nodes: seq<Node>, insts: seq<Instance>, req: Request) returns (res: Option<Node>)
    ensures res.None? <==> forall n | n in nodes :: !Eligible(n, insts, req)
    ensures res.Some? ==>
              && res.value in nodes && Eligible(res.value, insts, req)
              && forall m | m in nodes && Eligible(m, insts, req) :: !Better(m, res.value, insts)
    ensures DistinctIds(nodes) ==> res == Best(nodes, insts, req)
    ensures res.Some? && Bounded(insts) ==> Fullest(res.value, nodes, insts, req)
  {
    var alloc := Allocate(insts);
    var eligible := Filter(nodes, alloc, req, insts);
    if |eligible| == 0 {
      if DistinctIds(nodes) { BestWins(nodes, insts, req); }
      return None;
    }
    var sorted := new Candidate[|eligible|](i requires 0 <= i < |eligible| => eligible[i]);
    assert sorted[..] == eligible;
    SortCandidates(sorted);
    FrontWins(sorted[..], eligible, nodes, insts, req);
    if Bounded(insts) { UnbeatenIsFullest(sorted[0].node, nodes, insts, req); }
    return Some(sorted[0].node);
  }

  // The front of the sorted candidates is the winner.
  lemma FrontWins(sorted: seq<Candidate>, eligible: seq<Candidate>, nodes: seq<Node>, insts: seq<Instance>,
                  req: Request)
    requires multiset(sorted) == multiset(eligible) && |sorted| > 0
    requires forall i, j | 0 <= i < j < |sorted| :: !Before(sorted[j], sorted[i])
    requires Rated(eligible, nodes, insts, req)
    ensures sorted[0].node in nodes && Eligible(sorted[0].node, insts, req)
    ensures forall m | m in nodes && Eligible(m, insts, req) :: !Better(m, sorted[0].node, insts)
    ensures DistinctIds(nodes) ==> Best(nodes, insts, req) == Some(sorted[0].node)
  {
    SameMembers(sorted, eligible);
    var front := sorted[0];
    assert front in eligible;
    forall m | m in nodes && Eligible(m, insts, req) ensures !Better(m, front.node, insts) {
      var c := Candidate(m, Score(m, insts));
      assert c in sorted;
      var k :| 0 <= k < |sorted| && sorted[k] == c;
      Irreflexive(m.id);
    }
    if DistinctIds(nodes) {
      forall m | m in nodes && Eligible(m, insts, req) && m != front.node ensures Better(front.node, m, insts) {
        BetterTotal(front.node, m, insts);
      }
      BestWins(nodes, insts, req);
      WinnerUnique(Best(nodes, insts, req).value, front.node, nodes, insts, req);
    }
  }

  // ----- when the accumulators are exact -----

  function Abs(x: int): nat {
    if x < 0 then -x else x
  }

  // The sizes of all limits together.
  function Total(insts: seq<Instance>): Load {
    if insts == [] then Load(0, 0, 0) else
    var before := Total(insts[..|insts| - 1]);
    var last := insts[|insts| - 1].body;
    Load(before.cpu + Abs(last.cpu), before.mem + Abs(last.mem), before.disk + Abs(last.disk))
  }

  // They stay below what a 64-bit integer holds.
  ghost predicate Bounded(insts: seq<Instance>) {
    Total(insts).cpu < TWO63 && Total(insts).mem < TWO63 && Total(insts).disk < TWO63
  }

  ghost predicate SafeLimits(insts: seq<Instance>) {
    Bounded(insts) && forall i | i in insts :: i.body.cpu >= 0 && i.body.mem >= 0 && i.body.disk >= 0
  }

  // What one node holds, and the size of an instance it does not hold, are within the total.
  lemma {:induction false} UsedWithinTotal(insts: seq<Instance>, node: string, k: nat)
    requires k <= |insts| && (k < |insts| ==> insts[k].body.nodeId != node)
    ensures var beside := if k < |insts| then insts[k].body else InstanceBody("", "", Unknown, 0, 0, 0, None);
            && Abs(Used(insts, node).cpu) + Abs(beside.cpu) <= Total(insts).cpu
            && Abs(Used(insts, node).mem) + Abs(beside.mem) <= Total(insts).mem
            && Abs(Used(insts, node).disk) + Abs(beside.disk) <= Total(insts).disk
  {
    if insts != [] {
      var n := |insts| - 1;
      if k < n { assert insts[..n][k] == insts[k]; }
      UsedWithinTotal(insts[..n], node, if k < n then k else n);
    }
  }

  lemma {:induction false} UsedNatural(insts: seq<Instance>, node: string)
    requires forall i | i in insts :: i.body.cpu >= 0 && i.body.mem >= 0 && i.body.disk >= 0
    ensures Used(insts, node).cpu >= 0 && Used(insts, node).mem >= 0 && Used(insts, node).disk >= 0
  {
    if insts != [] {
      assert insts[|insts| - 1] in insts;
      UsedNatural(insts[..|insts| - 1], node);
    }
  }

  // With totals below 2^63 no accumulator overflows: at every step of the allocation loop the
  // register holds the exact sum. Without negative limits no headroom subtraction does either.
  lemma NoOverflow(n: Node, insts: seq<Instance>, step: nat)
    requires Bounded(insts) && Usable(n) && step <= |insts|
    ensures Committed(n, insts[..step]) == Used(insts[..step], n.id)
    ensures var used := Used(insts, n.id);
            SafeLimits(insts) ==>
                Headroom(n, insts) == Load(n.body.cpu - used.cpu, n.body.mem - used.mem, n.body.disk - used.disk)
  {
    TotalMonotone(insts, step);
    UsedWithinTotal(insts[..step], n.id, step);
    UsedWithinTotal(insts, n.id, |insts|);
    if SafeLimits(insts) { UsedNatural(insts, n.id); }
    hide Used, Total;
  }

  // On no eligible node do the instances already there take a larger part of the capacity, the
  // three dimensions added up; and none that is as full has the smaller id.
  ghost predicate Fullest(n: Node, nodes: seq<Node>, insts: seq<Instance>, req: Request)
    requires Usable(n)
  {
    var there := Used(insts, n.id);
    var fill := there.cpu as real / n.body.cpu as real + there.mem as real / n.body.mem as real
        + there.disk as real / n.body.disk as real;
    forall m | m in nodes && Eligible(m, insts, req) ::
      var other := Used(insts, m.id);
      var fill' := other.cpu as real / m.body.cpu as real + other.mem as real / m.body.mem as real
          + other.disk as real / m.body.disk as real;
      fill' <= fill && (fill' == fill ==> !Below(m.id, n.id))
  }

  lemma UnbeatenIsFullest(n: Node, nodes: seq<Node>, insts: seq<Instance>, req: Request)
    requires Bounded(insts) && Usable(n)
    requires forall m | m in nodes && Eligible(m, insts, req) :: !Better(m, n, insts)
    ensures Fullest(n, nodes, insts, req)
  {
    hide Used, Headroom, Committed;
    assert insts[..|insts|] == insts;
    NoOverflow(n, insts, |insts|);
    forall m | m in nodes && Eligible(m, insts, req) ensures Committed(m, insts) == Used(insts, m.id) {
      NoOverflow(m, insts, |insts|);
    }
  }

  // An eligible node is chosen exactly when it is the fullest one.
  lemma FullestChosen(n: Node, nodes: seq<Node>, insts: seq<Instance>, req: Request)
    requires DistinctIds(nodes) && Bounded(insts) && n in nodes && Eligible(n, insts, req)
    ensures Best(nodes, insts, req) == Some(n) <==> Fullest(n, nodes, insts, req)
  {
    hide Fullest, Best, Better;
    BestWins(nodes, insts, req);
    var best := Best(nodes, insts, req).value;
    forall m | m in nodes && Eligible(m, insts, req) ensures !Better(m, best, insts) {
      Unbeaten(best, m, insts);
    }
    UnbeatenIsFullest(best, nodes, insts, req);
    if n != best && Fullest(n, nodes, insts, req) { FullestUnique(n, best, nodes, insts, req); }
  }

  lemma Unbeaten(best: Node, m: Node, insts: seq<Instance>)
    requires Usable(best) && Usable(m) && (m == best || Better(best, m, insts))
    ensures !Better(m, best, insts)
  {
    Irreflexive(m.id);
    if Below(best.id, m.id) { Asymmetric(best.id, m.id); }
  }

  lemma FullestUnique(a: Node, b: Node, nodes: seq<Node>, insts: seq<Instance>, req: Request)
    requires DistinctIds(nodes) && a in nodes && b in nodes && Eligible(a, insts, req) && Eligible(b, insts, req)
    requires Fullest(a, nodes, insts, req) && Fullest(b, nodes, insts, req)
    ensures a == b
  {
    hide Used, Headroom;
    Trichotomy(a.id, b.id);
  }

  lemma {:induction false} TotalMonotone(insts: seq<Instance>, step: nat)
    requires step <= |insts|
    ensures Total(insts[..step]).cpu <= Total(insts).cpu
    ensures Total(insts[..step]).mem <= Total(insts).mem
    ensures Total(insts[..step]).disk <= Total(insts).disk
  {
    if step == |insts| {
      assert insts[..step] == insts;
    } else {
      var front := insts[..|insts| - 1];
      assert front[..step] == insts[..step];
      TotalMonotone(front, step);
    }
  }
}
