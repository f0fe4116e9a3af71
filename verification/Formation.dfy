// Two-node cluster formation as a protocol: any number of Bootstrap calls, each advancing one
// client call at a time, against one seed and one joiner that obey the Client contract.
module Formation {

  // Where a Bootstrap call stands, named after the client call it makes next.
  datatype Pc =
    | SeedStatus          // ask the seed whether it is clustered
    | SeedCert            // fetch the seed's certificate, then initialise
    | Init
    | JoinerStatus(cert: bool)   // whether the seed's certificate is already at hand
    | JoinCert
    | Join
    | Verify
    | Returned(ok: bool)

  // One call. `settled` records that both nodes were clustered when the call began.
  datatype Call = Call(pc: Pc, settled: bool)

  datatype World = World(
    seed: bool,           // the seed is clustered
    joiner: bool,         // the joiner is clustered
    seedJoined: nat,      // how often the seed went from unclustered to clustered
    joinerJoined: nat,
    inits: nat,           // InitCluster calls issued
    joins: nat,           // JoinCluster calls issued
    calls: map<nat, Call>)

  function At(w: World, c: nat, pc: Pc): World
    requires c in w.calls
  {
    w.(calls := w.calls[c := w.calls[c].(pc := pc)])
  }

  datatype Event =
    | Begin               // a new Bootstrap call starts
    | Fail                // the client call fails without effect
    | Ask                 // a status, certificate or member query is answered
    | InitOk(cert: bool)  // nil, or the node says it is clustered already; an empty certificate is fetched again
    | JoinOk
    | LostAnswer          // an init or join takes effect but reports an error

  predicate Enabled(w: World, c: nat, e: Event) {
    match e
    case Begin => c !in w.calls
    case Fail => c in w.calls && !w.calls[c].pc.Returned?
    case Ask => c in w.calls && !w.calls[c].pc.Returned? && w.calls[c].pc != Init && w.calls[c].pc != Join
    case InitOk(_) => c in w.calls && w.calls[c].pc == Init
    case JoinOk => c in w.calls && w.calls[c].pc == Join
    case LostAnswer => c in w.calls && (w.calls[c].pc == Init || w.calls[c].pc == Join)
  }

  // InitCluster takes effect on an unclustered seed, JoinCluster on an unclustered joiner.
  function Initialised(w: World): World {
    w.(seed := true, seedJoined := if w.seed then w.seedJoined else w.seedJoined + 1, inits := w.inits + 1)
  }

  function Joined(w: World): World {
    w.(joiner := true, joinerJoined := if w.joiner then w.joinerJoined else w.joinerJoined + 1, joins := w.joins + 1)
  }

  function Next(w: World, c: nat, e: Event): World
    requires Enabled(w, c, e)
  {
    match e
    case Begin => w.(calls := w.calls[c := Call(SeedStatus, w.seed && w.joiner)])
    case InitOk(cert) => At(Initialised(w), c, JoinerStatus(cert))
    case JoinOk => At(Joined(w), c, Verify)
    case LostAnswer => At(if w.calls[c].pc == Init then Initialised(w) else Joined(w), c, Returned(false))
    case Fail =>
      var pc := w.calls[c].pc;
      At(w, c, Returned(false)).(
        inits := if pc == Init then w.inits + 1 else w.inits,
        joins := if pc == Join then w.joins + 1 else w.joins)
    case Ask =>
      var pc := w.calls[c].pc;
      At(w, c,
         if pc == SeedStatus then if w.seed then JoinerStatus(false) else SeedCert
         else if pc == SeedCert then Init
         else if pc.JoinerStatus? then if w.joiner then Verify else if pc.cert then Join else JoinCert
         else if pc == JoinCert then Join
         else Returned(true))
  }

  ghost predicate Step(w: World, w': World) {
    exists c, e :: Enabled(w, c, e) && w' == Next(w, c, e)
  }

  ghost predicate Run(trace: seq<World>) {
    && |trace| > 0
    && trace[0].seedJoined == 0 && trace[0].joinerJoined == 0 && trace[0].calls == map[]
    && forall i | 0 <= i < |trace| - 1 :: Step(trace[i], trace[i + 1])
  }

  // ----- what every reachable state satisfies -----

  predicate PastSeed(pc: Pc) {
    pc.JoinerStatus? || pc.JoinCert? || pc.Join? || pc.Verify? || pc == Returned(true)
  }

  predicate PastJoiner(pc: Pc) {
    pc.Verify? || pc == Returned(true)
  }

  ghost predicate Consistent(w0: World, w: World) {
    && w.seedJoined == (if w.seed && !w0.seed then 1 else 0)
    && w.joinerJoined == (if w.joiner && !w0.joiner then 1 else 0)
    && (w0.seed ==> w.seed) && (w0.joiner ==> w.joiner)
    && (w.joiner && !w0.joiner ==> w.seed)
    && forall c | c in w.calls :: CallConsistent(w, w.calls[c])
  }

  ghost predicate CallConsistent(w: World, call: Call) {
    && (PastSeed(call.pc) ==> w.seed)
    && (PastJoiner(call.pc) ==> w.joiner)
    && (call.settled ==>
           w.seed && w.joiner && !call.pc.SeedCert? && !call.pc.Init? && !call.pc.JoinCert? && !call.pc.Join?)
  }

  lemma StepConsistent(w0: World, w: World, w': World)
    requires Consistent(w0, w) && Step(w, w')
    ensures Consistent(w0, w')
    ensures w.seed ==> w'.seed
    ensures w.joiner ==> w'.joiner
    ensures w'.joiner && !w.joiner ==> w.seed
  {
    var c, e :| Enabled(w, c, e) && w' == Next(w, c, e);
    if c in w.calls { assert CallConsistent(w, w.calls[c]); }
    EventConsistent(w, c, e);
    forall d | d in w'.calls ensures CallConsistent(w', w'.calls[d]) {
      if d != c { assert CallConsistent(w, w.calls[d]) && w'.calls[d] == w.calls[d]; }
    }
    hide CallConsistent;
  }

  lemma EventConsistent(w: World, c: nat, e: Event)
    requires Enabled(w, c, e) && (c in w.calls ==> CallConsistent(w, w.calls[c]))
    ensures CallConsistent(Next(w, c, e), Next(w, c, e).calls[c])
    ensures forall d | d in w.calls && d != c :: d in Next(w, c, e).calls && Next(w, c, e).calls[d] == w.calls[d]
    ensures Next(w, c, e).calls.Keys == w.calls.Keys + {c}
  {
  }

  lemma {:induction false} RunConsistent(trace: seq<World>, i: nat)
    requires Run(trace) && i < |trace|
    ensures Consistent(trace[0], trace[i])
  {
    if i > 0 {
      RunConsistent(trace, i - 1);
      StepConsistent(trace[0], trace[i - 1], trace[i]);
    }
  }

  // Each node becomes clustered at most once, and never stops being so, whatever calls fail.
  lemma {:induction false} FormedOnce(trace: seq<World>, i: nat, j: nat)
    requires Run(trace) && i <= j < |trace|
    ensures trace[j].seedJoined <= 1 && trace[j].joinerJoined <= 1
    ensures trace[i].seed ==> trace[j].seed
    ensures trace[i].joiner ==> trace[j].joiner
  {
    RunConsistent(trace, j);
    if i < j {
      FormedOnce(trace, i, j - 1);
      RunConsistent(trace, j - 1);
      StepConsistent(trace[0], trace[j - 1], trace[j]);
    }
  }

  // The joiner becomes clustered only when the seed already is.
  lemma JoinerAfterSeed(trace: seq<World>, i: nat)
    requires Run(trace) && i + 1 < |trace| && !trace[i].joiner && trace[i + 1].joiner
    ensures trace[i].seed
  {
    RunConsistent(trace, i);
    StepConsistent(trace[0], trace[i], trace[i + 1]);
  }

  // Once a call has returned nil both nodes are clustered for good, and no call that begins
  // afterwards issues an init or a join.
  lemma RerunIssuesNothing(trace: seq<World>, i: nat, c: nat, j: nat, d: nat)
    requires Run(trace) && i < j < |trace|
    requires c in trace[i].calls && trace[i].calls[c].pc == Returned(true)
    requires d in trace[j].calls && d !in trace[i].calls
    ensures trace[i].seed && trace[i].joiner
    ensures !trace[j].calls[d].pc.SeedCert? && !trace[j].calls[d].pc.Init? && !trace[j].calls[d].pc.JoinCert?
    ensures !trace[j].calls[d].pc.Join?
  {
    RunConsistent(trace, i);
    assert CallConsistent(trace[i], trace[i].calls[c]);
    LaterCallsSettled(trace, i, j, d);
    RunConsistent(trace, j);
    assert CallConsistent(trace[j], trace[j].calls[d]);
  }

  lemma {:induction false} LaterCallsSettled(trace: seq<World>, i: nat, j: nat, d: nat)
    requires Run(trace) && i < j < |trace| && trace[i].seed && trace[i].joiner
    requires d in trace[j].calls && d !in trace[i].calls
    ensures trace[j].calls[d].settled
  {
    FormedOnce(trace, i, j - 1);
    var w, w' := trace[j - 1], trace[j];
    var c, e :| Enabled(w, c, e) && w' == Next(w, c, e);
    if d in w.calls {
      LaterCallsSettled(trace, i, j - 1, d);
    }
  }

  // Where both nodes are clustered from the start, no call ever issues an init or a join.
  lemma {:induction false} NothingToForm(trace: seq<World>, i: nat)
    requires Run(trace) && i < |trace| && trace[0].seed && trace[0].joiner
    ensures trace[i].inits == trace[0].inits && trace[i].joins == trace[0].joins
    ensures forall c | c in trace[i].calls :: trace[i].calls[c].settled
  {
    if i > 0 {
      NothingToForm(trace, i - 1);
      RunConsistent(trace, i - 1);
      assert Step(trace[i - 1], trace[i]);
      var c, e :| Enabled(trace[i - 1], c, e) && trace[i] == Next(trace[i - 1], c, e);
      if c in trace[i - 1].calls { assert CallConsistent(trace[i - 1], trace[i - 1].calls[c]); }
    }
  }
}
