// The bootstrapper and the workflow around it.
module Bootstrap {
  import opened Model
  import opened Lxd
  import opened Formation

  datatype NodeConfig = NodeConfig(name: string, listenAddress: string)

  datatype Config = Config(
    clusterName: string,
    token: string,
    driver: string,
    pool: string,
    seed: NodeConfig,
    joiner: NodeConfig)

  predicate Complete(cfg: Config) {
    && cfg.clusterName != "" && cfg.token != "" && cfg.driver != "" && cfg.pool != ""
    && cfg.seed.name != "" && cfg.seed.listenAddress != ""
    && cfg.joiner.name != "" && cfg.joiner.listenAddress != ""
  }

  // The step a failed bootstrap names in its error.
  datatype Failure =
    | InvalidConfig | CheckSeedStatus | GetSeedCertificate | InitSeed
    | CheckJoinerStatus | GetCertificateForJoin | JoinNode | Verification

  function SeedConfig(cfg: Config): InitConfig {
    InitConfig(cfg.seed.name, cfg.clusterName, cfg.seed.listenAddress, cfg.pool, cfg.driver, cfg.token)
  }

  function JoinerConfig(cfg: Config, certificate: string): JoinConfig {
    JoinConfig(cfg.joiner.name, "https://" + cfg.seed.listenAddress, certificate, cfg.pool, cfg.driver, cfg.token)
  }

  // What an init must carry: the seed's own name and address, and the cluster's settings.
  ghost predicate Inits(call: InitConfig, cfg: Config) {
    && call.serverName == cfg.seed.name && call.listenAddress == cfg.seed.listenAddress
    && call.clusterName == cfg.clusterName
    && call.pool == cfg.pool && call.driver == cfg.driver && call.token == cfg.token
  }

  // What a join must carry: the joiner's name, where the seed is reached and its certificate.
  ghost predicate Joins(call: JoinConfig, cfg: Config, certificate: string) {
    && call.serverName == cfg.joiner.name
    && call.clusterAddress == "https://" + cfg.seed.listenAddress && call.certificate == certificate
    && call.pool == cfg.pool && call.driver == cfg.driver && call.token == cfg.token
  }

  // At most one new init, and one exactly as asked for.
  ghost predicate InitsSince(calls: seq<InitConfig>, calls': seq<InitConfig>, cfg: Config) {
    calls' == calls || (exists call :: calls' == calls + [call] && Inits(call, cfg))
  }

  ghost predicate JoinsSince(calls: seq<JoinConfig>, calls': seq<JoinConfig>, cfg: Config, certificate: string) {
    calls' == calls || (exists call :: calls' == calls + [call] && Joins(call, cfg, certificate))
  }

  // ----- what the verification looks at -----

  // Both names are in the member list.
  predicate Listed(nodes: map<string, NodeInfo>, seedName: string, joinerName: string) {
    seedName in nodes && joinerName in nodes
  }

  predicate BothOnline(nodes: map<string, NodeInfo>, seedName: string, joinerName: string) {
    Listed(nodes, seedName, joinerName) && nodes[seedName].status == "Online" && nodes[joinerName].status == "Online"
  }

  // Being listed means being online for whatever two members are asked for, exactly when every
  // member in the list is online.
  lemma ListedMeansOnline(nodes: map<string, NodeInfo>)
    ensures (forall a, b | Listed(nodes, a, b) :: BothOnline(nodes, a, b))
            <==> forall n | n in nodes :: nodes[n].status == "Online"
  {
    if forall a, b | Listed(nodes, a, b) :: BothOnline(nodes, a, b) {
      forall n | n in nodes ensures nodes[n].status == "Online" {
        assert Listed(nodes, n, n);
      }
    }
  }

  // The protocol state a Bootstrap call finds.
  function Found(seed: bool, joiner: bool): World {
    World(seed, joiner, 0, 0, 0, 0, map[])
  }

  ghost function Extend(trace: seq<World>, e: Event): (longer: seq<World>)
    requires Run(trace) && Enabled(trace[|trace| - 1], 0, e)
    ensures Run(longer) && longer[0] == trace[0]
    ensures longer[|longer| - 1] == Next(trace[|trace| - 1], 0, e)
  {
    var last := trace[|trace| - 1];
    var longer := trace + [Next(last, 0, e)];
    assert forall i | 0 <= i < |trace| :: longer[i] == trace[i];
    assert Step(last, Next(last, 0, e));
    longer
  }

  ghost function Last(trace: seq<World>): World
    requires |trace| > 0
  {
    trace[|trace| - 1]
  }

  ghost function Start(w: World): (trace: seq<World>)
    requires w.seedJoined == 0 && w.joinerJoined == 0 && w.calls == map[]
    ensures Run(trace) && trace == [w]
  {
    [w]
  }

  // A run of the protocol from `first` whose only call stands at `pc`, with the nodes and the
  // counts of issued calls as given.
  ghost predicate Stands(trace: seq<World>, first: World, pc: Pc, seed: bool, joiner: bool, inits: int, joins: int) {
    && Run(trace) && trace[0] == first
    && var w := Last(trace);
       && w.calls.Keys == {0} && w.calls[0].pc == pc
       && w.seed == seed && w.joiner == joiner && w.inits == inits && w.joins == joins
  }

  lemma Begun(first: World)
    requires first == Found(first.seed, first.joiner)
    ensures Enabled(Last(Start(first)), 0, Begin)
    ensures Stands(Extend(Start(first), Begin), first, SeedStatus, first.seed, first.joiner, 0, 0)
  {
  }

  lemma Asked(trace: seq<World>, first: World, pc: Pc, seed: bool, joiner: bool, inits: int, joins: int)
    requires Stands(trace, first, pc, seed, joiner, inits, joins) && !pc.Returned? && pc != Init && pc != Join
    ensures Run(trace) && Enabled(Last(trace), 0, Ask)
    ensures Stands(Extend(trace, Ask), first,
                   match pc
                   case SeedStatus => if seed then JoinerStatus(false) else SeedCert
                   case SeedCert => Init
                   case JoinerStatus(cert) => if joiner then Verify else if cert then Join else JoinCert
                   case JoinCert => Join
                   case _ => Returned(true),
                   seed, joiner, inits, joins)
  {
  }

  lemma AskFails(trace: seq<World>, first: World, pc: Pc, seed: bool, joiner: bool, inits: int, joins: int)
    requires Stands(trace, first, pc, seed, joiner, inits, joins) && !pc.Returned?
    ensures Run(trace) && Enabled(Last(trace), 0, Fail)
    ensures Stands(Extend(trace, Fail), first, Returned(false), seed, joiner,
                   if pc == Init then inits + 1 else inits, if pc == Join then joins + 1 else joins)
  {
  }

  lemma Initiated(trace: seq<World>, first: World, seed: bool, joiner: bool, inits: int, joins: int, cert: bool)
    requires Stands(trace, first, Init, seed, joiner, inits, joins)
    ensures Run(trace) && Enabled(Last(trace), 0, InitOk(cert)) && Enabled(Last(trace), 0, LostAnswer)
    ensures Stands(Extend(trace, InitOk(cert)), first, JoinerStatus(cert), true, joiner, inits + 1, joins)
    ensures Stands(Extend(trace, LostAnswer), first, Returned(false), true, joiner, inits + 1, joins)
  {
  }

  lemma JoinedUp(trace: seq<World>, first: World, seed: bool, joiner: bool, inits: int, joins: int)
    requires Stands(trace, first, Join, seed, joiner, inits, joins)
    ensures Run(trace) && Enabled(Last(trace), 0, JoinOk) && Enabled(Last(trace), 0, LostAnswer)
    ensures Stands(Extend(trace, JoinOk), first, Verify, seed, true, inits, joins + 1)
    ensures Stands(Extend(trace, LostAnswer), first, Returned(false), seed, true, inits, joins + 1)
  {
  }

  // What the protocol guarantees of a single call.
  lemma RunMeans(trace: seq<World>, first: World, pc: Pc, seed: bool, joiner: bool, inits: int, joins: int)
    requires first == Found(first.seed, first.joiner) && Stands(trace, first, pc, seed, joiner, inits, joins)
    ensures first.seed ==> seed
    ensures first.joiner ==> joiner
    ensures joiner && !first.joiner ==> seed
    ensures PastJoiner(pc) ==> seed && joiner
    ensures first.seed && first.joiner ==> inits == 0 && joins == 0
  {
    RunConsistent(trace, |trace| - 1);
    assert CallConsistent(Last(trace), Last(trace).calls[0]);
    if first.seed && first.joiner { NothingToForm(trace, |trace| - 1); }
  }

  class Bootstrapper {
    const seed: Fake
    const joiner: Fake

    constructor (seed: Fake, joiner: Fake)
      ensures this.seed == seed && this.joiner == joiner
    {
      this.seed := seed;
      this.joiner := joiner;
    }

    ghost predicate Valid()
      reads seed, joiner
    {
      seed != joiner && seed.Valid() && joiner.Valid()
    }

    // Every client call of a bootstrap is a step of the formation protocol.
    method Bootstrap(cfg: Config) returns (err: Option<Failure>, ghost trace: seq<World>)
      requires Valid()
      modifies seed`clustered, seed`clusterStatus, seed`initCalls
      modifies joiner`clustered, joiner`clusterStatus, joiner`joinCalls
      ensures Valid()
      ensures err == Some(InvalidConfig) <==> !Complete(cfg)
      ensures Complete(cfg) ==>
                var inits := |seed.initCalls| - |old(seed.initCalls)|;
                var joins := |joiner.joinCalls| - |old(joiner.joinCalls)|;
                Stands(trace, Found(old(seed.clustered), old(joiner.clustered)), Returned(err.None?),
                       seed.clustered, joiner.clustered, inits, joins)
      ensures !Complete(cfg) ==>
                && seed.clustered == old(seed.clustered) && joiner.clustered == old(joiner.clustered)
                && seed.initCalls == old(seed.initCalls) && joiner.joinCalls == old(joiner.joinCalls)
      // an init carries the seed's settings, a join the seed's address and certificate
      ensures InitsSince(old(seed.initCalls), seed.initCalls, cfg)
      ensures JoinsSince(old(joiner.joinCalls), joiner.joinCalls, cfg, seed.certificate)
      // a node is only called upon when it is not clustered, and then it has been by the end
      ensures old(seed.clustered) ==> seed.initCalls == old(seed.initCalls)
      ensures old(joiner.clustered) ==> joiner.joinCalls == old(joiner.joinCalls)
      ensures err.None? ==>
                && (seed.initCalls != old(seed.initCalls) <==> !old(seed.clustered))
                && (joiner.joinCalls != old(joiner.joinCalls) <==> !old(joiner.clustered))
      ensures err.None? ==>
                  seed.clustered && joiner.clustered && cfg.seed.name in seed.nodes && cfg.joiner.name in seed.nodes
      // progress survives a failed call, the joiner only follows the seed, and a formed cluster is left alone
      ensures old(seed.clustered) ==> seed.clustered
      ensures old(joiner.clustered) ==> joiner.clustered
      ensures joiner.clustered && !old(joiner.clustered) ==> seed.clustered
      ensures old(seed.clustered) && old(joiner.clustered) ==>
                  seed.initCalls == old(seed.initCalls) && joiner.joinCalls == old(joiner.joinCalls)
      ensures seed.reliable && joiner.reliable && seed.certificate != "" && Complete(cfg) ==>
                (err.None? <==> cfg.seed.name in seed.nodes && cfg.joiner.name in seed.nodes)
    {
      hide Run, Next, Enabled, Stands;
      ghost var first := Found(seed.clustered, joiner.clustered);
      if !Complete(cfg) { return Some(InvalidConfig), []; }
      Begun(first);
      trace := Extend(Start(first), Begin);
      var seedCert;
      err, seedCert, trace := FormSeed(cfg, trace, first);
      ghost var inits := |seed.initCalls| - |old(seed.initCalls)|;
      if err.Some? {
        RunMeans(trace, first, Returned(false), seed.clustered, joiner.clustered, inits, 0);
        return;
      }
      err, trace := FormJoiner(cfg, seedCert, trace, first, inits);
      ghost var joins := |joiner.joinCalls| - |old(joiner.joinCalls)|;
      ghost var pc := if err.Some? then Returned(false) else Pc.Verify;
      RunMeans(trace, first, pc, seed.clustered, joiner.clustered, inits, joins);
      if err.Some? { return; }
      AskFails(trace, first, Pc.Verify, seed.clustered, joiner.clustered, inits, joins);
      Asked(trace, first, Pc.Verify, seed.clustered, joiner.clustered, inits, joins);
      var verified := VerifyMembers(cfg.seed.name, cfg.joiner.name);
      if !verified { trace := Extend(trace, Fail); return Some(Verification), trace; }
      trace := Extend(trace, Ask);
      return None, trace;
    }

    // Step 1: initialise the seed unless it is clustered.
    method FormSeed(cfg: Config, ghost before: seq<World>, ghost first: World)
      returns (err: Option<Failure>, cert: string, ghost trace: seq<World>)
      requires Valid() && Stands(before, first, SeedStatus, seed.clustered, joiner.clustered, 0, 0)
      modifies seed`clustered, seed`clusterStatus, seed`initCalls
      ensures Valid() && err != Some(InvalidConfig)
      ensures Stands(trace, first, if err.Some? then Returned(false) else JoinerStatus(cert != ""),
                     seed.clustered, joiner.clustered, |seed.initCalls| - |old(seed.initCalls)|, 0)
      ensures InitsSince(old(seed.initCalls), seed.initCalls, cfg)
      ensures old(seed.clustered) ==> seed.initCalls == old(seed.initCalls)
      ensures err.None? && !old(seed.clustered) ==> seed.initCalls != old(seed.initCalls)
      ensures err.None? ==> cert == "" || cert == seed.certificate
      ensures seed.reliable && seed.certificate != "" ==> err.None?
    {
      hide Run, Next, Enabled, Stands;
      trace, cert := before, "";
      var status := seed.GetClusterStatus();
      AskFails(trace, first, SeedStatus, seed.clustered, joiner.clustered, 0, 0);
      if status.None? { trace := Extend(trace, Fail); return Some(CheckSeedStatus), cert, trace; }
      Asked(trace, first, SeedStatus, seed.clustered, joiner.clustered, 0, 0);
      trace := Extend(trace, Ask);
      if status.value.enabled { return None, cert, trace; }
      var answer := seed.GetClusterCertificate();
      AskFails(trace, first, SeedCert, false, joiner.clustered, 0, 0);
      if answer.None? { trace := Extend(trace, Fail); return Some(GetSeedCertificate), cert, trace; }
      Asked(trace, first, SeedCert, false, joiner.clustered, 0, 0);
      trace := Extend(trace, Ask);
      cert := answer.value;
      AskFails(trace, first, Init, false, joiner.clustered, 0, 0);
      Initiated(trace, first, false, joiner.clustered, 0, 0, cert != "");
      var failure := seed.InitCluster(SeedConfig(cfg));
      assert Inits(SeedConfig(cfg), cfg);
      if failure.Some? && failure.value != AlreadyBootstrapped {
        trace := Extend(trace, if seed.clustered then LostAnswer else Fail);
        return Some(InitSeed), cert, trace;
      }
      trace := Extend(trace, InitOk(cert != ""));
      return None, cert, trace;
    }

    // Step 2: join the joiner unless it is clustered.
    method FormJoiner(cfg: Config, seedCert: string, ghost before: seq<World>, ghost first: World, ghost inits: nat)
      returns (err: Option<Failure>, ghost trace: seq<World>)
      requires Valid()
      requires Stands(before, first, JoinerStatus(seedCert != ""), seed.clustered, joiner.clustered, inits, 0)
      requires seedCert == "" || seedCert == seed.certificate
      modifies joiner`clustered, joiner`clusterStatus, joiner`joinCalls
      ensures Valid() && err != Some(InvalidConfig)
      ensures Stands(trace, first, if err.Some? then Returned(false) else Pc.Verify,
                     seed.clustered, joiner.clustered, inits, |joiner.joinCalls| - |old(joiner.joinCalls)|)
      ensures JoinsSince(old(joiner.joinCalls), joiner.joinCalls, cfg, seed.certificate)
      ensures old(joiner.clustered) ==> joiner.joinCalls == old(joiner.joinCalls)
      ensures err.None? && !old(joiner.clustered) ==> joiner.joinCalls != old(joiner.joinCalls)
      ensures seed.reliable && joiner.reliable && seed.certificate != "" ==> err.None?
    {
      hide Run, Next, Enabled, Stands;
      trace := before;
      var cert := seedCert;
      var status := joiner.GetClusterStatus();
      AskFails(trace, first, JoinerStatus(cert != ""), seed.clustered, joiner.clustered, inits, 0);
      if status.None? { trace := Extend(trace, Fail); return Some(CheckJoinerStatus), trace; }
      Asked(trace, first, JoinerStatus(cert != ""), seed.clustered, joiner.clustered, inits, 0);
      trace := Extend(trace, Ask);
      if status.value.enabled { return None, trace; }
      if cert == "" {
        var answer := seed.GetClusterCertificate();
        AskFails(trace, first, JoinCert, seed.clustered, false, inits, 0);
        if answer.None? { trace := Extend(trace, Fail); return Some(GetCertificateForJoin), trace; }
        Asked(trace, first, JoinCert, seed.clustered, false, inits, 0);
        trace := Extend(trace, Ask);
        cert := answer.value;
      }
      AskFails(trace, first, Join, seed.clustered, false, inits, 0);
      JoinedUp(trace, first, seed.clustered, false, inits, 0);
      var failure := joiner.JoinCluster(JoinerConfig(cfg, cert));
      assert Joins(JoinerConfig(cfg, cert), cfg, seed.certificate);
      if failure.Some? && failure.value != AlreadyBootstrapped {
        trace := Extend(trace, if joiner.clustered then LostAnswer else Fail);
        return Some(JoinNode), trace;
      }
      trace := Extend(trace, JoinOk);
      return None, trace;
    }

    // Step 3: both names must be in the seed's member list.
    method VerifyMembers(seedName: string, joinerName: string) returns (ok: bool)
      requires seed.Valid()
      ensures ok ==> Listed(seed.nodes, seedName, joinerName)
      ensures seed.reliable ==> (ok <==> Listed(seed.nodes, seedName, joinerName))
    {
      var members := seed.GetClusterMembers();
      if members.None? { return false; }
      var found: set<string> := {};
      for i := 0 to |members.value|
        invariant forall n | n in found :: n in seed.nodes
        invariant forall j | 0 <= j < i :: members.value[j].name in found
      {
        assert members.value[i] in members.value;
        found := found + {members.value[i].name};
      }
      assert forall n | n in seed.nodes :: seed.nodes[n] in members.value;
      return seedName in found && joinerName in found;
    }
  }

  // A bootstrap that returns nil although neither member is online: both nodes are clustered,
  // and the seed lists them as offline.
  method OfflineMembersPass() returns (err: Option<Failure>, seed: Fake)
    ensures err == None && Listed(seed.nodes, "lxd1", "lxd2") && !BothOnline(seed.nodes, "lxd1", "lxd2")
  {
    seed := new Fake(true, false);
    var joiner := new Fake(true, false);
    seed.certificate, seed.clustered, joiner.clustered := "PEM", true, true;
    seed.nodes := map["lxd1" := NodeInfo("lxd1", "Offline"), "lxd2" := NodeInfo("lxd2", "Offline")];
    var bootstrapper := new Bootstrapper(seed, joiner);
    var cfg := Config("prod", "token", "dir", "default", NodeConfig("lxd1", "10.0.0.1:8443"),
        NodeConfig("lxd2", "10.0.0.2:8443"));
    ghost var trace;
    err, trace := bootstrapper.Bootstrap(cfg);
  }

  // ----- the workflow -----

  class ReadinessCheck {
    const name: string
    const client: Fake

    constructor (name: string, client: Fake)
      ensures this.name == name && this.client == client
    {
      this.name := name;
      this.client := client;
    }

    // Passes when the endpoint answers, and fails when it is down.
    method Check() returns (ok: bool)
      requires client.Valid()
      ensures client.down ==> !ok
      ensures client.reliable ==> ok
    {
      var status := client.GetClusterStatus();
      return status.Some?;
    }
  }

  datatype Outcome = Outcome(nodeName: string, ready: bool, failedStep: string)

  // What a workflow did, in order.
  datatype Event' = CheckPassed(check: nat) | CheckFailed(check: nat) | Formed | NotFormed

  function ChecksPassed(n: nat): seq<Event'> {
    seq(n, (i: nat) => CheckPassed(i))
  }

  class Workflow {
    const checks: seq<ReadinessCheck>
    const bootstrapper: Bootstrapper
    ghost var log: seq<Event'>

    constructor (bootstrapper: Bootstrapper, checks: seq<ReadinessCheck>)
      ensures this.bootstrapper == bootstrapper && this.checks == checks && log == []
    {
      this.bootstrapper := bootstrapper;
      this.checks := checks;
      log := [];
    }

    ghost predicate Valid()
      reads bootstrapper.seed, bootstrapper.joiner, set c | c in checks :: c.client
    {
      bootstrapper.Valid() && forall c | c in checks :: c.client.Valid()
    }

    // No endpoint fails a call, no setting is missing, and the seed has a certificate and lists
    // both members.
    ghost predicate CanComplete(cfg: Config)
      reads bootstrapper.seed
    {
      && Complete(cfg)
      && (forall c | c in checks :: c.client.reliable)
      && bootstrapper.seed.reliable && bootstrapper.joiner.reliable
      && bootstrapper.seed.certificate != ""
      && cfg.seed.name in bootstrapper.seed.nodes && cfg.joiner.name in bootstrapper.seed.nodes
    }

    // Ready exactly when every check passed in order and the bootstrap then returned nil.
    method Run(nodeName: string, cfg: Config) returns (r: Outcome)
      requires Valid()
      modifies this`log
      modifies bootstrapper.seed`clustered, bootstrapper.seed`clusterStatus, bootstrapper.seed`initCalls
      modifies bootstrapper.joiner`clustered, bootstrapper.joiner`clusterStatus, bootstrapper.joiner`joinCalls
      ensures Valid()
      ensures r.nodeName == nodeName
      ensures r.ready <==> log == old(log) + ChecksPassed(|checks|) + [Formed]
      ensures r.ready ==>
                && r.failedStep == ""
                && bootstrapper.seed.clustered && bootstrapper.joiner.clustered
                && cfg.seed.name in bootstrapper.seed.nodes && cfg.joiner.name in bootstrapper.seed.nodes
      ensures !r.ready ==>
                || (r.failedStep == "bootstrap" && log == old(log) + ChecksPassed(|checks|) + [NotFormed])
                || (exists k: nat | k < |checks| ::
                      && r.failedStep == "readiness:" + checks[k].name
                      && log == old(log) + ChecksPassed(k) + [CheckFailed(k)])
      // a server whose endpoint is down is never ready
      ensures (exists k | k in checks :: k.client.down) ==> !r.ready
      // where nothing fails and the seed lists both members, the node is ready
      ensures CanComplete(cfg) ==> r.ready
      // what reaches the nodes is the configuration
      ensures InitsSince(old(bootstrapper.seed.initCalls), bootstrapper.seed.initCalls, cfg)
      ensures JoinsSince(old(bootstrapper.joiner.joinCalls), bootstrapper.joiner.joinCalls, cfg,
                         bootstrapper.seed.certificate)
      ensures !Complete(cfg) ==>
                && bootstrapper.seed.initCalls == old(bootstrapper.seed.initCalls)
                && bootstrapper.joiner.joinCalls == old(bootstrapper.joiner.joinCalls)
      ensures r.ready ==>
                && (bootstrapper.seed.initCalls != old(bootstrapper.seed.initCalls)
                    <==> !old(bootstrapper.seed.clustered))
                && (bootstrapper.joiner.joinCalls != old(bootstrapper.joiner.joinCalls)
                    <==> !old(bootstrapper.joiner.clustered))
      // a failed check leaves both nodes untouched
      ensures !r.ready && r.failedStep != "bootstrap" ==> unchanged(bootstrapper.seed) && unchanged(bootstrapper.joiner)
    {
      for k := 0 to |checks|
        invariant Valid() && log == old(log) + ChecksPassed(k)
        invariant forall j | 0 <= j < k :: !checks[j].client.down
        invariant unchanged(bootstrapper.seed) && unchanged(bootstrapper.joiner)
      {
        assert checks[k] in checks;
        var ok := checks[k].Check();
        if !ok {
          log := log + [CheckFailed(k)];
          var step := "readiness:" + checks[k].name;
          return Outcome(nodeName, false, step);
        }
        log := log + [CheckPassed(k)];
      }
      var err, trace := bootstrapper.Bootstrap(cfg);
      assert forall c | c in checks :: c.client.Valid();
      if err.Some? {
        log := log + [NotFormed];
        assert log[|log| - 1] == NotFormed;
        return Outcome(nodeName, false, "bootstrap");
      }
      log := log + [Formed];
      return Outcome(nodeName, true, "");
    }
  }
}
