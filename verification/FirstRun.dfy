/** A first `cluster apply` of a one-graph configuration: the theorems' hypotheses hold together on a concrete run. */
module FirstRun {
  import opened Addresses
  import opened Digests
  import opened Ledgers
  import opened Coverage
  import opened Plan
  import opened Classify
  import opened Apply
  import opened ApplySafety
  import opened CrashSafety
  import opened ApplyIsSafe
  import opened ApplyConverges
  import opened Convergence
  import opened Configs
  import opened Protocol

  const SOURCE := "type Person"

  function OneGraph(): RawConfig {
    RawConfig(map[], map["g" := RawGraph(ContentDigest(SOURCE), map[], None, Deny)], map[])
  }

  function Config(): Desired {
    Build(OneGraph(), Raw("config"))
  }

  /** What `cluster import` leaves before anything was created. */
  function EmptyLedger(): Ledger {
    Ledger(1, None, map[], map[], map[], map[], map[])
  }

  /** Nothing fails; a graph's operation id is its name. */
  function CalmEnv(): Env {
    Env(None, [], [], _ => Some(SOURCE), g => g, _ => Done, _ => InitOk, _ => true, _ => MigrateOk, _ => true, _ => RemoveOk,
        _ => true, Done, _ => true, [], _ => true)
  }

  lemma ConfigLoads()
    ensures LoadDesired(OneGraph(), Raw("config")) == Some(Config()) && Loaded(Config())
  {
    OneGraphIsValid(OneGraph());
    LoadedConfigIsSound(OneGraph(), Raw("config"));
  }

  lemma OneGraphIsValid(raw: RawConfig)
    requires raw == OneGraph()
    ensures Valid(raw)
  {
    assert ValidGraph(raw, "g");
    assert raw.graphs.Keys == {"g"} && raw.policies == map[] && raw.providers == map[];
  }

  lemma CalmFor(d: Desired)
    requires BuiltFrom(OneGraph(), d)
    ensures Smooth(CalmEnv(), d)
  {
    forall dg | dg in d.graphs ensures SourceIntact(CalmEnv(), dg) {
      assert FromRaw(OneGraph(), dg);
    }
    forall a | a in d.digests && HasPayload(a) ensures ContentDigest(SOURCE) == d.digests[a] {
      assert IsDeclared(OneGraph(), a);
    }
  }

  /** The configuration, known only by what loading guarantees of it. */
  lemma SomeConfig() returns (d: Desired)
    ensures Loaded(d) && BuiltFrom(OneGraph(), d)
  {
    d := Config();
    ConfigLoads();
    BuildIsBuilt(OneGraph(), Raw("config"));
  }

  lemma DeclaresSchema(d: Desired)
    requires BuiltFrom(OneGraph(), d)
    ensures Schema("g") in d.digests && d.digests[Schema("g")] == ContentDigest(SOURCE)
  {
    assert IsDeclared(OneGraph(), Schema("g"));
  }

  lemma EmptyIsSettled(l0: Ledger, d: Desired, env: Env)
    requires l0 == EmptyLedger() && env.probes == [] && forall g, h :: env.op(g) == env.op(h) ==> g == h
    ensures var w := World(map[], Some(l0), map[], map[], map[]);
            Genesis(w) && Settled(w, l0, d, env) && FreshOps(env, w)
  {
    var w := World(map[], Some(l0), map[], map[], map[]);
    assert ResourcesOf(w) == map[];
    assert forall g :: InStep(map[], map[], g);
    assert forall g :: Covered(map[], map[], map[], g);
  }

  lemma ReportRecords(rep: Report, d: Desired, g: GraphId)
    requires rep.run.world.ledger.Some? && Converged(rep.run.world.ledger.value.resources, d) && Schema(g) in d.digests
    ensures Recorded(ResourcesOf(rep.run.world), g) == Some(d.digests[Schema(g)])
  {
    assert Schema(g) in ResourceDigests(rep.run.world.ledger.value.resources);
  }

  /** A converging run records every declared schema and leaves no sidecar. */
  lemma RunRecords(w: World, l0: Ledger, d: Desired, env: Env, g: GraphId)
    requires Loaded(d) && Settled(w, l0, d, env) && Smooth(env, d) && FreshOps(env, w) && Schema(g) in d.digests
    ensures var w' := ApplyCommand(w, d, env).run.world;
            Recorded(ResourcesOf(w'), g) == Some(d.digests[Schema(g)]) && w'.sidecars == map[]
  {
    ApplyConvergesInOneRun(w, l0, d, env);
    ReportRecords(ApplyCommand(w, d, env), d, g);
  }

  lemma SettledIsAdmissible(w: World, l0: Ledger, d: Desired, env: Env)
    requires Loaded(d) && Settled(w, l0, d, env) && FreshOps(env, w)
    ensures Admissible(w, d, env)
  {
  }

  lemma Hypotheses() returns (w: World, l0: Ledger, d: Desired, env: Env)
    ensures Genesis(w) && Loaded(d) && Settled(w, l0, d, env) && Smooth(env, d) && FreshOps(env, w) && l0.resources == map[]
    ensures Schema("g") in d.digests && d.digests[Schema("g")] == ContentDigest(SOURCE)
  {
    d := SomeConfig();
    env, l0 := CalmEnv(), EmptyLedger();
    w := World(map[], Some(l0), map[], map[], map[]);
    CalmFor(d);
    DeclaresSchema(d);
    EmptyIsSettled(l0, d, env);
  }

  /** The hypotheses of the theorems hold together: a first apply takes an empty ledger to the declared schema of its graph. */
  lemma FirstApply() returns (w: World, d: Desired, env: Env)
    ensures Genesis(w) && Admissible(w, d, env) && ResourcesOf(w) == map[]
    ensures var w' := ApplyCommand(w, d, env).run.world;
            Recorded(ResourcesOf(w'), "g") == Some(ContentDigest(SOURCE)) && w'.sidecars == map[]
  {
    var l0;
    w, l0, d, env := Hypotheses();
    SettledIsAdmissible(w, l0, d, env);
    assert ResourcesOf(w) == l0.resources;
    RunRecords(w, l0, d, env, "g");
  }
}
