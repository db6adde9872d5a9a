/** Concrete runs in which apply or refresh leaves a ledger that the next command refuses, or fences less than it might. */
module Severances {
  import opened Addresses
  import opened Digests
  import opened Ledgers
  import opened Sweep
  import opened Coverage
  import opened SweepFixpoint
  import opened Plan
  import opened Classify
  import opened Apply
  import opened ApplySafety
  import opened ApplyLedger
  import opened ApplyOutcome
  import opened CrashSafety
  import opened ApplyIsSafe
  import opened ApplyFences
  import opened ApplyConverges
  import opened ApplyTheorems
  import opened ApplyStops
  import opened Configs
  import opened Refresh
  import opened RefreshBinding
  import opened Protocol
  import opened Scenarios

  // ---- after a run that severs ----

  lemma UnboundIsSevered(w: World, h: GraphId, d: Desired, env: Env)
    requires Graph(h) in ResourcesOf(w) && !Bound(ResourcesOf(w), h)
    ensures ApplyCommand(w, d, env).outcome == Severed
  {
    assert !AllBound(w.ledger.value.resources);
  }

  lemma CommitWrites(l0: Ledger, x: Execution, d: Desired, env: Env)
    requires x.ledger != l0 && env.putState == Done
    ensures ResourcesOf(Commit(l0, x, d, env).run.world) == x.ledger.resources
  {
    var r1 := Step(x.deleted, WroteState, x.deleted.world.(ledger := Some(Committed(x.ledger))));
    var ops, ids := x.swept.outcome.completed + x.deleted.completed, x.swept.outcome.consumed + ConsumedIds(x.deleted.removed);
    RetirementKeepsLedger(r1, ops, env.drop);
    MarkingKeepsLedger(DropAll(r1, ops, env.drop), Listed(env.files, ids), env.mark);
  }

  lemma ApplyWrites(w: World, l0: Ledger, d: Desired, env: Env)
    requires w.ledger == Some(l0) && AllBound(l0.resources) && env.putState == Done
    requires Execute(w, l0, d, env).paid.ok && Execute(w, l0, d, env).ledger != l0
    ensures ResourcesOf(ApplyCommand(w, d, env).run.world) == Execute(w, l0, d, env).ledger.resources
  {
    ExecutionIsNotRefused(w, l0, d, env);
    CommitWrites(l0, Execute(w, l0, d, env), d, env);
  }

  /** A config that disturbs the provider of an undeclared graph: the run succeeds, and every command after it refuses. */
  lemma DisturbedProviderSevers(w: World, l0: Ledger, d: Desired, env: Env, h: GraphId, d': Desired, env': Env)
    requires Runs(w, l0, d, env) && Loaded(d) && env.putState == Done && Execute(w, l0, d, env).paid.ok
    requires Graph(h) in Execute(w, l0, d, env).ledger.resources && Graph(h) !in d.digests
    requires Graph(h) in Execute(w, l0, d, env).swept.ledger.resources && ProviderDisturbed(Execute(w, l0, d, env).swept.ledger.resources, d, h)
    ensures ApplyCommand(ApplyCommand(w, d, env).run.world, d', env').outcome == Severed
  {
    ApplyBindingExact(w, l0, d, env, h);
    SeveredNext(w, l0, d, env, h, d', env');
  }

  lemma SeveredNext(w: World, l0: Ledger, d: Desired, env: Env, h: GraphId, d': Desired, env': Env)
    requires w.ledger == Some(l0) && AllBound(l0.resources) && env.putState == Done && Execute(w, l0, d, env).paid.ok
    requires Graph(h) in Execute(w, l0, d, env).ledger.resources && !Bound(Execute(w, l0, d, env).ledger.resources, h)
    ensures ApplyCommand(ApplyCommand(w, d, env).run.world, d', env').outcome == Severed
  {
    assert !AllBound(Execute(w, l0, d, env).ledger.resources);
    ApplyWrites(w, l0, d, env);
    UnboundIsSevered(ApplyCommand(w, d, env).run.world, h, d', env');
  }

  /** A refresh that drops a query blob of a graph it does not observe: every command after it refuses. */
  lemma DroppedQuerySevers(w: World, l0: Ledger, d: Desired, e: SyncEnv, h: GraphId, n: string, d': Desired, env': Env)
    requires w.ledger == Some(l0) && SyncProceeds(w, RefreshState, d, e) && e.putState == Done && WellKinded(l0.resources) && DistinctIds(d.graphs)
    requires FindGraph(d.graphs, h).None? && Graph(h) in SweepLedger(l0, e.probes).ledger.resources
    requires Dropped(SweepLedger(l0, e.probes).ledger.resources, w, e, Query(h, n))
    requires Graph(h) in SyncLedger(l0, w, d, e).resources
    ensures ApplyCommand(SyncCommand(w, RefreshState, d, e).world, d', env').outcome == Severed
  {
    RefreshBindingExact(l0, w, d, e, h);
    var l := SyncLedger(l0, w, d, e).(revision := NextRevision(SyncLedger(l0, w, d, e).revision));
    WriteLands(w, l, SweepLedger(l0, e.probes).outcome, e);
    UnboundIsSevered(SyncCommand(w, RefreshState, d, e).world, h, d', env');
  }

  lemma WriteLands(w: World, l: Ledger, outcome: SweepOutcome, e: SyncEnv)
    requires e.putState == Done
    ensures SyncWrite(w, l, outcome, e).world.ledger == Some(l)
  {
    var r1 := Step(Start(w), WroteState, w.(ledger := Some(l)));
    RetirementKeepsLedger(r1, outcome.completed, e.drop);
    MarkingKeepsLedger(DropAll(r1, outcome.completed, e.drop), Listed(e.files, outcome.consumed), e.mark);
  }

  // ---- an undeclared graph bound to a changed provider ----

  /** Graph `h` bound to provider `p`; whatever else is recorded has no payload. */
  ghost predicate BoundEntries(res: Resources) {
    && res.Keys == {Graph("h"), Schema("h"), EmbeddingProvider("p")} && AllBound(res) && Paired(res) && WellKinded(res)
    && res[Graph("h")].provider == Some(EmbeddingProvider("p")) && res[EmbeddingProvider("p")].digest == ProfileDigest(PROFILE)
    && res[Schema("h")].digest == V0
  }

  lemma SomeBoundEntries() returns (res: Resources)
    ensures BoundEntries(res)
  {
    var p := Some(EmbeddingProvider("p"));
    var res1 := Base()[Schema("h") := Plain(V0)];
    res := res1[Graph("h") := Recomposed(res1, "h", p, Deny)];
    assert QueryDigests(res, "h") == QueryDigests(res1, "h");
    assert res[Graph("h")] == Recomposed(res, "h", p, Deny);
    RecomposedIsBound(res, "h", p, Deny);
    assert res.Keys == Base().Keys + {Schema("h")} + {Graph("h")};
  }

  /** The same provider with another profile, and no graph. */
  function OtherProfile(): RawConfig {
    RawConfig(map["p" := Profile("q")], map[], map[])
  }

  lemma OtherProfileConfig() returns (d: Desired)
    ensures Configured(OtherProfile(), d)
    ensures forall a :: a in d.digests <==> a == EmbeddingProvider("p")
    ensures d.digests[EmbeddingProvider("p")] == ProfileDigest(Profile("q"))
  {
    var raw := OtherProfile();
    assert ValidId("p") && raw.graphs == map[] && raw.policies == map[] && raw.providers.Keys == {"p"};
    d := Configure(raw, Raw("config"));
    forall a ensures a in d.digests <==> a == EmbeddingProvider("p") { DeclaredIff(raw, d, a); }
    assert IsDeclared(raw, EmbeddingProvider("p"));
  }

  /** A run with nothing to move and nothing to pay. */
  lemma NothingMoves(w: World, l0: Ledger, d: Desired, env: Env)
    requires Paired(l0.resources) && Declared(d) && env.probes == [] && NoPayloads(l0.resources, d)
    requires forall h :: !Moving(l0.resources, d, env.artifacts, {}, h)
    ensures var x := Execute(w, l0, d, env); x.swept == Swept(l0, NoOutcome) && x.paid == Paid(Start(w), true) && x.deleted == Start(w)
  {
    var x := Execute(w, l0, d, env);
    var res, arts := l0.resources, env.artifacts;
    assert x.swept == Swept(l0, NoOutcome);
    EmptyLists(res, d, arts);
    PlanNeedsNoPayload(res, d, arts, {}, map[]);
    NothingToPay(Paid(Start(w), true), Demoted(x.plan, map[], d.dependencies), env);
  }

  lemma EmptyLists(res: Resources, d: Desired, arts: Artifacts)
    requires Paired(res) && Declared(d) && forall h :: !Moving(res, d, arts, {}, h)
    ensures var plan := ClassifiedPlan(res, d, arts, {});
            ToRun(plan, Create, false) == [] && ToRun(plan, Update, true) == [] && ToRun(Demoted(plan, map[], d.dependencies), Delete, false) == []
  {
    var plan := ClassifiedPlan(res, d, arts, {});
    CreateList(res, d, arts, {});
    MigrateList(res, d, arts, {});
    DeleteList(res, d, arts, {}, map[]);
    forall h
      ensures h !in ToRun(plan, Create, false) && h !in ToRun(plan, Update, true)
      ensures h !in ToRun(Demoted(plan, map[], d.dependencies), Delete, false)
    {
      assert !Moving(res, d, arts, {}, h);
    }
    Nobody(ToRun(plan, Create, false));
    Nobody(ToRun(plan, Update, true));
    Nobody(ToRun(Demoted(plan, map[], d.dependencies), Delete, false));
  }

  lemma Nobody(ids: seq<GraphId>)
    requires forall h :: h !in ids
    ensures ids == []
  {
    SomebodyListed(ids);
  }

  lemma StandsStill(res: Resources, d: Desired, env: Env)
    requires BoundEntries(res) && (forall a :: a in d.digests <==> a == EmbeddingProvider("p")) && env.artifacts == []
    ensures NoPayloads(res, d) && forall h :: !Moving(res, d, env.artifacts, {}, h)
  {
  }

  /** A graph no run moves keeps its entry. */
  lemma UnmovedStays(w: World, l0: Ledger, d: Desired, env: Env, h: GraphId)
    requires Runs(w, l0, d, env) && Execute(w, l0, d, env).swept == Swept(l0, NoOutcome) && Execute(w, l0, d, env).deleted == Start(w)
    requires Schema(h) in l0.resources
    ensures Graph(h) in Execute(w, l0, d, env).ledger.resources
  {
    var c, x := CtxOf(w, l0, d, env), Execute(w, l0, d, env);
    RunConcludes(w, l0, d, env);
    LedgerTellsTruth(c, x.swept.ledger, x.swept.outcome.pending, x.plan, x.final, x.paid.run, x.deleted, x.ledger, h);
  }

  lemma QuietRuns(w: World, res: Resources, d: Desired, env: Env)
    requires w == WorldOf(res, map["h" := Open(V0)]) && BoundEntries(res) && Loaded(d) && env == Env0([], [], "", "")
    ensures Runs(w, LedgerOf(res), d, env)
  {
    OpsAreFresh(env, "", w);
  }

  /** An admissible apply from a world in step that changes the provider of an undeclared graph: all later commands refuse. */
  lemma ProviderChangeSevers(d': Desired, env': Env) returns (w: World, d: Desired, env: Env)
    ensures Genesis(w) && CommandAdmissible(w, ApplyWith(d, env))
    ensures ApplyCommand(ApplyCommand(w, d, env).run.world, d', env').outcome == Severed
  {
    var res := SomeBoundEntries();
    w := WorldOf(res, map["h" := Open(V0)]);
    d := OtherProfileConfig();
    env := Env0([], [], "", "");
    BoundGenesis(w, res);
    QuietRuns(w, res, d, env);
    StandsStill(res, d, env);
    NothingMoves(w, LedgerOf(res), d, env);
    UnmovedStays(w, LedgerOf(res), d, env, "h");
    DisturbedProviderSevers(w, LedgerOf(res), d, env, "h", d', env');
  }

  lemma BoundGenesis(w: World, res: Resources)
    requires w == WorldOf(res, map["h" := Open(V0)]) && BoundEntries(res)
    ensures Genesis(w)
  {
    forall g: GraphId ensures InStep(res, w.live, g) { }
  }

  // ---- a missing query blob of an unobserved graph ----

  /** Graph `g` recorded with one query. */
  ghost predicate QueriedEntries(res: Resources) {
    && Graph("g") in res && Schema("g") in res && Query("g", "q") in res && AllBound(res) && Paired(res) && WellKinded(res)
    && res[Schema("g")].digest == V0 && forall h: GraphId :: Schema(h) in res ==> h == "g"
  }

  lemma SomeQueriedEntries() returns (res: Resources)
    ensures QueriedEntries(res)
  {
    var res0 := Base()[Query("g", "q") := Plain(V1)];
    assert forall h: GraphId :: Graph(h) !in res0 && Schema(h) !in res0;
    RecordLiveBound(res0, "g", V0);
    RecordLiveFacts(res0, "g", V0);
    res := RecordLive(res0, "g", V0);
  }

  lemma QueryIsDropped(w: World, res: Resources, e: SyncEnv)
    requires Query("g", "q") in res && w.blobs == map[] && !e.readFails(Query("g", "q"))
    ensures Dropped(res, w, e, Query("g", "q"))
  {
  }

  /**
   A refresh from a world in step whose catalog lost one blob, under a configuration that does not declare the graph: all
   later commands refuse.
   */
  lemma LostBlobSevers(d': Desired, env': Env) returns (w: World, d: Desired, e: SyncEnv)
    ensures Genesis(w) && CommandAdmissible(w, SyncWith(RefreshState, d, e))
    ensures ApplyCommand(SyncCommand(w, RefreshState, d, e).world, d', env').outcome == Severed
  {
    var res := SomeQueriedEntries();
    w := WorldOf(res, map["g" := Open(V0)]);
    d := EmptyConfig();
    e := Quietly(Truth0, []);
    QueriedGenesis(w, res);
    SeesTruth(w, e);
    LosesQuery(w, res, d, e, d', env');
  }

  function Truth0(g: GraphId): Root {
    if g == "g" then Open(V0) else Absent
  }

  lemma SeesTruth(w: World, e: SyncEnv)
    requires w.live == map["g" := Open(V0)] && e == Quietly(Truth0, [])
    ensures SyncAdmissible(w, e)
  {
  }

  lemma QueriedGenesis(w: World, res: Resources)
    requires w == WorldOf(res, map["g" := Open(V0)]) && QueriedEntries(res)
    ensures Genesis(w)
  {
    forall g: GraphId ensures InStep(res, w.live, g) { }
  }

  lemma LosesQuery(w: World, res: Resources, d: Desired, e: SyncEnv, d': Desired, env': Env)
    requires w == WorldOf(res, map["g" := Open(V0)]) && QueriedEntries(res) && d.graphs == [] && e.probes == [] && e.putState == Done
    requires !e.readFails(Query("g", "q"))
    ensures ApplyCommand(SyncCommand(w, RefreshState, d, e).world, d', env').outcome == Severed
  {
    var l0 := LedgerOf(res);
    assert SweepLedger(l0, e.probes) == Swept(l0, NoOutcome);
    QueryIsDropped(w, res, e);
    VerifiedGraph(l0, w, e, "g");
    assert SyncLedger(l0, w, d, e) == Verified(l0, w, e);
    DroppedQuerySevers(w, l0, d, e, "g", "q", d', env');
  }

  // ---- a failed schema apply that changes the provider ----

  /** Graph `g` at V1, now bound to provider `p`. */
  function Rebound(): RawConfig {
    RawConfig(map["p" := PROFILE], map["g" := RawGraph(V1, map[], Some("p"), Deny)], map[])
  }

  lemma ReboundConfig() returns (d: Desired, dg: DesiredGraph)
    ensures Loaded(d) && FindGraph(d.graphs, "g") == Some(dg) && dg.provider == Some(EmbeddingProvider("p"))
    ensures Schema("g") in d.digests && d.digests[Schema("g")] == V1
  {
    ReboundIsValid(Rebound());
    d := Configure(Rebound(), Raw("config"));
    dg := ReboundGraph(d);
  }

  lemma ReboundGraph(d: Desired) returns (dg: DesiredGraph)
    requires BuiltFrom(Rebound(), d)
    ensures FindGraph(d.graphs, "g") == Some(dg) && dg.provider == Some(EmbeddingProvider("p"))
    ensures Schema("g") in d.digests && d.digests[Schema("g")] == V1
  {
    assert "g" in Rebound().graphs;
    dg := FindGraph(d.graphs, "g").value;
    assert FromRaw(Rebound(), dg) && ProviderName("p") == Some("p");
    assert IsDeclared(Rebound(), Schema("g"));
  }

  lemma ReboundIsValid(raw: RawConfig)
    requires raw == Rebound()
    ensures Valid(raw)
  {
    assert ProviderName("p") == Some("p");
    assert ValidId("p") && ValidGraph(raw, "g");
    assert raw.graphs.Keys == {"g"} && raw.policies == map[] && raw.providers.Keys == {"p"};
  }

  /** The engine rejects the schema apply and moves nothing. */
  function RejectingEnv(): Env {
    Env0([], [], "v1", "").(migrate := _ => MigrateErr(false, true))
  }

  lemma RejectionFails(r: Run, g: GraphId, res: Resources, d: Desired, env: Env)
    requires env.migrate(g).MigrateErr? && FindGraph(d.graphs, g).Some?
    ensures g in MigrateOne(r, g, res, d, env).failed
  {
  }

  /** A graph to be migrated whose schema apply the engine rejects ends among the failed ones. */
  lemma RejectedIsFailed(w: World, l0: Ledger, d: Desired, env: Env, g: GraphId)
    requires w.ledger == Some(l0) && Ready(w, l0, d, env) && env.migrate(g).MigrateErr? && FindGraph(d.graphs, g).Some?
    requires var st := SweepLedger(l0, env.probes); Migrating(st.ledger.resources, d, st.outcome.pending, g)
    ensures g in Execute(w, l0, d, env).deleted.failed
  {
    var x := Execute(w, l0, d, env);
    SweepKeepsPaired(Swept(l0, NoOutcome), env.probes);
    MigrateList(x.swept.ledger.resources, d, env.artifacts, x.swept.outcome.pending);
    RejectedInPhase(x.created, ToRun(x.plan, Update, true), x.swept.ledger.resources, d, env, g);
    ExecuteRunFacts(w, l0, d, env);
  }

  lemma {:induction false} RejectedInPhase(r: Run, ids: seq<GraphId>, res: Resources, d: Desired, env: Env, g: GraphId)
    requires g in ids && env.migrate(g).MigrateErr? && FindGraph(d.graphs, g).Some?
    ensures g in RunMigrations(r, ids, res, d, env).failed
    decreases |ids|
  {
    if ids[0] == g {
      RejectionFails(r, g, res, d, env);
      FailedStays(MigrateOne(r, g, res, d, env), ids[1..], res, d, env, g);
    } else {
      RejectedInPhase(MigrateOne(r, ids[0], res, d, env), ids[1..], res, d, env, g);
    }
  }

  lemma {:induction false} FailedStays(r: Run, ids: seq<GraphId>, res: Resources, d: Desired, env: Env, g: GraphId)
    requires g in r.failed
    ensures g in RunMigrations(r, ids, res, d, env).failed
    decreases |ids|
  {
    if ids != [] { FailedStays(MigrateOne(r, ids[0], res, d, env), ids[1..], res, d, env, g); }
  }

  lemma RejectingRuns(w: World, res: Resources, d: Desired, env: Env)
    requires w == WorldOf(res, map["g" := Open(V0)]) && Entries(res) && Loaded(d) && env == RejectingEnv()
    ensures Runs(w, LedgerOf(res), d, env)
  {
    OpsAreFresh(env, "", w);
  }

  /** An admissible apply from a world in step: the schema apply fails, and the ledger entry changes its provider all the same. */
  lemma FailedApplyChangesProvider() returns (w: World, l0: Ledger, d: Desired, env: Env)
    ensures Genesis(w) && w.ledger == Some(l0) && CommandAdmissible(w, ApplyWith(d, env))
    ensures var x := Execute(w, l0, d, env);
            && "g" in x.deleted.failed && Graph("g") in l0.resources && Graph("g") in x.ledger.resources
            && l0.resources[Graph("g")].provider == None && x.ledger.resources[Graph("g")].provider == Some(EmbeddingProvider("p"))
  {
    var res := SomeEntries();
    w, l0, env := WorldOf(res, map["g" := Open(V0)]), LedgerOf(res), RejectingEnv();
    var dg;
    d, dg := ReboundConfig();
    RecordedIsGenesis(res, w);
    RejectingRuns(w, res, d, env);
    ChangesProvider(w, l0, d, env, dg);
  }

  lemma ChangesProvider(w: World, l0: Ledger, d: Desired, env: Env, dg: DesiredGraph)
    requires Runs(w, l0, d, env) && env.probes == [] && env.migrate("g").MigrateErr? && FindGraph(d.graphs, "g") == Some(dg)
    requires Schema("g") in l0.resources && l0.resources[Schema("g")].digest == V0 && Schema("g") in d.digests && d.digests[Schema("g")] == V1
    ensures var x := Execute(w, l0, d, env);
            "g" in x.deleted.failed && Graph("g") in x.ledger.resources && x.ledger.resources[Graph("g")].provider == dg.provider
  {
    assert SweepLedger(l0, env.probes) == Swept(l0, NoOutcome);
    RejectedIsFailed(w, l0, d, env, "g");
    RejectedStays(w, l0, d, env);
    FailedGraphTakesDesiredProvider(w, l0, d, env, "g");
  }

  lemma RejectedStays(w: World, l0: Ledger, d: Desired, env: Env)
    requires Runs(w, l0, d, env) && env.probes == [] && Schema("g") in l0.resources && "g" in Execute(w, l0, d, env).deleted.failed
    ensures Graph("g") in Execute(w, l0, d, env).ledger.resources
  {
    var c, x := CtxOf(w, l0, d, env), Execute(w, l0, d, env);
    assert x.swept == Swept(l0, NoOutcome);
    RunConcludes(w, l0, d, env);
    FailedGraphIsFenced(w, l0, d, env, "g");
    LedgerTellsTruth(c, x.swept.ledger, x.swept.outcome.pending, x.plan, x.final, x.paid.run, x.deleted, x.ledger, "g");
  }
}
