/** A concrete history that leaves a schema intent no later command can retire. */
module StuckIntents {
  import opened Addresses
  import opened Digests
  import opened Ledgers
  import opened Sweep
  import opened Coverage
  import opened SweepFixpoint
  import opened Plan
  import opened Classify
  import opened Apply
  import opened ApplySafety
  import opened ApplyLedger
  import opened ApplyOutcome
  import opened CrashSafety
  import opened ApplyIsSafe
  import opened ApplyConverges
  import opened Configs
  import opened Protocol
  import opened Scenarios
  import opened CrashRepair

  const SchemaIntent := Sidecar(SchemaApply, "g", V1, None, None)

  /** After the first crash: the schema has moved, the ledger has not. */
  function Migrated(w: World): World {
    w.(live := map["g" := Open(V1)], sidecars := map["g" := SchemaIntent])
  }

  /** After the second: the root is gone under the schema intent. */
  function Deserted(w: World): World {
    w.(live := map["g" := Absent], sidecars := map["g" := SchemaIntent, "dg" := DeleteIntent])
  }

  // ---- first command: a schema apply, crashed behind the engine call ----

  lemma OneMigration(r: Run, g: GraphId, res: Resources, d: Desired, env: Env)
    ensures RunMigrations(r, [g], res, d, env) == MigrateOne(r, g, res, d, env)
  {
    assert [g][1..] == [];
    assert RunMigrations(MigrateOne(r, g, res, d, env), [], res, d, env) == MigrateOne(r, g, res, d, env);
  }

  /** A run whose only early movement is the schema apply of `g`. */
  lemma OnlyMigrates(w: World, l0: Ledger, d: Desired, env: Env, g: GraphId)
    requires Paired(l0.resources) && Declared(d) && env.probes == [] && NoPayloads(l0.resources, d)
    requires forall h :: !Creating(l0.resources, d, {}, h)
    requires forall h :: Migrating(l0.resources, d, {}, h) <==> h == g
    ensures var x := Execute(w, l0, d, env); x.migrated == MigrateOne(Start(w), g, l0.resources, d, env) && x.paid == Paid(x.migrated, true)
  {
    var x := Execute(w, l0, d, env);
    var res, arts := l0.resources, env.artifacts;
    assert x.swept == Swept(l0, NoOutcome);
    CreateList(res, d, arts, {});
    SomebodyListed(ToRun(x.plan, Create, false));
    MigrateList(res, d, arts, {});
    OneListed(ToRun(x.plan, Update, true), g);
    OneMigration(Start(w), g, res, d, env);
    PlanNeedsNoPayload(res, d, arts, {}, x.migrated.failed);
    NothingToPay(Paid(x.migrated, true), x.demoted, env);
  }

  lemma MigrationIsLeft(w: World, l0: Ledger, d: Desired, env: Env, g: GraphId, e: Entry)
    requires w.ledger == Some(l0) && AllBound(l0.resources)
    requires Paired(l0.resources) && Declared(d) && env.probes == [] && NoPayloads(l0.resources, d)
    requires forall h :: !Creating(l0.resources, d, {}, h)
    requires forall h :: Migrating(l0.resources, d, {}, h) <==> h == g
    requires e in MigrateOne(Start(w), g, l0.resources, d, env).log
    ensures Leaves(w, ApplyWith(d, env), e.world)
  {
    OnlyMigrates(w, l0, d, env, g);
    PaidIsDeleted(w, l0, d, env, e);
    PhasesAreLeft(w, l0, d, env, e);
  }

  lemma PaidIsDeleted(w: World, l0: Ledger, d: Desired, env: Env, e: Entry)
    requires e in Execute(w, l0, d, env).paid.run.log
    ensures e in Execute(w, l0, d, env).deleted.log
  {
    var x := Execute(w, l0, d, env);
    DeletesKeepLog(x.paid.run, ToRun(x.demoted, Delete, false), d, env);
  }

  /** The steps of a schema apply in which nothing fails. */
  lemma MigrateSteps(r: Run, g: GraphId, res: Resources, d: Desired, env: Env, dg: DesiredGraph)
    requires !r.aborted && FindGraph(d.graphs, g) == Some(dg) && RootOf(r.world.live, g).Open? && env.ready(g) && SourceIntact(env, dg)
    requires env.putSidecar(g) == Done && env.migrate(g) == MigrateOk
    ensures var w := r.world.(sidecars := r.world.sidecars[env.op(g) := Sidecar(SchemaApply, g, dg.schemaDigest, None, env.actor)],
                              live := r.world.live[g := Open(dg.schemaDigest)]);
            Entry(SchemaApplyCalled(g, true), w) in MigrateOne(r, g, res, d, env).log
  {
  }

  lemma SchemaDeclaredAt(d: Desired, schema: Digest)
    requires BuiltFrom(OneGraph(schema), d)
    ensures Schema("g") in d.digests && d.digests[Schema("g")] == schema
  {
    var raw := OneGraph(schema);
    assert IsDeclared(raw, Schema("g")) && DigestFor(raw, Schema("g")) == schema;
  }

  lemma NothingPaid(res: Resources, d: Desired, schema: Digest)
    requires BuiltFrom(OneGraph(schema), d) && Entries(res)
    ensures NoPayloads(res, d)
  {
    forall a | a in d.digests ensures !HasPayload(a) {
      DeclaredIff(OneGraph(schema), d, a);
      DeclaredUnpaid(schema, a);
    }
    forall a | a in res ensures !HasPayload(a) { assert a in {Graph("g"), Schema("g"), EmbeddingProvider("p")}; }
  }

  lemma DeclaredUnpaid(schema: Digest, a: Address)
    requires IsDeclared(OneGraph(schema), a)
    ensures !HasPayload(a)
  {
  }

  lemma MigratesIff(res: Resources, d: Desired, h: GraphId)
    requires BuiltFrom(OneGraph(V1), d) && Declared(d) && Entries(res)
    ensures !Creating(res, d, {}, h) && (Migrating(res, d, {}, h) <==> h == "g")
  {
    GraphDeclaredIff(d, V1, h);
    SchemaDeclaredAt(d, V1);
    SchemaWithGraph(d, h);
    EntriesAt(res, h);
    MigratesOver(res, d, h);
  }

  lemma SchemaWithGraph(d: Desired, h: GraphId)
    requires Declared(d)
    ensures Schema(h) in d.digests <==> Graph(h) in d.digests
  {
  }

  lemma MigratesOver(res: Resources, d: Desired, h: GraphId)
    requires (Graph(h) in d.digests <==> h == "g") && (Schema(h) in d.digests <==> h == "g")
    requires (Graph(h) in res <==> h == "g") && (Schema(h) in res <==> h == "g")
    requires Schema("g") in res && Schema("g") in d.digests && res[Schema("g")].digest != d.digests[Schema("g")]
    ensures !Creating(res, d, {}, h) && (Migrating(res, d, {}, h) <==> h == "g")
  {
  }

  lemma EntriesAt(res: Resources, h: GraphId)
    requires Entries(res)
    ensures (Graph(h) in res <==> h == "g") && (Schema(h) in res <==> h == "g") && Schema("g") in res && res[Schema("g")].digest == V0
  {
  }

  lemma SameMigrated(w: World, env: Env)
    requires w.sidecars == map[] && w.live == map["g" := Open(V0)] && env.op("g") == "" + "g"
    ensures w.(sidecars := w.sidecars[env.op("g") := SchemaIntent], live := w.live["g" := Open(V1)]) == Migrated(w)
  {
    assert "" + "g" == "g";
    assert w.live["g" := Open(V1)] == map["g" := Open(V1)] && w.sidecars["g" := SchemaIntent] == map["g" := SchemaIntent];
  }

  lemma MigrationWorld(w: World, res: Resources, d: Desired, env: Env)
    requires w.sidecars == map[] && w.live == map["g" := Open(V0)] && Configured(OneGraph(V1), d) && env == Env0([], [], "v1", "")
    ensures exists e :: e in MigrateOne(Start(w), "g", res, d, env).log && e.world == Migrated(w)
  {
    var dg := DeclaresG(d, V1);
    MigrateSteps(Start(w), "g", res, d, env, dg);
    SameMigrated(w, env);
    assert Entry(SchemaApplyCalled("g", true), Migrated(w)) in MigrateOne(Start(w), "g", res, d, env).log;
  }

  lemma MigrationCrashes(w: World, res: Resources, d: Desired, env: Env)
    requires Begun(w, res) && Configured(OneGraph(V1), d) && env == Env0([], [], "v1", "")
    ensures Leaves(w, ApplyWith(d, env), Migrated(w))
  {
    NothingPaid(res, d, V1);
    forall h ensures !Creating(res, d, {}, h) && (Migrating(res, d, {}, h) <==> h == "g") { MigratesIff(res, d, h); }
    MigrationWorld(w, res, d, env);
    var e :| e in MigrateOne(Start(w), "g", res, d, env).log && e.world == Migrated(w);
    MigrationIsLeft(w, LedgerOf(res), d, env, "g", e);
  }

  lemma MigrationAdmissible(w: World, d: Desired, env: Env)
    requires w.sidecars == map[] && Declared(d) && env == Env0([], [], "v1", "")
    ensures Admissible(w, d, env)
  {
    OpsAreFresh(env, "", w);
  }

  lemma MigrationCommand(w: World, res: Resources) returns (cmd: Command)
    requires Begun(w, res)
    ensures CommandAdmissible(w, cmd) && Leaves(w, cmd, Migrated(w))
  {
    var d := GraphConfig(V1);
    var env := Env0([], [], "v1", "");
    MigrationAdmissible(w, d, env);
    MigrationCrashes(w, res, d, env);
    cmd := ApplyWith(d, env);
  }

  // ---- second command: the approved delete, crashed behind the removal ----

  function MovedProbe(): Probe {
    Probe("g", SchemaIntent, Open(V1))
  }

  /** Sweeping the schema intent records V1, in memory. */
  lemma SweptForward(l0: Ledger, ps: seq<Probe>)
    requires Entries(l0.resources) && ps == [MovedProbe()]
    ensures var st := SweepLedger(l0, ps); st.ledger.resources == RecordLive(l0.resources, "g", V1) && st.outcome.pending == {}
  {
    var st := Swept(l0, NoOutcome);
    assert ps[1..] == [];
    assert SweepAll(st, ps) == SweepAll(SweepOne(st, ps[0]), ps[1..]);
    SweepOneSummary(st, ps[0]);
  }

  /** The swept entries, known by what the delete needs. */
  ghost predicate Forward(res: Resources) {
    Paired(res) && Graph("g") in res && (forall h: GraphId :: Graph(h) in res ==> h == "g") && forall a :: a in res ==> !HasPayload(a)
  }

  lemma RollsForward(res: Resources)
    requires Entries(res)
    ensures Forward(RecordLive(res, "g", V1))
  {
    RecordLiveFacts(res, "g", V1);
  }

  lemma OnlyDeletesSwept(w: World, l0: Ledger, d: Desired, env: Env, g: GraphId)
    requires var st := SweepLedger(l0, env.probes);
             && Paired(st.ledger.resources) && Declared(d) && NoPayloads(st.ledger.resources, d) && (forall h :: Graph(h) !in d.digests)
             && forall h :: Deleting(st.ledger.resources, d, env.artifacts, st.outcome.pending, h) <==> h == g
    ensures var x := Execute(w, l0, d, env); x.paid == Paid(Start(w), true) && x.deleted == DeleteOne(Start(w), g, d, env)
  {
    var x := Execute(w, l0, d, env);
    var res, pending, arts := x.swept.ledger.resources, x.swept.outcome.pending, env.artifacts;
    CreateList(res, d, arts, pending);
    SomebodyListed(ToRun(x.plan, Create, false));
    MigrateList(res, d, arts, pending);
    SomebodyListed(ToRun(x.plan, Update, true));
    PlanNeedsNoPayload(res, d, arts, pending, map[]);
    NothingToPay(Paid(Start(w), true), x.demoted, env);
    DeleteList(res, d, arts, pending, map[]);
    OneListed(ToRun(x.demoted, Delete, false), g);
    OneDelete(Start(w), g, d, env);
  }

  lemma DeletesForward(res: Resources, d: Desired, arts: Artifacts)
    requires Configured(NoGraphs(), d) && Forward(res) && d.configDigest == Raw("none") && arts == Approved(res[Graph("g")].digest)
    ensures NoPayloads(res, d) && (forall h :: Graph(h) !in d.digests) && forall h :: Deleting(res, d, arts, {}, h) <==> h == "g"
  {
    DeclaresNone(d);
    DeleteIsApproved(res, d);
  }

  /** The steps of a delete in which nothing fails. */
  lemma DeleteSteps(r: Run, g: GraphId, d: Desired, env: Env)
    requires !r.aborted && env.exportFree(g) && env.putSidecar(g) == Done && env.remove(g) == RemoveOk
    ensures var s := Sidecar(GraphDelete, g, Raw(""), Consumable(env.artifacts, g, d.configDigest), env.actor);
            var w := r.world.(sidecars := r.world.sidecars[env.op(g) := s], live := r.world.live[g := Absent]);
            Entry(RemoveCalled(g, true), w) in DeleteOne(r, g, d, env).log
  {
  }

  lemma DesertionWorld(w: World, d: Desired, env: Env, digest: Digest)
    requires d.configDigest == Raw("none") && env == Env0([MovedProbe()], Approved(digest), "", "d")
    ensures exists e :: e in DeleteOne(Start(Migrated(w)), "g", d, env).log && e.world == Deserted(w)
  {
    DeleteSteps(Start(Migrated(w)), "g", d, env);
    assert Consumable(Approved(digest), "g", Raw("none")) == Some("a");
    assert "d" + "g" == "dg";
    assert map["g" := Open(V1)]["g" := Absent] == map["g" := Absent];
    assert map["g" := SchemaIntent]["dg" := DeleteIntent] == map["g" := SchemaIntent, "dg" := DeleteIntent];
    assert Entry(RemoveCalled("g", true), Deserted(w)) in DeleteOne(Start(Migrated(w)), "g", d, env).log;
  }

  lemma DesertionAdmissible(w: World, d: Desired, env: Env, digest: Digest)
    requires Declared(d) && env == Env0([MovedProbe()], Approved(digest), "", "d")
    ensures Admissible(Migrated(w), d, env)
  {
    var w1 := Migrated(w);
    forall h: GraphId ensures "d" + h !in w1.sidecars { assert ("d" + h)[0] == 'd'; }
    OpsAreFresh(env, "d", w1);
    assert RootOf(w1.live, "g") == Open(V1);
  }

  lemma DesertionCommand(w: World, res: Resources) returns (cmd: Command)
    requires Begun(w, res)
    ensures CommandAdmissible(Migrated(w), cmd) && Leaves(Migrated(w), cmd, Deserted(w))
  {
    var d := EmptyConfig();
    var swept := RecordLive(res, "g", V1);
    RollsForward(res);
    var env := Env0([MovedProbe()], Approved(swept[Graph("g")].digest), "", "d");
    DesertionAdmissible(w, d, env, swept[Graph("g")].digest);
    SweptForward(LedgerOf(res), env.probes);
    DeletesForward(swept, d, env.artifacts);
    DesertionWorld(w, d, env, swept[Graph("g")].digest);
    var e :| e in DeleteOne(Start(Migrated(w)), "g", d, env).log && e.world == Deserted(w);
    OnlyDeletesSwept(Migrated(w), LedgerOf(res), d, env, "g");
    PhasesAreLeft(Migrated(w), LedgerOf(res), d, env, e);
    cmd := ApplyWith(d, env);
  }

  lemma TwoCommands(worlds: seq<World>, commands: seq<Command>)
    requires |worlds| == 3 && |commands| == 2
    requires CommandAdmissible(worlds[0], commands[0]) && Leaves(worlds[0], commands[0], worlds[1])
    requires CommandAdmissible(worlds[1], commands[1]) && Leaves(worlds[1], commands[1], worlds[2])
    ensures History(worlds, commands)
  {
  }

  /**
   Two admissible applies from a world in step, each crashed behind its engine call: a schema apply, then the approved delete
   of the same graph. Its schema intent stands over an absent root, and no sweep will ever finish with the graph.
   */
  lemma SchemaIntentIsStuck() returns (worlds: seq<World>, commands: seq<Command>)
    ensures |worlds| == 3 && History(worlds, commands) && Genesis(worlds[0])
    ensures worlds[1].ledger.Some? && Mendable(worlds[1].ledger.value, worlds[1], "g")
    ensures worlds[2].ledger.Some? && !Mendable(worlds[2].ledger.value, worlds[2], "g")
  {
    var w, res := RecordedWorld();
    var c0 := MigrationCommand(w, res);
    var c1 := DesertionCommand(w, res);
    worlds, commands := [w, Migrated(w), Deserted(w)], [c0, c1];
    TwoCommands(worlds, commands);
    MigratedMends(w, LedgerOf(res));
    DesertedSticks(w, LedgerOf(res));
  }

  lemma MigratedMends(w: World, l: Ledger)
    ensures Mendable(l, Migrated(w), "g")
  {
    assert "g" in Migrated(w).sidecars && Migrated(w).sidecars["g"] == SchemaIntent && RootOf(Migrated(w).live, "g") == Open(V1);
  }

  lemma DesertedSticks(w: World, l: Ledger)
    ensures !Mendable(l, Deserted(w), "g")
  {
    assert "g" in Deserted(w).sidecars && Deserted(w).sidecars["g"] == SchemaIntent && RootOf(Deserted(w).live, "g") == Absent;
  }
}
