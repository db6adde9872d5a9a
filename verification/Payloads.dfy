/** The catalog behind the ledger: every recorded query and policy has its blob, with the content its digest names. */
module Payloads {
  import opened Addresses
  import opened Digests
  import opened Ledgers
  import opened Sweep
  import opened Coverage
  import opened Plan
  import opened Classify
  import opened Apply
  import opened ApplySafety
  import opened ApplyLedger
  import opened ApplyOutcome
  import opened ApplyReport
  import opened CrashSafety
  import opened ApplyIsSafe
  import opened ApplyTheorems
  import opened ApplyStops
  import opened Refresh
  import opened Protocol

  ghost predicate HonestBlobs(blobs: map<BlobKey, string>) {
    forall k :: k in blobs ==> ContentDigest(blobs[k]) == k.1
  }

  ghost predicate Stocked(res: Resources, blobs: map<BlobKey, string>) {
    forall a :: a in res && HasPayload(a) ==> (a, res[a].digest) in blobs
  }

  /** What a snapshot, and the next verification, will find. */
  ghost predicate Catalogued(w: World) {
    HonestBlobs(w.blobs) && Stocked(ResourcesOf(w), w.blobs)
  }

  /** The payload entries of `res'` were all in `res`, unchanged. */
  ghost predicate NoNewPayloads(res: Resources, res': Resources) {
    forall a :: a in res' && HasPayload(a) ==> a in res && res'[a] == res[a]
  }

  lemma StockedFrame(res: Resources, blobs: map<BlobKey, string>, res': Resources, blobs': map<BlobKey, string>)
    requires Stocked(res, blobs) && NoNewPayloads(res, res') && Extends(blobs, blobs')
    ensures Stocked(res', blobs')
  {
  }

  // ---- the sweep and the sync record no payloads ----

  lemma {:induction false} SweepAddsNoPayloads(st: Swept, ps: seq<Probe>)
    ensures NoNewPayloads(st.ledger.resources, SweepAll(st, ps).ledger.resources)
    decreases |ps|
  {
    if ps != [] {
      SweepOneAddsNoPayloads(st, ps[0]);
      SweepAddsNoPayloads(SweepOne(st, ps[0]), ps[1..]);
    }
  }

  lemma SweepOneAddsNoPayloads(st: Swept, p: Probe)
    ensures NoNewPayloads(st.ledger.resources, SweepOne(st, p).ledger.resources)
  {
    var res, g := st.ledger.resources, p.sidecar.graph;
    SweepOneSummary(st, p);
    match EffectOf(res, p)
    case Nothing =>
    case Records(d) => RecordLiveFacts(res, g, d);
    case Removes => PrunedFacts(res, g);
  }

  lemma {:induction false} ObserveAddsNoPayloads(l: Ledger, graphs: seq<DesiredGraph>, seen: GraphId -> Root)
    ensures NoNewPayloads(l.resources, ObserveAll(l, graphs, seen).resources)
    decreases |graphs|
  {
    if graphs != [] {
      ObserveOneAt(l, graphs[0], seen(graphs[0].id));
      ObserveAddsNoPayloads(ObserveOne(l, graphs[0], seen(graphs[0].id)), graphs[1..], seen);
    }
  }

  lemma SyncAddsNoPayloads(l0: Ledger, w: World, d: Desired, e: SyncEnv)
    ensures NoNewPayloads(l0.resources, SyncLedger(l0, w, d, e).resources)
  {
    var l1 := SweepLedger(l0, e.probes).ledger;
    SweepAddsNoPayloads(Swept(l0, NoOutcome), e.probes);
    forall a | a in Verified(l1, w, e).resources && HasPayload(a) ensures a in l1.resources && Verified(l1, w, e).resources[a] == l1.resources[a] {
      VerifiedAt(l1, w, e, a);
    }
    ObserveAddsNoPayloads(Verified(l1, w, e), d.graphs, e.seen);
  }

  // ---- runs ----

  ghost predicate LogCatalogued(log: seq<Entry>) {
    forall e :: e in log ==> Catalogued(e.world)
  }

  /** Every world since `r` has its ledger and catalog. */
  ghost predicate SameStock(r: Run, r': Run) {
    && r'.world.blobs == r.world.blobs && r'.world.ledger == r.world.ledger
    && (forall e :: e in r'.log ==> e in r.log || (e.world.blobs == r.world.blobs && e.world.ledger == r.world.ledger))
  }

  lemma SameStockCatalogued(r: Run, r': Run)
    requires SameStock(r, r') && LogCatalogued(r.log) && Catalogued(r.world)
    ensures LogCatalogued(r'.log) && Catalogued(r'.world)
  {
  }

  lemma SameStockTrans(r: Run, r1: Run, r2: Run)
    requires SameStock(r, r1) && SameStock(r1, r2)
    ensures SameStock(r, r2)
  {
  }

  lemma CreateStock(r: Run, g: GraphId, d: Desired, env: Env)
    ensures SameStock(r, CreateOne(r, g, d, env))
  {
    var dg := FindGraph(d.graphs, g);
    if !r.aborted && dg.Some? && env.putSidecar(g) == Done {
      var r1 := PutSidecar(r, env.op(g), Sidecar(GraphCreate, g, dg.value.schemaDigest, None, env.actor));
      assert SameStock(r1, FencedCreate(r1, g, dg.value, env));
      SameStockTrans(r, r1, FencedCreate(r1, g, dg.value, env));
    }
  }

  lemma MigrateStock(r: Run, g: GraphId, res: Resources, d: Desired, env: Env)
    ensures SameStock(r, MigrateOne(r, g, res, d, env))
  {
    var dg := FindGraph(d.graphs, g);
    if !r.aborted && dg.Some? && RootOf(r.world.live, g).Open? && env.ready(g) && SourceIntact(env, dg.value) && env.putSidecar(g) == Done {
      var r1 := PutSidecar(r, env.op(g), Sidecar(SchemaApply, g, dg.value.schemaDigest, None, env.actor));
      FencedMigrateStock(r1, g, dg.value, res, env);
      SameStockTrans(r, r1, FencedMigrate(r1, g, dg.value, res, env));
    }
  }

  lemma FencedMigrateStock(r: Run, g: GraphId, dg: DesiredGraph, res: Resources, env: Env)
    ensures SameStock(r, FencedMigrate(r, g, dg, res, env))
  {
    var root := RootAfterMigrate(RootOf(r.world.live, g), env.migrate(g), dg.schemaDigest);
    var r1 := MoveRoot(r, SchemaApplyCalled(g, env.migrate(g).MigrateOk?), g, root);
    assert SameStock(r, r1);
    SameStockTrans(r, r1, DropSidecar(r1, env.op(g), NothingMoved(env, g, res, root) && env.drop(env.op(g))));
  }

  lemma DeleteStock(r: Run, g: GraphId, d: Desired, env: Env)
    ensures SameStock(r, DeleteOne(r, g, d, env))
  {
    var approval := Consumable(env.artifacts, g, d.configDigest);
    if !r.aborted && env.exportFree(g) && env.putSidecar(g) == Done {
      var r1 := PutSidecar(r, env.op(g), Sidecar(GraphDelete, g, Raw(""), approval, env.actor));
      assert SameStock(r1, FencedDelete(r1, g, approval, env));
      SameStockTrans(r, r1, FencedDelete(r1, g, approval, env));
    }
  }

  lemma {:induction false} CreatesStock(r: Run, ids: seq<GraphId>, d: Desired, env: Env)
    ensures SameStock(r, RunCreates(r, ids, d, env))
    decreases |ids|
  {
    if ids != [] {
      CreateStock(r, ids[0], d, env);
      CreatesStock(CreateOne(r, ids[0], d, env), ids[1..], d, env);
      SameStockTrans(r, CreateOne(r, ids[0], d, env), RunCreates(r, ids, d, env));
    }
  }

  lemma {:induction false} MigrationsStock(r: Run, ids: seq<GraphId>, res: Resources, d: Desired, env: Env)
    ensures SameStock(r, RunMigrations(r, ids, res, d, env))
    decreases |ids|
  {
    if ids != [] {
      MigrateStock(r, ids[0], res, d, env);
      MigrationsStock(MigrateOne(r, ids[0], res, d, env), ids[1..], res, d, env);
      SameStockTrans(r, MigrateOne(r, ids[0], res, d, env), RunMigrations(r, ids, res, d, env));
    }
  }

  lemma {:induction false} DeletesStock(r: Run, ids: seq<GraphId>, d: Desired, env: Env)
    ensures SameStock(r, RunDeletes(r, ids, d, env))
    decreases |ids|
  {
    if ids != [] {
      DeleteStock(r, ids[0], d, env);
      DeletesStock(DeleteOne(r, ids[0], d, env), ids[1..], d, env);
      SameStockTrans(r, DeleteOne(r, ids[0], d, env), RunDeletes(r, ids, d, env));
    }
  }

  lemma {:induction false} PaymentsCatalogued(p: Paid, cs: seq<Change>, env: Env)
    requires LogCatalogued(p.run.log) && Catalogued(p.run.world)
    ensures var p' := PayAll(p, cs, env); LogCatalogued(p'.run.log) && Catalogued(p'.run.world) && p'.run.world.ledger == p.run.world.ledger
    decreases |cs|
  {
    if cs != [] {
      PaymentCatalogued(p, cs[0], env);
      PaymentsCatalogued(PayOne(p, cs[0], env), cs[1..], env);
    }
  }

  lemma PaymentCatalogued(p: Paid, c: Change, env: Env)
    requires LogCatalogued(p.run.log) && Catalogued(p.run.world)
    ensures var p' := PayOne(p, c, env); LogCatalogued(p'.run.log) && Catalogued(p'.run.world) && p'.run.world.ledger == p.run.world.ledger
  {
    PayOneKeeps(p, c, env);
    var w, w' := p.run.world, PayOne(p, c, env).run.world;
    assert ResourcesOf(w') == ResourcesOf(w);
    StockedFrame(ResourcesOf(w), w.blobs, ResourcesOf(w'), w'.blobs);
  }

  // ---- the new ledger ----

  /** A payload entry of the new ledger was there before, or its payload was paid for in this run. */
  lemma NewEntriesArePaid(l: Ledger, demoted: seq<Change>, failed: map<GraphId, Origin>, removed: seq<(GraphId, Option<ApprovalId>)>,
                          d: Desired, actor: Option<string>, blobs: map<BlobKey, string>)
    requires var final := Demoted(demoted, failed, d.dependencies); Declared(d) && UniqueResources(final) && Faithful(final, d)
    requires PaidFor(demoted, blobs) && Stocked(l.resources, blobs)
    ensures Stocked(NewLedger(l, Demoted(demoted, failed, d.dependencies), removed, d, actor).resources, blobs)
  {
    var final := Demoted(demoted, failed, d.dependencies);
    var res' := NewLedger(l, final, removed, d, actor).resources;
    forall a | a in res' && HasPayload(a) ensures (a, res'[a].digest) in blobs {
      EntryOf(l, final, removed, d, actor, a);
      if AppliedAt(final, a, Create) || AppliedAt(final, a, Update) { TouchedIsPaid(demoted, failed, d, a, blobs); }
    }
  }

  lemma TouchedIsPaid(demoted: seq<Change>, failed: map<GraphId, Origin>, d: Desired, a: Address, blobs: map<BlobKey, string>)
    requires var final := Demoted(demoted, failed, d.dependencies);
             Faithful(final, d) && HasPayload(a) && (AppliedAt(final, a, Create) || AppliedAt(final, a, Update))
    requires PaidFor(demoted, blobs)
    ensures a in d.digests && (a, d.digests[a]) in blobs
  {
    var final := Demoted(demoted, failed, d.dependencies);
    var i :| 0 <= i < |final| && final[i].resource == a && final[i].disposition == Some(Applied) && final[i].operation in {Create, Update};
    assert final[i] == demoted[i] && demoted[i] in demoted && NeedsPayload(demoted[i]);
  }

  lemma RunCatalogued(w: World, l0: Ledger, d: Desired, env: Env)
    requires Runs(w, l0, d, env) && Catalogued(w)
    ensures var x := Execute(w, l0, d, env); LogCatalogued(x.paid.run.log) && Catalogued(x.paid.run.world)
  {
    var x := Execute(w, l0, d, env);
    CreatesStock(Start(w), ToRun(x.plan, Create, false), d, env);
    MigrationsStock(x.created, ToRun(x.plan, Update, true), x.swept.ledger.resources, d, env);
    SameStockTrans(Start(w), x.created, x.migrated);
    SameStockCatalogued(Start(w), x.migrated);
    PaymentsCatalogued(Paid(x.migrated, true), x.demoted, env);
  }

  lemma DeletedCatalogued(w: World, l0: Ledger, d: Desired, env: Env)
    requires Runs(w, l0, d, env) && Catalogued(w) && Execute(w, l0, d, env).paid.ok
    ensures var x := Execute(w, l0, d, env);
            LogCatalogued(x.deleted.log) && Catalogued(x.deleted.world) && Stocked(x.ledger.resources, x.deleted.world.blobs)
  {
    var x := Execute(w, l0, d, env);
    RunCatalogued(w, l0, d, env);
    DeletesStock(x.paid.run, ToRun(x.demoted, Delete, false), d, env);
    SameStockCatalogued(x.paid.run, x.deleted);
    DeletedPaid(w, l0, d, env);
    RunConcludes(w, l0, d, env);
    SweepAddsNoPayloads(Swept(l0, NoOutcome), env.probes);
    KeptLedger(w, l0, d, env);
    StockedFrame(l0.resources, x.deleted.world.blobs, x.swept.ledger.resources, x.deleted.world.blobs);
    NewEntriesArePaid(x.swept.ledger, x.demoted, x.deleted.failed, x.deleted.removed, d, env.actor, x.deleted.world.blobs);
  }

  lemma KeptLedger(w: World, l0: Ledger, d: Desired, env: Env)
    requires Runs(w, l0, d, env)
    ensures Execute(w, l0, d, env).deleted.world.ledger == Some(l0)
  {
    ExecuteFacts(w, l0, d, env);
  }

  lemma CommitCatalogued(l0: Ledger, x: Execution, d: Desired, env: Env)
    requires LogCatalogued(x.deleted.log) && Catalogued(x.deleted.world) && Stocked(x.ledger.resources, x.deleted.world.blobs)
    ensures LogCatalogued(Commit(l0, x, d, env).run.log)
  {
    var w := x.deleted.world.(ledger := Some(Committed(x.ledger)));
    var r1 := if x.ledger != l0 && env.putState != Lost then Step(x.deleted, WroteState, w) else x.deleted;
    assert LogCatalogued(r1.log) && Catalogued(r1.world);
    var ops, ids := x.swept.outcome.completed + x.deleted.completed, x.swept.outcome.consumed + ConsumedIds(x.deleted.removed);
    RetirementStock(r1, ops, Listed(env.files, ids), env.drop, env.mark);
    SameStockCatalogued(r1, MarkAll(DropAll(r1, ops, env.drop), Listed(env.files, ids), env.mark));
  }

  lemma RetirementStock(r: Run, ops: seq<OpId>, ids: seq<ApprovalId>, drop: OpId -> bool, mark: ApprovalId -> bool)
    ensures SameStock(r, MarkAll(DropAll(r, ops, drop), ids, mark))
  {
    DropStock(r, ops, drop);
    MarkStock(DropAll(r, ops, drop), ids, mark);
    SameStockTrans(r, DropAll(r, ops, drop), MarkAll(DropAll(r, ops, drop), ids, mark));
  }

  lemma {:induction false} DropStock(r: Run, ops: seq<OpId>, drop: OpId -> bool)
    ensures SameStock(r, DropAll(r, ops, drop))
    decreases |ops|
  {
    if ops != [] {
      var r1 := DropSidecar(r, ops[0], drop(ops[0]));
      DropStock(r1, ops[1..], drop);
      SameStockTrans(r, r1, DropAll(r, ops, drop));
    }
  }

  lemma {:induction false} MarkStock(r: Run, ids: seq<ApprovalId>, mark: ApprovalId -> bool)
    ensures SameStock(r, MarkAll(r, ids, mark))
    decreases |ids|
  {
    if ids != [] {
      var r1 := MarkOne(r, ids[0], mark(ids[0]));
      MarkStock(r1, ids[1..], mark);
      SameStockTrans(r, r1, MarkAll(r, ids, mark));
    }
  }

  // ---- commands and histories ----

  lemma ApplyCatalogued(w: World, d: Desired, env: Env)
    requires Shaped(w) && Admissible(w, d, env) && Catalogued(w)
    ensures LogCatalogued(ApplyCommand(w, d, env).run.log)
  {
    if w.ledger.Some? && AllBound(w.ledger.value.resources) {
      var l0 := w.ledger.value;
      RunCatalogued(w, l0, d, env);
      if Execute(w, l0, d, env).paid.ok {
        DeletedCatalogued(w, l0, d, env);
        CommitCatalogued(l0, Execute(w, l0, d, env), d, env);
      }
      ConcludeCatalogued(w, l0, Execute(w, l0, d, env), d, env);
    }
  }

  lemma ConcludeCatalogued(w: World, l0: Ledger, x: Execution, d: Desired, env: Env)
    requires LogCatalogued(x.paid.run.log) && (x.paid.ok ==> LogCatalogued(Commit(l0, x, d, env).run.log))
    ensures LogCatalogued(Conclude(w, l0, x, d, env).run.log)
  {
  }

  lemma SyncCatalogued(w: World, op: SyncOperation, d: Desired, e: SyncEnv)
    requires Catalogued(w)
    ensures LogCatalogued(SyncCommand(w, op, d, e).log)
  {
    if SyncProceeds(w, op, d, e) {
      var l0 := SyncBase(w, op, d);
      assert ResourcesOf(w) == l0.resources;
      SyncAddsNoPayloads(l0, w, d, e);
      var l1 := SyncLedger(l0, w, d, e);
      StockedFrame(l0.resources, w.blobs, l1.resources, w.blobs);
      SyncWriteCatalogued(w, l1.(revision := if op == ImportState then 1 else NextRevision(l1.revision)), SweepLedger(l0, e.probes).outcome, e);
    }
  }

  lemma SyncWriteCatalogued(w: World, l: Ledger, outcome: SweepOutcome, e: SyncEnv)
    requires Catalogued(w.(ledger := Some(l)))
    ensures LogCatalogued(SyncWrite(w, l, outcome, e).log)
  {
    var r1 := Step(Start(w), WroteState, w.(ledger := Some(l)));
    RetirementStock(r1, outcome.completed, Listed(e.files, outcome.consumed), e.drop, e.mark);
    SameStockCatalogued(r1, MarkAll(DropAll(r1, outcome.completed, e.drop), Listed(e.files, outcome.consumed), e.mark));
  }

  lemma CommandCatalogued(w: World, cmd: Command, w': World)
    requires Shaped(w) && CommandAdmissible(w, cmd) && Leaves(w, cmd, w') && Catalogued(w)
    ensures Catalogued(w')
  {
    if w' != w {
      var i :| 0 <= i < |StepsOf(w, cmd)| && StepsOf(w, cmd)[i].world == w';
      assert StepsOf(w, cmd)[i] in StepsOf(w, cmd);
      StepsCatalogued(w, cmd);
    }
  }

  lemma StepsCatalogued(w: World, cmd: Command)
    requires Shaped(w) && CommandAdmissible(w, cmd) && Catalogued(w)
    ensures LogCatalogued(StepsOf(w, cmd))
  {
    match cmd
    case ApplyWith(d, env) => ApplyCatalogued(w, d, env);
    case SyncWith(op, d, e) => SyncCatalogued(w, op, d, e);
    case ApproveWith(id, approval) =>
  }

  lemma CatalogTurn(worlds: seq<World>, commands: seq<Command>, j: nat)
    requires History(worlds, commands) && Shaped(worlds[0]) && j < |commands| && Catalogued(worlds[j])
    ensures Catalogued(worlds[j + 1])
  {
    HistoryIsShaped(worlds, commands, j);
    HistoryStep(worlds, commands, j);
    CommandCatalogued(worlds[j], commands[j], worlds[j + 1]);
  }

  /** In every world of a history each recorded query and policy has its blob at its digest, with that very content. */
  lemma RecordedPayloadsExist(worlds: seq<World>, commands: seq<Command>, i: nat)
    requires History(worlds, commands) && Genesis(worlds[0]) && Catalogued(worlds[0]) && i < |worlds|
    ensures Catalogued(worlds[i])
  {
    var holds := (j: nat) => j < |worlds| && Catalogued(worlds[j]);
    forall j | 0 <= j < i && holds(j) ensures holds(j + 1) { CatalogTurn(worlds, commands, j); }
    Carried(holds, 0, i);
  }

  /** So a refresh in a history drops no query or policy: a blob is missing only if something else took it. */
  lemma RefreshDropsNothing(w: World, l: Ledger, e: SyncEnv, a: Address)
    requires HonestBlobs(w.blobs) && Stocked(l.resources, w.blobs)
    ensures FindingAt(l.resources, w.blobs, e.readFails, a) in {Intact, ReadError}
  {
  }
}
