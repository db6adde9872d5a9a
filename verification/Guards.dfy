/** What has been checked and written before every engine call of an apply run. */
module Guards {
  import opened Addresses
  import opened Digests
  import opened Ledgers
  import opened Sweep
  import opened Plan
  import opened Classify
  import opened Apply
  import opened ApplyReport
  import opened ApplyStops

  /** The schema source, read again under the lock, has the digest the plan was made for. */
  predicate AsPlanned(source: Option<string>, digest: Digest) {
    source.Some? && ContentDigest(source.value) == digest
  }

  /** The entry before `i` wrote sidecar `op` as `s`, and it is still there after `i`. */
  ghost predicate FencedBy(log: seq<Entry>, i: nat, op: OpId, s: Sidecar)
    requires i < |log|
  {
    && i > 0 && log[i - 1].event == WroteSidecar(op)
    && op in log[i - 1].world.sidecars && log[i - 1].world.sidecars[op] == s
    && op in log[i].world.sidecars && log[i].world.sidecars[op] == s
  }

  /** Entry `i`, if it is an engine call, was made over checked inputs and directly behind the sidecar that says what it does. */
  ghost predicate GuardedAt(log: seq<Entry>, i: nat, d: Desired, env: Env)
    requires i < |log|
  {
    match log[i].event
    case InitCalled(g, ok) =>
      var dg := FindGraph(d.graphs, g);
      && dg.Some? && AsPlanned(env.source(Schema(g)), dg.value.schemaDigest) && ok == env.init(g).InitOk?
      && FencedBy(log, i, env.op(g), Sidecar(GraphCreate, g, dg.value.schemaDigest, None, env.actor))
      && RootOf(log[i].world.live, g) == RootAfterInit(RootOf(log[i - 1].world.live, g), env.init(g), dg.value.schemaDigest)
    case SchemaApplyCalled(g, ok) =>
      var dg := FindGraph(d.graphs, g);
      && dg.Some? && AsPlanned(env.source(Schema(g)), dg.value.schemaDigest) && env.ready(g) && ok == env.migrate(g).MigrateOk?
      && FencedBy(log, i, env.op(g), Sidecar(SchemaApply, g, dg.value.schemaDigest, None, env.actor))
      && RootOf(log[i - 1].world.live, g).Open?
      && RootOf(log[i].world.live, g) == RootAfterMigrate(RootOf(log[i - 1].world.live, g), env.migrate(g), dg.value.schemaDigest)
    case RemoveCalled(g, ok) =>
      && env.exportFree(g) && ok == env.remove(g).RemoveOk?
      && FencedBy(log, i, env.op(g), Sidecar(GraphDelete, g, Raw(""), Consumable(env.artifacts, g, d.configDigest), env.actor))
      && RootOf(log[i].world.live, g) == (if ok || env.remove(g).gone then Absent else RootOf(log[i - 1].world.live, g))
    case _ => true
  }

  ghost predicate Guarded(log: seq<Entry>, d: Desired, env: Env) {
    forall i :: 0 <= i < |log| ==> GuardedAt(log, i, d, env)
  }

  lemma GuardedPrefix(log: seq<Entry>, e: Entry, i: nat, d: Desired, env: Env)
    requires i < |log| && GuardedAt(log, i, d, env)
    ensures GuardedAt(log + [e], i, d, env)
  {
    var log' := log + [e];
    assert log'[i] == log[i] && (i > 0 ==> log'[i - 1] == log[i - 1]);
  }

  lemma StepGuarded(r: Run, e: Event, w: World, d: Desired, env: Env)
    requires Guarded(r.log, d, env) && GuardedAt(Step(r, e, w).log, |r.log|, d, env)
    ensures Guarded(Step(r, e, w).log, d, env)
  {
    forall i | 0 <= i < |r.log| + 1 ensures GuardedAt(Step(r, e, w).log, i, d, env) {
      if i < |r.log| { GuardedPrefix(r.log, Entry(e, w), i, d, env); }
    }
  }

  lemma QuietGuarded(r: Run, e: Event, w: World, d: Desired, env: Env)
    requires Guarded(r.log, d, env) && !MovesGraph(e)
    ensures Guarded(Step(r, e, w).log, d, env)
  {
    assert Step(r, e, w).log[|r.log|] == Entry(e, w);
    StepGuarded(r, e, w, d, env);
  }

  /** `r` ends with the write of sidecar `s` for `g`. */
  ghost predicate JustWrote(r: Run, op: OpId, s: Sidecar) {
    && r.log != [] && r.log[|r.log| - 1] == Entry(WroteSidecar(op), r.world)
    && op in r.world.sidecars && r.world.sidecars[op] == s
  }

  lemma CallFenced(r: Run, e: Event, g: GraphId, root: Root, op: OpId, s: Sidecar)
    requires JustWrote(r, op, s)
    ensures var r' := MoveRoot(r, e, g, root);
            && FencedBy(r'.log, |r.log|, op, s) && r'.log[|r.log|].event == e && r'.log[|r.log| - 1] == r.log[|r.log| - 1]
            && RootOf(r'.log[|r.log|].world.live, g) == root && RootOf(r'.log[|r.log| - 1].world.live, g) == RootOf(r.world.live, g)
  {
    var r' := MoveRoot(r, e, g, root);
    assert r'.log[|r.log| - 1] == r.log[|r.log| - 1];
  }

  lemma DropGuarded(r: Run, op: OpId, dropped: bool, d: Desired, env: Env)
    requires Guarded(r.log, d, env)
    ensures Guarded(DropSidecar(r, op, dropped).log, d, env)
  {
    if dropped { QuietGuarded(r, DroppedSidecar(op), DropSidecar(r, op, true).world, d, env); }
  }

  lemma CreateGuarded(r: Run, g: GraphId, d: Desired, env: Env)
    requires Guarded(r.log, d, env)
    ensures Guarded(CreateOne(r, g, d, env).log, d, env)
  {
    var dg := FindGraph(d.graphs, g);
    if !r.aborted && dg.Some? && env.putSidecar(g) != Lost {
      var r1 := PutSidecar(r, env.op(g), Sidecar(GraphCreate, g, dg.value.schemaDigest, None, env.actor));
      QuietGuarded(r, WroteSidecar(env.op(g)), r1.world, d, env);
      if env.putSidecar(g) == Done { FencedCreateGuarded(r1, g, dg.value, d, env); }
    }
  }

  lemma FencedCreateGuarded(r: Run, g: GraphId, dg: DesiredGraph, d: Desired, env: Env)
    requires Guarded(r.log, d, env) && FindGraph(d.graphs, g) == Some(dg)
    requires JustWrote(r, env.op(g), Sidecar(GraphCreate, g, dg.schemaDigest, None, env.actor))
    ensures Guarded(FencedCreate(r, g, dg, env).log, d, env)
  {
    if SourceIntact(env, dg) {
      var e, root := InitCalled(g, env.init(g).InitOk?), RootAfterInit(RootOf(r.world.live, g), env.init(g), dg.schemaDigest);
      CallFenced(r, e, g, root, env.op(g), Sidecar(GraphCreate, g, dg.schemaDigest, None, env.actor));
      StepGuarded(r, e, MoveRoot(r, e, g, root).world, d, env);
    } else {
      DropGuarded(r, env.op(g), env.drop(env.op(g)), d, env);
    }
  }

  lemma MigrateGuarded(r: Run, g: GraphId, res: Resources, d: Desired, env: Env)
    requires Guarded(r.log, d, env)
    ensures Guarded(MigrateOne(r, g, res, d, env).log, d, env)
  {
    var dg := FindGraph(d.graphs, g);
    if !r.aborted && dg.Some? && RootOf(r.world.live, g).Open? && env.ready(g) && SourceIntact(env, dg.value) && env.putSidecar(g) != Lost {
      var r1 := PutSidecar(r, env.op(g), Sidecar(SchemaApply, g, dg.value.schemaDigest, None, env.actor));
      QuietGuarded(r, WroteSidecar(env.op(g)), r1.world, d, env);
      if env.putSidecar(g) == Done { FencedMigrateGuarded(r1, g, dg.value, res, d, env); }
    }
  }

  lemma FencedMigrateGuarded(r: Run, g: GraphId, dg: DesiredGraph, res: Resources, d: Desired, env: Env)
    requires Guarded(r.log, d, env) && FindGraph(d.graphs, g) == Some(dg) && SourceIntact(env, dg) && env.ready(g) && RootOf(r.world.live, g).Open?
    requires JustWrote(r, env.op(g), Sidecar(SchemaApply, g, dg.schemaDigest, None, env.actor))
    ensures Guarded(FencedMigrate(r, g, dg, res, env).log, d, env)
  {
    var e, root := SchemaApplyCalled(g, env.migrate(g).MigrateOk?), RootAfterMigrate(RootOf(r.world.live, g), env.migrate(g), dg.schemaDigest);
    CallFenced(r, e, g, root, env.op(g), Sidecar(SchemaApply, g, dg.schemaDigest, None, env.actor));
    var r' := MoveRoot(r, e, g, root);
    StepGuarded(r, e, r'.world, d, env);
    DropGuarded(r', env.op(g), NothingMoved(env, g, res, root) && env.drop(env.op(g)), d, env);
  }

  lemma DeleteGuarded(r: Run, g: GraphId, d: Desired, env: Env)
    requires Guarded(r.log, d, env)
    ensures Guarded(DeleteOne(r, g, d, env).log, d, env)
  {
    var approval := Consumable(env.artifacts, g, d.configDigest);
    var s := Sidecar(GraphDelete, g, Raw(""), approval, env.actor);
    if !r.aborted && env.exportFree(g) && env.putSidecar(g) != Lost {
      var r1 := PutSidecar(r, env.op(g), s);
      QuietGuarded(r, WroteSidecar(env.op(g)), r1.world, d, env);
      if env.putSidecar(g) == Done { FencedDeleteGuarded(r1, g, d, env); }
    }
  }

  lemma FencedDeleteGuarded(r: Run, g: GraphId, d: Desired, env: Env)
    requires Guarded(r.log, d, env) && env.exportFree(g)
    requires JustWrote(r, env.op(g), Sidecar(GraphDelete, g, Raw(""), Consumable(env.artifacts, g, d.configDigest), env.actor))
    ensures Guarded(FencedDelete(r, g, Consumable(env.artifacts, g, d.configDigest), env).log, d, env)
  {
    var approval := Consumable(env.artifacts, g, d.configDigest);
    var gone := env.remove(g).RemoveOk? || env.remove(g).gone;
    var e, root := RemoveCalled(g, env.remove(g).RemoveOk?), if gone then Absent else RootOf(r.world.live, g);
    CallFenced(r, e, g, root, env.op(g), Sidecar(GraphDelete, g, Raw(""), approval, env.actor));
    StepGuarded(r, e, MoveRoot(r, e, g, root).world, d, env);
  }

  // ---- the phases ----

  lemma {:induction false} CreatesGuarded(r: Run, ids: seq<GraphId>, d: Desired, env: Env)
    requires Guarded(r.log, d, env)
    ensures Guarded(RunCreates(r, ids, d, env).log, d, env)
    decreases |ids|
  {
    if ids != [] {
      CreateGuarded(r, ids[0], d, env);
      CreatesGuarded(CreateOne(r, ids[0], d, env), ids[1..], d, env);
    }
  }

  lemma {:induction false} MigrationsGuarded(r: Run, ids: seq<GraphId>, res: Resources, d: Desired, env: Env)
    requires Guarded(r.log, d, env)
    ensures Guarded(RunMigrations(r, ids, res, d, env).log, d, env)
    decreases |ids|
  {
    if ids != [] {
      MigrateGuarded(r, ids[0], res, d, env);
      MigrationsGuarded(MigrateOne(r, ids[0], res, d, env), ids[1..], res, d, env);
    }
  }

  lemma {:induction false} DeletesGuarded(r: Run, ids: seq<GraphId>, d: Desired, env: Env)
    requires Guarded(r.log, d, env)
    ensures Guarded(RunDeletes(r, ids, d, env).log, d, env)
    decreases |ids|
  {
    if ids != [] {
      DeleteGuarded(r, ids[0], d, env);
      DeletesGuarded(DeleteOne(r, ids[0], d, env), ids[1..], d, env);
    }
  }

  lemma {:induction false} PaymentsGuarded(p: Paid, cs: seq<Change>, d: Desired, env: Env)
    requires Guarded(p.run.log, d, env)
    ensures Guarded(PayAll(p, cs, env).run.log, d, env)
    decreases |cs|
  {
    if cs != [] {
      var p1 := PayOne(p, cs[0], env);
      if p1.run != p.run { QuietGuarded(p.run, WroteBlob((cs[0].resource, OrEmpty(cs[0].after))), p1.run.world, d, env); }
      PaymentsGuarded(p1, cs[1..], d, env);
    }
  }

  lemma {:induction false} DropsGuarded(r: Run, ops: seq<OpId>, drop: OpId -> bool, d: Desired, env: Env)
    requires Guarded(r.log, d, env)
    ensures Guarded(DropAll(r, ops, drop).log, d, env)
    decreases |ops|
  {
    if ops != [] {
      DropGuarded(r, ops[0], drop(ops[0]), d, env);
      DropsGuarded(DropSidecar(r, ops[0], drop(ops[0])), ops[1..], drop, d, env);
    }
  }

  lemma {:induction false} MarksGuarded(r: Run, ids: seq<ApprovalId>, mark: ApprovalId -> bool, d: Desired, env: Env)
    requires Guarded(r.log, d, env)
    ensures Guarded(MarkAll(r, ids, mark).log, d, env)
    decreases |ids|
  {
    if ids != [] {
      var r1 := MarkOne(r, ids[0], mark(ids[0]));
      if r1 != r { QuietGuarded(r, MarkedApproval(ids[0]), r1.world, d, env); }
      MarksGuarded(r1, ids[1..], mark, d, env);
    }
  }

  lemma ExecutionGuarded(x: Execution, w: World, res: Resources, d: Desired, env: Env)
    requires x.created == RunCreates(Start(w), ToRun(x.plan, Create, false), d, env)
    requires x.migrated == RunMigrations(x.created, ToRun(x.plan, Update, true), res, d, env)
    requires x.paid == PayAll(Paid(x.migrated, true), x.demoted, env)
    requires x.deleted == RunDeletes(x.paid.run, ToRun(x.demoted, Delete, false), d, env)
    ensures Guarded(x.paid.run.log, d, env) && Guarded(x.deleted.log, d, env)
  {
    CreatesGuarded(Start(w), ToRun(x.plan, Create, false), d, env);
    MigrationsGuarded(x.created, ToRun(x.plan, Update, true), res, d, env);
    PaymentsGuarded(Paid(x.migrated, true), x.demoted, d, env);
    DeletesGuarded(x.paid.run, ToRun(x.demoted, Delete, false), d, env);
  }

  lemma CommitGuarded(l0: Ledger, x: Execution, d: Desired, env: Env)
    requires Guarded(x.deleted.log, d, env)
    ensures Guarded(Commit(l0, x, d, env).run.log, d, env)
  {
    var w := x.deleted.world.(ledger := Some(Committed(x.ledger)));
    var r1 := if x.ledger != l0 && env.putState != Lost then Step(x.deleted, WroteState, w) else x.deleted;
    QuietGuarded(x.deleted, WroteState, w, d, env);
    var ops, ids := x.swept.outcome.completed + x.deleted.completed, x.swept.outcome.consumed + ConsumedIds(x.deleted.removed);
    DropsGuarded(r1, ops, env.drop, d, env);
    MarksGuarded(DropAll(r1, ops, env.drop), Listed(env.files, ids), env.mark, d, env);
  }

  lemma ConcludeGuarded(w: World, l0: Ledger, x: Execution, d: Desired, env: Env)
    requires Guarded(x.paid.run.log, d, env) && Guarded(x.deleted.log, d, env)
    ensures Guarded(Conclude(w, l0, x, d, env).run.log, d, env)
  {
    CommitGuarded(l0, x, d, env);
  }

  /**
   In every apply run, whatever its world and outcomes: each init is made over a source re-read at the planned digest, each
   schema apply also over an open and ready graph, each removal only while no export runs; directly before each call its
   own sidecar was written, naming kind, graph, desired digest, approval and actor; and the root moves as the call reports.
   */
  lemma EngineCallsAreGuarded(w: World, d: Desired, env: Env)
    ensures Guarded(ApplyCommand(w, d, env).run.log, d, env)
  {
    if w.ledger.Some? {
      var l0 := w.ledger.value;
      var x := Execute(w, l0, d, env);
      ExecutionGuarded(x, w, x.swept.ledger.resources, d, env);
      ConcludeGuarded(w, l0, x, d, env);
    }
  }
}
