/** The order of a run's steps, and that its report names exactly the engine actions that succeeded. */
module ApplyReport {
  import opened Addresses
  import opened Digests
  import opened Ledgers
  import opened Sweep
  import opened Plan
  import opened Classify
  import opened Apply

  // ---- events ----

  /** Creates, then schema applies, then payloads, then removals, then the state write. Zero: no fixed place. */
  function PhaseOf(e: Event): nat {
    match e
    case InitCalled(_, _) => 1
    case SchemaApplyCalled(_, _) => 2
    case WroteBlob(_) => 3
    case RemoveCalled(_, _) => 4
    case WroteState => 5
    case _ => 0
  }

  predicate MovesGraph(e: Event) {
    e.InitCalled? || e.SchemaApplyCalled? || e.RemoveCalled?
  }

  predicate FailedMove(e: Event) {
    MovesGraph(e) && !e.ok
  }

  predicate SucceededFor(e: Event, g: GraphId) {
    MovesGraph(e) && e.ok && e.graph == g
  }

  ghost predicate Ordered(log: seq<Entry>) {
    && (forall i, j :: 0 <= i < j < |log| && PhaseOf(log[i].event) > 0 && PhaseOf(log[j].event) > 0 ==> PhaseOf(log[i].event) <= PhaseOf(log[j].event))
    && (forall i, j :: 0 <= i < j < |log| && FailedMove(log[i].event) ==> !MovesGraph(log[j].event))
  }

  ghost predicate Succeeded(log: seq<Entry>, g: GraphId) {
    exists i :: 0 <= i < |log| && SucceededFor(log[i].event, g)
  }

  /** The log so far is ordered, reaches no later phase than `k`, and any failure has stopped graph movement. */
  ghost predicate OrderedTo(r: Run, k: nat) {
    && Ordered(r.log)
    && (forall i :: 0 <= i < |r.log| ==> PhaseOf(r.log[i].event) <= k)
    && (forall i :: 0 <= i < |r.log| && FailedMove(r.log[i].event) ==> r.aborted)
  }

  /** Completion and success agree. */
  ghost predicate Truthful(r: Run, env: Env) {
    forall g :: env.op(g) in r.completed <==> Succeeded(r.log, g)
  }

  ghost predicate Injective(env: Env) {
    forall g, h :: env.op(g) == env.op(h) ==> g == h
  }

  lemma StepOrdered(r: Run, e: Event, w: World, k: nat)
    requires OrderedTo(r, k) && PhaseOf(e) in {0, k} && (MovesGraph(e) ==> !r.aborted && !FailedMove(e))
    ensures OrderedTo(Step(r, e, w), k)
  {
    var r' := Step(r, e, w);
    assert forall i :: 0 <= i < |r.log| ==> r'.log[i] == r.log[i];
  }

  /** A step and the abort it causes. */
  lemma FailedStepOrdered(r: Run, e: Event, w: World, k: nat, g: GraphId, origin: Origin)
    requires OrderedTo(r, k) && PhaseOf(e) == k && !r.aborted
    ensures OrderedTo(Abort(Step(r, e, w), g, origin), k)
  {
    var r' := Step(r, e, w);
    assert forall i :: 0 <= i < |r.log| ==> r'.log[i] == r.log[i];
  }

  lemma SucceededStep(r: Run, e: Event, w: World, g: GraphId)
    ensures Succeeded(Step(r, e, w).log, g) <==> Succeeded(r.log, g) || SucceededFor(e, g)
  {
    var log, log' := r.log, Step(r, e, w).log;
    if Succeeded(log, g) {
      var i :| 0 <= i < |log| && SucceededFor(log[i].event, g);
      assert log'[i] == log[i];
    }
    if SucceededFor(e, g) { assert SucceededFor(log'[|log|].event, g); }
  }


  lemma QuietStepTruthful(r: Run, e: Event, w: World, env: Env)
    requires Truthful(r, env) && (forall g :: !SucceededFor(e, g))
    ensures Truthful(Step(r, e, w), env)
  {
    forall g ensures env.op(g) in Step(r, e, w).completed <==> Succeeded(Step(r, e, w).log, g) { SucceededStep(r, e, w, g); }
  }

  lemma CompletedStepTruthful(r: Run, e: Event, w: World, env: Env, g: GraphId)
    requires Truthful(r, env) && Injective(env) && SucceededFor(e, g)
    ensures Truthful(Complete(Step(r, e, w), env.op(g)), env)
  {
    var r' := Complete(Step(r, e, w), env.op(g));
    forall h ensures env.op(h) in r'.completed <==> Succeeded(r'.log, h) { SucceededStep(r, e, w, h); }
  }

  lemma CreateReported(r: Run, g: GraphId, d: Desired, env: Env)
    requires OrderedTo(r, 1) && Truthful(r, env) && Injective(env)
    ensures var r' := CreateOne(r, g, d, env); OrderedTo(r', 1) && Truthful(r', env)
  {
    var dg := FindGraph(d.graphs, g);
    if !r.aborted && dg.Some? && env.putSidecar(g) != Lost {
      var op := env.op(g);
      var r1 := PutSidecar(r, op, Sidecar(GraphCreate, g, dg.value.schemaDigest, None, env.actor));
      StepOrdered(r, WroteSidecar(op), r1.world, 1);
      QuietStepTruthful(r, WroteSidecar(op), r1.world, env);
      if env.putSidecar(g) == Done { FencedCreateReported(r1, g, dg.value, env); }
    }
  }

  lemma FencedCreateReported(r: Run, g: GraphId, dg: DesiredGraph, env: Env)
    requires OrderedTo(r, 1) && Truthful(r, env) && Injective(env) && !r.aborted
    ensures var r' := FencedCreate(r, g, dg, env); OrderedTo(r', 1) && Truthful(r', env)
  {
    var op := env.op(g);
    if !SourceIntact(env, dg) {
      if env.drop(op) {
        var r1 := DropSidecar(r, op, true);
        StepOrdered(r, DroppedSidecar(op), r1.world, 1);
        QuietStepTruthful(r, DroppedSidecar(op), r1.world, env);
      }
    } else {
      var e := InitCalled(g, env.init(g).InitOk?);
      var r1 := MoveRoot(r, e, g, RootAfterInit(RootOf(r.world.live, g), env.init(g), dg.schemaDigest));
      if env.init(g).InitOk? { StepOrdered(r, e, r1.world, 1); CompletedStepTruthful(r, e, r1.world, env, g); }
      else { FailedStepOrdered(r, e, r1.world, 1, g, CreateFailed); QuietStepTruthful(r, e, r1.world, env); }
    }
  }

  lemma MigrateReported(r: Run, g: GraphId, res: Resources, d: Desired, env: Env)
    requires OrderedTo(r, 2) && Truthful(r, env) && Injective(env)
    ensures var r' := MigrateOne(r, g, res, d, env); OrderedTo(r', 2) && Truthful(r', env)
  {
    var dg := FindGraph(d.graphs, g);
    if !r.aborted && dg.Some? && RootOf(r.world.live, g).Open? && env.ready(g) && SourceIntact(env, dg.value) && env.putSidecar(g) != Lost {
      var op := env.op(g);
      var s := Sidecar(SchemaApply, g, dg.value.schemaDigest, None, env.actor);
      var r1 := PutSidecar(r, op, s);
      StepOrdered(r, WroteSidecar(op), r1.world, 2);
      QuietStepTruthful(r, WroteSidecar(op), r1.world, env);
      if env.putSidecar(g) == Done { FencedMigrateReported(r1, g, dg.value, res, env); }
    }
  }

  lemma FencedMigrateReported(r: Run, g: GraphId, dg: DesiredGraph, res: Resources, env: Env)
    requires OrderedTo(r, 2) && Truthful(r, env) && Injective(env) && !r.aborted
    ensures var r' := FencedMigrate(r, g, dg, res, env); OrderedTo(r', 2) && Truthful(r', env)
  {
    var op := env.op(g);
    var root := RootAfterMigrate(RootOf(r.world.live, g), env.migrate(g), dg.schemaDigest);
    var e := SchemaApplyCalled(g, env.migrate(g).MigrateOk?);
    var r2 := MoveRoot(r, e, g, root);
    if env.migrate(g).MigrateOk? {
      StepOrdered(r, e, r2.world, 2);
      CompletedStepTruthful(r, e, r2.world, env, g);
    } else {
      FailedStepOrdered(r, e, r2.world, 2, g, SchemaFailed);
      QuietStepTruthful(r, e, r2.world, env);
      var r3 := Abort(r2, g, SchemaFailed);
      assert Truthful(r3, env);
      if NothingMoved(env, g, res, root) && env.drop(op) {
        var w := r3.world.(sidecars := r3.world.sidecars - {op});
        StepOrdered(r3, DroppedSidecar(op), w, 2);
        QuietStepTruthful(r3, DroppedSidecar(op), w, env);
        assert FencedMigrate(r, g, dg, res, env) == Step(r3, DroppedSidecar(op), w);
      }
    }
  }

  lemma DeleteReported(r: Run, g: GraphId, d: Desired, env: Env)
    requires OrderedTo(r, 4) && Truthful(r, env) && Injective(env)
    ensures var r' := DeleteOne(r, g, d, env); OrderedTo(r', 4) && Truthful(r', env)
  {
    if !r.aborted && env.exportFree(g) && env.putSidecar(g) != Lost {
      var op, approval := env.op(g), Consumable(env.artifacts, g, d.configDigest);
      var s := Sidecar(GraphDelete, g, Raw(""), approval, env.actor);
      var r1 := PutSidecar(r, op, s);
      StepOrdered(r, WroteSidecar(op), r1.world, 4);
      QuietStepTruthful(r, WroteSidecar(op), r1.world, env);
      if env.putSidecar(g) == Done {
        var gone := env.remove(g).RemoveOk? || env.remove(g).gone;
        var e := RemoveCalled(g, env.remove(g).RemoveOk?);
        var r2 := MoveRoot(r1, e, g, if gone then Absent else RootOf(r1.world.live, g));
        if env.remove(g).RemoveOk? { StepOrdered(r1, e, r2.world, 4); CompletedStepTruthful(r1, e, r2.world, env, g); }
        else { FailedStepOrdered(r1, e, r2.world, 4, g, DeleteFailed); QuietStepTruthful(r1, e, r2.world, env); }
      }
    }
  }

  lemma {:induction false} CreatesReported(r: Run, ids: seq<GraphId>, d: Desired, env: Env)
    requires OrderedTo(r, 1) && Truthful(r, env) && Injective(env)
    ensures var r' := RunCreates(r, ids, d, env); OrderedTo(r', 1) && Truthful(r', env)
    decreases |ids|
  {
    if ids != [] {
      CreateReported(r, ids[0], d, env);
      CreatesReported(CreateOne(r, ids[0], d, env), ids[1..], d, env);
    }
  }

  lemma {:induction false} MigrationsReported(r: Run, ids: seq<GraphId>, res: Resources, d: Desired, env: Env)
    requires OrderedTo(r, 2) && Truthful(r, env) && Injective(env)
    ensures var r' := RunMigrations(r, ids, res, d, env); OrderedTo(r', 2) && Truthful(r', env)
    decreases |ids|
  {
    if ids != [] {
      MigrateReported(r, ids[0], res, d, env);
      MigrationsReported(MigrateOne(r, ids[0], res, d, env), ids[1..], res, d, env);
    }
  }

  lemma {:induction false} DeletesReported(r: Run, ids: seq<GraphId>, d: Desired, env: Env)
    requires OrderedTo(r, 4) && Truthful(r, env) && Injective(env)
    ensures var r' := RunDeletes(r, ids, d, env); OrderedTo(r', 4) && Truthful(r', env)
    decreases |ids|
  {
    if ids != [] {
      DeleteReported(r, ids[0], d, env);
      DeletesReported(DeleteOne(r, ids[0], d, env), ids[1..], d, env);
    }
  }

  lemma {:induction false} PaymentsReported(p: Paid, cs: seq<Change>, env: Env)
    requires OrderedTo(p.run, 3) && Truthful(p.run, env)
    ensures var p' := PayAll(p, cs, env); OrderedTo(p'.run, 3) && Truthful(p'.run, env)
    decreases |cs|
  {
    if cs != [] {
      var p1 := PayOne(p, cs[0], env);
      if p1.run != p.run {
        StepOrdered(p.run, WroteBlob((cs[0].resource, OrEmpty(cs[0].after))), p1.run.world, 3);
        QuietStepTruthful(p.run, WroteBlob((cs[0].resource, OrEmpty(cs[0].after))), p1.run.world, env);
      }
      PaymentsReported(p1, cs[1..], env);
    }
  }

  /** All phases: the log of an execution is ordered and its completions are its successes. */
  lemma ExecutionReported(w: World, l0: Ledger, d: Desired, env: Env)
    requires Injective(env)
    ensures var x := Execute(w, l0, d, env);
            && OrderedTo(x.paid.run, 3) && OrderedTo(x.deleted, 4) && Truthful(x.deleted, env)
  {
    var x := Execute(w, l0, d, env);
    assert OrderedTo(Start(w), 1) && Truthful(Start(w), env);
    CreatesReported(Start(w), ToRun(x.plan, Create, false), d, env);
    MigrationsReported(x.created, ToRun(x.plan, Update, true), x.swept.ledger.resources, d, env);
    PaymentsReported(Paid(x.migrated, true), x.demoted, env);
    DeletesReported(x.paid.run, ToRun(x.demoted, Delete, false), d, env);
  }

  // ---- the whole command ----

  lemma {:induction false} DropAllOrdered(r: Run, ops: seq<OpId>, drop: OpId -> bool)
    requires OrderedTo(r, 5)
    ensures OrderedTo(DropAll(r, ops, drop), 5)
    decreases |ops|
  {
    if ops != [] {
      if drop(ops[0]) { StepOrdered(r, DroppedSidecar(ops[0]), r.world.(sidecars := r.world.sidecars - {ops[0]}), 5); }
      DropAllOrdered(DropSidecar(r, ops[0], drop(ops[0])), ops[1..], drop);
    }
  }

  lemma {:induction false} MarkAllOrdered(r: Run, ids: seq<ApprovalId>, mark: ApprovalId -> bool)
    requires OrderedTo(r, 5)
    ensures OrderedTo(MarkAll(r, ids, mark), 5)
    decreases |ids|
  {
    if ids != [] {
      var r1 := MarkOne(r, ids[0], mark(ids[0]));
      if r1 != r { StepOrdered(r, MarkedApproval(ids[0]), r1.world, 5); }
      MarkAllOrdered(r1, ids[1..], mark);
    }
  }

  lemma CommitOrdered(l0: Ledger, x: Execution, d: Desired, env: Env)
    requires OrderedTo(x.deleted, 4)
    ensures OrderedTo(Commit(l0, x, d, env).run, 5)
  {
    var w := x.deleted.world.(ledger := Some(Committed(x.ledger)));
    assert OrderedTo(x.deleted, 5);
    StepOrdered(x.deleted, WroteState, w, 5);
    var r1 := if x.ledger != l0 && env.putState != Lost then Step(x.deleted, WroteState, w) else x.deleted;
    DropAllOrdered(r1, x.swept.outcome.completed + x.deleted.completed, env.drop);
    MarkAllOrdered(DropAll(r1, x.swept.outcome.completed + x.deleted.completed, env.drop),
                   Listed(env.files, x.swept.outcome.consumed + ConsumedIds(x.deleted.removed)), env.mark);
  }

  ghost predicate NoRemovals(log: seq<Entry>) {
    forall i :: 0 <= i < |log| ==> !log[i].event.RemoveCalled? && !log[i].event.WroteState?
  }

  lemma EarlyPhasesRemoveNothing(r: Run)
    requires OrderedTo(r, 3)
    ensures NoRemovals(r.log)
  {
  }

  /**
   Every apply run initializes graphs first, then applies schemas, then writes payloads, then removes graphs, then
   writes the state; no engine call follows a failed one; and a run that reports a failed payload removed nothing.
   */
  lemma ApplyIsOrdered(w: World, d: Desired, env: Env)
    requires Injective(env)
    ensures Ordered(ApplyCommand(w, d, env).run.log)
    ensures ApplyCommand(w, d, env).outcome == PayloadFailed ==> NoRemovals(ApplyCommand(w, d, env).run.log)
  {
    if w.ledger.Some? && AllBound(w.ledger.value.resources) {
      var l0 := w.ledger.value;
      var x := Execute(w, l0, d, env);
      ExecutionReported(w, l0, d, env);
      EarlyPhasesRemoveNothing(x.paid.run);
      CommitOrdered(l0, x, d, env);
      assert Commit(l0, x, d, env).outcome != PayloadFailed;
    }
  }
}
