/** `cluster apply` step by step: the loops of `lib.rs` over a mutable session, refining the functions of `Apply`. */
module ApplyRun {
  import opened Addresses
  import opened Digests
  import opened Ledgers
  import opened Sweep
  import opened Plan
  import opened Classify
  import opened Apply
  import opened ChangeLists
  import opened ClusterStates

  /** The stores as the command has left them so far, and the bookkeeping its loops share. */
  class Session {
    var world: World
    var log: seq<Entry>
    var failed: map<GraphId, Origin>
    var aborted: bool
    var completed: seq<OpId>
    var removed: seq<(GraphId, Option<ApprovalId>)>

    function Value(): Run
      reads this
    {
      Run(world, log, failed, aborted, completed, removed)
    }

    constructor (w: World)
      ensures Value() == Start(w)
    {
      world, log, failed, aborted, completed, removed := w, [], map[], false, [], [];
    }

    // ---- steps that reach storage or the engine ----

    method Land(e: Event, w: World)
      modifies this`world, this`log
      ensures Value() == Step(old(Value()), e, w)
    {
      world := w;
      log := log + [Entry(e, w)];
    }

    method WriteSidecar(op: OpId, s: Sidecar)
      modifies this`world, this`log
      ensures Value() == PutSidecar(old(Value()), op, s)
    {
      Land(WroteSidecar(op), world.(sidecars := world.sidecars[op := s]));
    }

    method DeleteSidecar(op: OpId, dropped: bool)
      modifies this`world, this`log
      ensures Value() == DropSidecar(old(Value()), op, dropped)
    {
      if dropped { Land(DroppedSidecar(op), world.(sidecars := world.sidecars - {op})); }
    }

    method MoveGraph(e: Event, g: GraphId, root: Root)
      modifies this`world, this`log
      ensures Value() == MoveRoot(old(Value()), e, g, root)
    {
      Land(e, world.(live := world.live[g := root]));
    }

    // ---- graph creates ----

    method CreateGraph(g: GraphId, d: Desired, env: Env)
      modifies this
      ensures Value() == CreateOne(old(Value()), g, d, env)
    {
      if aborted { failed := failed[g := CreateFailed]; return; }
      var dg := FindGraph(d.graphs, g);
      if dg.None? { return; }
      var op := env.op(g);
      if env.putSidecar(g) != Lost {
        WriteSidecar(op, Sidecar(GraphCreate, g, dg.value.schemaDigest, None, env.actor));
      }
      if env.putSidecar(g) != Done { failed, aborted := failed[g := CreateFailed], true; return; }
      if !SourceIntact(env, dg.value) {
        DeleteSidecar(op, env.drop(op));
        failed, aborted := failed[g := CreateFailed], true;
        return;
      }
      var root := RootAfterInit(RootOf(world.live, g), env.init(g), dg.value.schemaDigest);
      MoveGraph(InitCalled(g, env.init(g).InitOk?), g, root);
      if env.init(g).InitOk? {
        completed := completed + [op];
      } else {
        failed, aborted := failed[g := CreateFailed], true;
      }
    }

    method RunGraphCreates(ids: seq<GraphId>, d: Desired, env: Env)
      modifies this
      ensures Value() == RunCreates(old(Value()), ids, d, env)
    {
      for n := 0 to |ids|
        invariant RunCreates(Value(), ids[n..], d, env) == RunCreates(old(Value()), ids, d, env)
      {
        assert ids[n..][0] == ids[n] && ids[n..][1..] == ids[n + 1..];
        CreateGraph(ids[n], d, env);
      }
    }

    // ---- schema applies ----

    method ApplySchema(g: GraphId, res: Resources, d: Desired, env: Env)
      modifies this
      ensures Value() == MigrateOne(old(Value()), g, res, d, env)
    {
      if aborted { failed := failed[g := SchemaFailed]; return; }
      var dg := FindGraph(d.graphs, g);
      if dg.None? { return; }
      if !RootOf(world.live, g).Open? || !env.ready(g) || !SourceIntact(env, dg.value) {
        failed, aborted := failed[g := SchemaFailed], true;
        return;
      }
      var op := env.op(g);
      if env.putSidecar(g) != Lost {
        WriteSidecar(op, Sidecar(SchemaApply, g, dg.value.schemaDigest, None, env.actor));
      }
      if env.putSidecar(g) != Done { failed, aborted := failed[g := SchemaFailed], true; return; }
      var root := RootAfterMigrate(RootOf(world.live, g), env.migrate(g), dg.value.schemaDigest);
      MoveGraph(SchemaApplyCalled(g, env.migrate(g).MigrateOk?), g, root);
      if env.migrate(g).MigrateOk? {
        completed := completed + [op];
        return;
      }
      if NothingMoved(env, g, res, root) { DeleteSidecar(op, env.drop(op)); }
      failed, aborted := failed[g := SchemaFailed], true;
    }

    method RunSchemaApplies(ids: seq<GraphId>, res: Resources, d: Desired, env: Env)
      modifies this
      ensures Value() == RunMigrations(old(Value()), ids, res, d, env)
    {
      for n := 0 to |ids|
        invariant RunMigrations(Value(), ids[n..], res, d, env) == RunMigrations(old(Value()), ids, res, d, env)
      {
        assert ids[n..][0] == ids[n] && ids[n..][1..] == ids[n + 1..];
        ApplySchema(ids[n], res, d, env);
      }
    }

    // ---- catalog payloads ----

    /** `write_resource_payload`. */
    method WritePayload(c: Change, env: Env) returns (ok: bool)
      requires NeedsPayload(c)
      modifies this`world, this`log
      ensures forall before: bool :: Paid(Value(), before && ok) == PayOne(Paid(old(Value()), before), c, env)
    {
      var key := (c.resource, OrEmpty(c.after));
      if key in world.blobs { return true; }
      var source := env.source(c.resource);
      if source.None? || ContentDigest(source.value) != key.1 || !env.putBlob(c.resource) { return false; }
      Land(WroteBlob(key), world.(blobs := world.blobs[key := source.value]));
      return true;
    }

    method WritePayloads(cs: seq<Change>, env: Env) returns (ok: bool)
      modifies this
      ensures Paid(Value(), ok) == PayAll(Paid(old(Value()), true), cs, env)
    {
      ok := true;
      for n := 0 to |cs|
        invariant PayAll(Paid(Value(), ok), cs[n..], env) == PayAll(Paid(old(Value()), true), cs, env)
      {
        assert cs[n..][0] == cs[n] && cs[n..][1..] == cs[n + 1..];
        if NeedsPayload(cs[n]) {
          var paid := WritePayload(cs[n], env);
          ok := ok && paid;
        }
      }
    }

    // ---- graph deletes ----

    method DeleteGraph(g: GraphId, d: Desired, env: Env)
      modifies this
      ensures Value() == DeleteOne(old(Value()), g, d, env)
    {
      if aborted { failed := failed[g := DeleteFailed]; return; }
      if !env.exportFree(g) { failed, aborted := failed[g := DeleteFailed], true; return; }
      var approval := Consumable(env.artifacts, g, d.configDigest);
      if env.putSidecar(g) != Lost {
        WriteSidecar(env.op(g), Sidecar(GraphDelete, g, Raw(""), approval, env.actor));
      }
      if env.putSidecar(g) != Done { failed, aborted := failed[g := DeleteFailed], true; return; }
      var ok := env.remove(g).RemoveOk?;
      MoveGraph(RemoveCalled(g, ok), g, if ok || env.remove(g).gone then Absent else RootOf(world.live, g));
      if ok {
        removed := removed + [(g, approval)];
        completed := completed + [env.op(g)];
      } else {
        failed, aborted := failed[g := DeleteFailed], true;
      }
    }

    method RunGraphDeletes(ids: seq<GraphId>, d: Desired, env: Env)
      modifies this
      ensures Value() == RunDeletes(old(Value()), ids, d, env)
    {
      for n := 0 to |ids|
        invariant RunDeletes(Value(), ids[n..], d, env) == RunDeletes(old(Value()), ids, d, env)
      {
        assert ids[n..][0] == ids[n] && ids[n..][1..] == ids[n + 1..];
        DeleteGraph(ids[n], d, env);
      }
    }

    // ---- after the state write ----

    method RetireSidecars(ops: seq<OpId>, drop: OpId -> bool)
      modifies this
      ensures Value() == DropAll(old(Value()), ops, drop)
    {
      for n := 0 to |ops|
        invariant DropAll(Value(), ops[n..], drop) == DropAll(old(Value()), ops, drop)
      {
        assert ops[n..][0] == ops[n] && ops[n..][1..] == ops[n + 1..];
        DeleteSidecar(ops[n], drop(ops[n]));
      }
    }

    /** `mark_approvals_consumed`: over the listed files, those among `ids` and not consumed yet. */
    method MarkApprovalsConsumed(files: seq<ApprovalId>, ids: seq<ApprovalId>, mark: ApprovalId -> bool)
      modifies this
      ensures Value() == MarkAll(old(Value()), Listed(files, ids), mark)
    {
      for n := 0 to |files|
        invariant MarkAll(Value(), Listed(files[n..], ids), mark) == MarkAll(old(Value()), Listed(files, ids), mark)
      {
        ListedStep(files, n, ids);
        var id := files[n];
        if id in ids && id in world.approvals && !world.approvals[id].consumed && mark(id) {
          Land(MarkedApproval(id), world.(approvals := world.approvals[id := world.approvals[id].(consumed := true)]));
        }
      }
    }
  }

  lemma ListedStep(files: seq<ApprovalId>, n: nat, ids: seq<ApprovalId>)
    requires n < |files|
    ensures var rest := Listed(files[n + 1..], ids);
            var here := Listed(files[n..], ids);
            if files[n] in ids then here != [] && here[0] == files[n] && here[1..] == rest else here == rest
  {
    assert files[n..][0] == files[n] && files[n..][1..] == files[n + 1..];
  }

  // ---- the new ledger, built in place ----

  /** The loop over the final changes: resources and statuses of everything that was applied or blocked. */
  method ApplyChanges(state: ClusterState, cs: seq<Change>, d: Desired)
    modifies state
    ensures state.Value() == Mutate(old(state.Value()), cs, d)
  {
    for n := 0 to |cs|
      invariant Mutate(state.Value(), cs[n..], d) == Mutate(old(state.Value()), cs, d)
    {
      var c := cs[n];
      assert cs[n..][0] == c && cs[n..][1..] == cs[n + 1..];
      if c.disposition == Some(Applied) {
        state.resources := ApplyChange(state.resources, c, d);
        if c.operation == Delete {
          state.statuses := state.statuses - {c.resource};
        } else {
          state.statuses := state.statuses[c.resource := StatusApplied];
        }
      } else if c.disposition == Some(Blocked) && c.reason != Some(RecoveryPending) {
        state.statuses := state.statuses[c.resource := StatusBlocked(if c.reason.Some? then c.reason.value else DependencyNotApplied)];
      }
    }
  }

  method TombstoneRemoved(state: ClusterState, removed: seq<(GraphId, Option<ApprovalId>)>, actor: Option<string>)
    modifies state
    ensures state.Value() == TombstoneAll(old(state.Value()), removed, actor)
  {
    for n := 0 to |removed|
      invariant TombstoneAll(state.Value(), removed[n..], actor) == TombstoneAll(old(state.Value()), removed, actor)
    {
      assert removed[n..][0] == removed[n] && removed[n..][1..] == removed[n + 1..];
      state.TombstoneGraphSubtree(removed[n].0, removed[n].1, actor);
      if removed[n].1.Some? { state.RecordApprovalConsumed(removed[n].1.value, "apply"); }
    }
  }

  /** `recompute_state_graph_digests`: the entries of declared graphs, rewritten in place. */
  method RecomputeStateGraphDigests(state: ClusterState, graphs: seq<DesiredGraph>, cs: seq<Change>)
    modifies state`resources
    ensures state.Value() == old(state.Value()).(resources := Recompute(old(state.resources), graphs, cs))
  {
    for n := 0 to |graphs|
      invariant Recompute(state.resources, graphs[n..], cs) == Recompute(old(state.resources), graphs, cs)
    {
      var dg := graphs[n];
      assert graphs[n..][0] == dg && graphs[n..][1..] == graphs[n + 1..];
      if Graph(dg.id) in state.resources {
        var policy := if GraphBlocked(cs, dg.id) then GraphPolicy(state.resources, dg.id) else dg.policy;
        state.resources := state.resources[Graph(dg.id) := Recomposed(state.resources, dg.id, dg.provider, policy)];
      }
    }
  }

  method BuildNewLedger(state: ClusterState, cs: seq<Change>, removed: seq<(GraphId, Option<ApprovalId>)>, d: Desired, actor: Option<string>)
    returns (converged: bool)
    modifies state
    ensures state.Value() == NewLedger(old(state.Value()), cs, removed, d, actor)
    ensures converged == (PlanOf(state.resources, d) == [])
  {
    ApplyChanges(state, cs, d);
    TombstoneRemoved(state, removed, actor);
    RecomputeStateGraphDigests(state, d.graphs, cs);
    var residual := ComputePlan(state.resources, d);
    converged := residual.items == [];
    if converged { state.configDigest := Some(d.configDigest); }
  }

  // ---- the whole command ----

  /** The phases of an execution, one from the other. */
  ghost predicate Explains(x: Execution, start: Run, l0: Ledger, d: Desired, env: Env) {
    var res := x.swept.ledger.resources;
    && x.swept == SweepLedger(l0, env.probes)
    && x.plan == ClassifiedPlan(res, d, env.artifacts, x.swept.outcome.pending)
    && x.created == RunCreates(start, ToRun(x.plan, Create, false), d, env)
    && x.migrated == RunMigrations(x.created, ToRun(x.plan, Update, true), res, d, env)
    && x.demoted == Demoted(x.plan, x.migrated.failed, d.dependencies)
    && x.paid == PayAll(Paid(x.migrated, true), x.demoted, env)
    && x.deleted == RunDeletes(x.paid.run, ToRun(x.demoted, Delete, false), d, env)
    && x.final == Demoted(x.demoted, x.deleted.failed, d.dependencies)
    && x.ledger == NewLedger(x.swept.ledger, x.final, x.deleted.removed, d, env.actor)
  }

  /** Sweep, plan, approve and classify, up to the defensive approval check. */
  method PlanRun(state: ClusterState, d: Desired, env: Env, ghost start: Run, ghost l0: Ledger, ghost x: Execution)
    returns (sweep: SweepResult, list: ChangeList, violated: bool)
    requires state.Value() == l0 && Explains(x, start, l0, d, env)
    modifies state
    ensures fresh(sweep) && fresh(list) && Both(state, sweep) == x.swept && list.items == x.plan
    ensures violated == ApprovalViolated(x.plan, ApprovedResources(env.artifacts, PlanOf(x.swept.ledger.resources, d), d.configDigest))
  {
    sweep := SweepRecoverySidecars(state, env.probes);
    list := ComputePlan(state.resources, d);
    var approved := MatchApprovals(env.artifacts, list.items, d.configDigest);
    list.ClassifyChanges(d.dependencies, sweep.pending, approved);
    violated := ApprovalViolated(list.items, approved);
  }

  /** Creates, then schema applies, then payloads over what survived the failures. */
  method MoveAndPay(session: Session, list: ChangeList, res: Resources, d: Desired, env: Env, ghost l0: Ledger, ghost x: Execution)
    returns (ok: bool)
    requires Explains(x, session.Value(), l0, d, env) && list.items == x.plan && res == x.swept.ledger.resources
    modifies session, list
    ensures list.items == x.demoted && Paid(session.Value(), ok) == x.paid
  {
    session.RunGraphCreates(ToRun(list.items, Create, false), d, env);
    session.RunSchemaApplies(ToRun(list.items, Update, true), res, d, env);
    list.DemoteDependentsOfFailedGraphs(session.failed, d.dependencies);
    ok := session.WritePayloads(list.items, env);
  }

  /** Deletes only after every payload landed, then the ledger of what this run achieved. */
  method DeleteAndRecord(session: Session, list: ChangeList, state: ClusterState, d: Desired, env: Env,
                         ghost start: Run, ghost l0: Ledger, ghost x: Execution)
    returns (converged: bool)
    requires Explains(x, start, l0, d, env)
    requires session.Value() == x.paid.run && list.items == x.demoted && state.Value() == x.swept.ledger
    modifies session, list, state
    ensures session.Value() == x.deleted && list.items == x.final && state.Value() == x.ledger
    ensures converged == (PlanOf(x.ledger.resources, d) == [])
  {
    session.RunGraphDeletes(ToRun(list.items, Delete, false), d, env);
    list.DemoteDependentsOfFailedGraphs(session.failed, d.dependencies);
    converged := BuildNewLedger(state, list.items, session.removed, d, env.actor);
  }

  /** The one state write, and what may only follow it. */
  method WriteAndRetire(session: Session, state: ClusterState, sweep: SweepResult, l0: Ledger, converged: bool, d: Desired, env: Env,
                        ghost x: Execution)
    returns (outcome: Outcome)
    requires session.Value() == x.deleted && state.Value() == x.ledger && sweep.Value() == x.swept.outcome
    requires converged == (PlanOf(x.ledger.resources, d) == [])
    modifies session
    ensures Report(session.Value(), x.final, outcome) == Commit(l0, x, d, env)
  {
    var dirty := state.Value() != l0;
    var ops, ids := sweep.completed + session.completed, sweep.consumed + ConsumedIds(session.removed);
    if dirty && env.putState != Lost {
      session.Land(WroteState, session.world.(ledger := Some(Committed(state.Value()))));
    }
    if dirty && env.putState != Done { return StateWriteFailed; }
    session.RetireSidecars(ops, env.drop);
    session.MarkApprovalsConsumed(env.files, ids, env.mark);
    outcome := Finished(converged, dirty);
  }

  /** Everything after the approval check. */
  method RunMoves(session: Session, list: ChangeList, state: ClusterState, sweep: SweepResult, l0: Ledger, d: Desired, env: Env,
                  ghost x: Execution)
    returns (outcome: Outcome)
    requires Explains(x, session.Value(), l0, d, env) && list.items == x.plan && Both(state, sweep) == x.swept
    modifies session, list, state
    ensures Report(session.Value(), list.items, outcome) ==
            if x.paid.ok then Commit(l0, x, d, env) else Report(x.paid.run, x.demoted, PayloadFailed)
  {
    ghost var start := session.Value();
    var ok := MoveAndPay(session, list, state.resources, d, env, l0, x);
    if !ok { return PayloadFailed; }
    var converged := DeleteAndRecord(session, list, state, d, env, start, l0, x);
    outcome := WriteAndRetire(session, state, sweep, l0, converged, d, env, x);
    assert list.items == x.final;
  }

  /** Everything after the ledger is read and found intact. */
  method RunFrom(session: Session, l0: Ledger, d: Desired, env: Env, ghost x: Execution) returns (changes: seq<Change>, outcome: Outcome)
    requires session.Value() == Start(session.world) && Explains(x, session.Value(), l0, d, env)
    modifies session
    ensures Report(session.Value(), changes, outcome) == Conclude(old(session.world), l0, x, d, env)
  {
    var state := new ClusterState(l0);
    ghost var start := session.Value();
    var sweep, list, violated := PlanRun(state, d, env, start, l0, x);
    if violated { return list.items, ApprovalViolation; }
    outcome := RunMoves(session, list, state, sweep, l0, d, env, x);
    changes := list.items;
  }

  /** `apply_config_dir_with_options` on a loaded configuration, the lock held, computes exactly `ApplyCommand`. */
  method ApplyConfigDir(w: World, d: Desired, env: Env) returns (session: Session, changes: seq<Change>, outcome: Outcome)
    ensures fresh(session) && Report(session.Value(), changes, outcome) == ApplyCommand(w, d, env)
  {
    session := new Session(w);
    if w.ledger.None? { return session, [], NoState; }
    var l0 := w.ledger.value;
    if !AllBound(l0.resources) { return session, [], Severed; }
    changes, outcome := RunFrom(session, l0, d, env, Execute(w, l0, d, env));
  }
}
