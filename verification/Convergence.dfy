/** One-run convergence and idempotence of apply. */
module Convergence {
  import opened Addresses
  import opened Digests
  import opened Ledgers
  import opened Sweep
  import opened Coverage
  import opened Plan
  import opened Classify
  import opened Apply
  import opened ApplySafety
  import opened ApplyLedger
  import opened ApplyOutcome
  import opened CrashSafety
  import opened ApplyIsSafe
  import opened ApplyConverges

  // ---- the defensive refusal never fires ----

  lemma SameDeletes(cs: seq<Change>, gate: Gate)
    ensures GraphsWith(Classified(cs, gate), Delete) == GraphsWith(cs, Delete)
  {
    var cs' := Classified(cs, gate);
    forall g ensures g in GraphsWith(cs', Delete) <==> g in GraphsWith(cs, Delete) {
      GraphsWithIff(cs, Delete, g);
      GraphsWithIff(cs', Delete, g);
      assert forall i :: 0 <= i < |cs| ==> cs'[i].resource == cs[i].resource && cs'[i].operation == cs[i].operation;
    }
  }

  lemma NoApprovalViolation(res: Resources, d: Desired, arts: Artifacts, pending: set<GraphId>)
    ensures !ApprovalViolated(ClassifiedPlan(res, d, arts, pending), ApprovedResources(arts, PlanOf(res, d), d.configDigest))
  {
    var cs := PlanOf(res, d);
    var approved := ApprovedResources(arts, cs, d.configDigest);
    var plan := ClassifiedPlan(res, d, arts, pending);
    SameDeletes(cs, GateOf(cs, d.dependencies, pending, approved));
    forall i | 0 <= i < |plan| && plan[i].disposition == Some(Applied) && Gated(plan, plan[i]) ensures plan[i].resource in approved {
      ApprovalInvariantHolds(cs, d.dependencies, pending, approved, i);
    }
  }

  /** Apply's own approval invariant check can never refuse a run. */
  lemma RefusalIsUnreachable(w: World, d: Desired, env: Env)
    ensures ApplyCommand(w, d, env).outcome != ApprovalViolation
  {
    if w.ledger.Some? {
      var x := Execute(w, w.ledger.value, d, env);
      NoApprovalViolation(x.swept.ledger.resources, d, env.artifacts, x.swept.outcome.pending);
    }
  }

  // ---- convergence ----

  lemma {:induction false} DropAllClears(r: Run, ops: seq<OpId>, drop: OpId -> bool)
    requires forall op :: drop(op)
    ensures var r' := DropAll(r, ops, drop); r'.world.sidecars == r.world.sidecars - OpSet(ops) && r'.world.ledger == r.world.ledger
    decreases |ops|
  {
    if ops == [] {
      assert OpSet([]) == {};
    } else {
      var r1 := DropSidecar(r, ops[0], drop(ops[0]));
      DropAllClears(r1, ops[1..], drop);
      assert OpSet(ops) == {ops[0]} + OpSet(ops[1..]);
      assert r.world.sidecars - {ops[0]} - OpSet(ops[1..]) == r.world.sidecars - OpSet(ops);
    }
  }

  lemma {:induction false} MarkAllKeeps(r: Run, ids: seq<ApprovalId>, mark: ApprovalId -> bool)
    ensures var r' := MarkAll(r, ids, mark); r'.world.sidecars == r.world.sidecars && r'.world.ledger == r.world.ledger
    decreases |ids|
  {
    if ids != [] { MarkAllKeeps(MarkOne(r, ids[0], mark(ids[0])), ids[1..], mark); }
  }

  /** Without sidecars a safe world is in step, so every graph to migrate opens. */
  lemma MigratingOpens(w: World, d: Desired, g: GraphId)
    requires Safe(w) && w.sidecars == map[] && w.ledger.Some? && Migrating(w.ledger.value.resources, d, {}, g)
    ensures RootOf(w.live, g).Open?
  {
    assert Covered(w.ledger.value.resources, w.live, w.sidecars, g);
  }

  lemma SmoothPhases(w: World, l0: Ledger, d: Desired, env: Env)
    requires Loaded(d) && Settled(w, l0, d, env) && Smooth(env, d)
    ensures var x := Execute(w, l0, d, env);
            Tidy(x.migrated) && Tidy(x.paid.run) && x.paid.ok && Tidy(x.deleted) && x.deleted.world.ledger == Some(l0) && x.final == x.plan
  {
    var x := Execute(w, l0, d, env);
    assert x.swept == Swept(l0, NoOutcome);
    var creates, migrates := ToRun(x.plan, Create, false), ToRun(x.plan, Update, true);
    CreateList(l0.resources, d, env.artifacts, {});
    MigrateList(l0.resources, d, env.artifacts, {});
    DisjointMoves(l0.resources, d, env.artifacts, {});
    CreatesSmooth(Start(w), creates, d, env);
    forall g | g in migrates ensures RootOf(x.created.world.live, g).Open? { MigratingOpens(w, d, g); }
    MigrationsSmooth(x.created, migrates, l0.resources, d, env);
    DemotedByNone(x.plan, d.dependencies);
    PlanShape(l0.resources, d, env.artifacts, {});
    PaymentsSmooth(Paid(x.migrated, true), x.plan, d, env);
    DeletesSmooth(x.paid.run, ToRun(x.plan, Delete, false), d, env);
  }

  lemma SmoothLedger(w: World, l0: Ledger, d: Desired, env: Env)
    requires Loaded(d) && Settled(w, l0, d, env) && Smooth(env, d) && FreshOps(env, w)
    ensures var x := Execute(w, l0, d, env); Converged(x.ledger.resources, d) && PlanOf(x.ledger.resources, d) == []
                                             && x.ledger.configDigest == Some(d.configDigest)
  {
    SmoothPhases(w, l0, d, env);
    SettledIsReady(w, l0, d, env);
    CalmLedger(w, l0, d, env);
  }

  lemma SettledIsReady(w: World, l0: Ledger, d: Desired, env: Env)
    requires Loaded(d) && Settled(w, l0, d, env) && FreshOps(env, w)
    ensures Ready(w, l0, d, env) && AllDeletesApproved(l0.resources, d, env.artifacts)
  {
  }

  lemma CalmLedger(w: World, l0: Ledger, d: Desired, env: Env)
    requires w.ledger == Some(l0) && Loaded(d) && Ready(w, l0, d, env) && env.probes == []
    requires AllDeletesApproved(l0.resources, d, env.artifacts) && (forall a :: a in l0.resources ==> !a.Unknown?)
    requires var x := Execute(w, l0, d, env); x.final == x.plan && x.deleted.failed == map[]
    ensures var x := Execute(w, l0, d, env); Converged(x.ledger.resources, d) && PlanOf(x.ledger.resources, d) == []
                                             && x.ledger.configDigest == Some(d.configDigest)
  {
    SmoothSweep(w, l0, d, env);
    ExecuteFacts(w, l0, d, env);
    SmoothOver(CtxOf(w, l0, d, env), l0, Execute(w, l0, d, env));
  }

  /** Without sidecars the sweep changes nothing. */
  lemma SmoothSweep(w: World, l0: Ledger, d: Desired, env: Env)
    requires env.probes == []
    ensures Execute(w, l0, d, env).swept == Swept(l0, NoOutcome)
  {
  }

  lemma SmoothOver(c: Ctx, l0: Ledger, x: Execution)
    requires Loaded(c.d) && AllDeletesApproved(c.res, c.d, c.env.artifacts) && (forall a :: a in c.res ==> !a.Unknown?)
    requires c.res == l0.resources && x.swept == Swept(l0, NoOutcome) && x.final == x.plan && x.deleted.failed == map[]
    requires x.plan == ClassifiedPlan(c.res, c.d, c.env.artifacts, x.swept.outcome.pending)
    requires RunFacts(c, x.swept.outcome.pending, x.paid.run, x.deleted) && ChangeFacts(x.plan, x.final, x.deleted.failed, c.d)
    requires x.ledger == NewLedger(l0, x.final, x.deleted.removed, c.d, c.env.actor)
    ensures Converged(x.ledger.resources, c.d) && PlanOf(x.ledger.resources, c.d) == [] && x.ledger.configDigest == Some(c.d.configDigest)
  {
    NewLedgerConverges(c, l0, x.plan, x.paid.run, x.deleted);
  }

  lemma NewLedgerConverges(c: Ctx, l1: Ledger, plan: seq<Change>, paid: Run, r: Run)
    requires Loaded(c.d) && l1.resources == c.res && AllDeletesApproved(c.res, c.d, c.env.artifacts) && r.failed == map[]
    requires RunFacts(c, {}, paid, r) && ChangeFacts(plan, plan, r.failed, c.d) && plan == ClassifiedPlan(c.res, c.d, c.env.artifacts, {})
    requires forall a :: a in c.res ==> !a.Unknown?
    ensures var l := NewLedger(l1, plan, r.removed, c.d, c.env.actor);
            Converged(l.resources, c.d) && PlanOf(l.resources, c.d) == [] && l.configDigest == Some(c.d.configDigest)
  {
    LedgerConverges(c, l1, plan, paid, r);
    PlanEmptyIffAgrees(NewLedger(l1, plan, r.removed, c.d, c.env.actor).resources, c.d);
  }

  lemma CommitConverges(l0: Ledger, x: Execution, d: Desired, env: Env)
    requires env.putState == Done && (forall op :: env.drop(op)) && x.deleted.world.ledger == Some(l0)
    requires x.deleted.world.sidecars.Keys <= OpSet(x.deleted.completed) && PlanOf(x.ledger.resources, d) == []
    ensures var rep := Commit(l0, x, d, env);
            && rep.outcome == Finished(true, x.ledger != l0)
            && rep.run.world.ledger == Some(if x.ledger != l0 then Committed(x.ledger) else l0)
            && rep.run.world.sidecars == map[]
  {
    var r1 :=
      if x.ledger != l0 then Step(x.deleted, WroteState, x.deleted.world.(ledger := Some(Committed(x.ledger)))) else x.deleted;
    var ops := x.swept.outcome.completed + x.deleted.completed;
    DropAllClears(r1, ops, env.drop);
    assert OpSet(x.deleted.completed) <= OpSet(ops);
    assert r1.world.sidecars - OpSet(ops) == map[];
    MarkAllKeeps(DropAll(r1, ops, env.drop), Listed(env.files, x.swept.outcome.consumed + ConsumedIds(x.deleted.removed)), env.mark);
  }

  /**
   From a safe, bound ledger of known kinds with no sidecars outstanding and every graph delete approved, a run in which
   nothing fails leaves no residual change, the desired config digest recorded, and no sidecar behind.
   */
  lemma ApplyConvergesInOneRun(w: World, l0: Ledger, d: Desired, env: Env)
    requires Loaded(d) && Settled(w, l0, d, env) && Smooth(env, d) && FreshOps(env, w)
    ensures var rep := ApplyCommand(w, d, env);
            && rep.outcome.Finished? && rep.outcome.converged && rep.run.world.sidecars == map[]
            && rep.run.world.ledger.Some? && rep.run.world.ledger.value.configDigest == Some(d.configDigest)
            && Converged(rep.run.world.ledger.value.resources, d)
  {
    var x := Execute(w, l0, d, env);
    SmoothPhases(w, l0, d, env);
    SmoothLedger(w, l0, d, env);
    NoApprovalViolation(x.swept.ledger.resources, d, env.artifacts, x.swept.outcome.pending);
    CommitConverges(l0, x, d, env);
  }

  // ---- idempotence ----

  lemma ConvergedIsBound(res: Resources, d: Desired)
    requires Loaded(d) && Converged(res, d)
    ensures AllBound(res)
  {
    forall a | a in res && a.Graph? ensures Bound(res, a.graph) {
      assert a in ResourceDigests(res);
      var dg := FindGraph(d.graphs, a.graph).value;
      assert dg in d.graphs && res[Graph(dg.id)] == Recomposed(res, dg.id, dg.provider, dg.policy);
    }
  }

  lemma {:induction false} RecomputeIdle(res: Resources, graphs: seq<DesiredGraph>)
    requires forall dg :: dg in graphs ==> Graph(dg.id) in res && res[Graph(dg.id)] == Recomposed(res, dg.id, dg.provider, dg.policy)
    ensures Recompute(res, graphs, []) == res
    decreases |graphs|
  {
    if graphs != [] {
      assert graphs[0] in graphs;
      assert !GraphBlocked([], graphs[0].id);
      assert RecomputeOne(res, graphs[0], []) == res;
      RecomputeIdle(res, graphs[1..]);
    }
  }

  lemma IdleExecution(w: World, l: Ledger, d: Desired, env: Env)
    requires Loaded(d) && Converged(l.resources, d) && l.configDigest == Some(d.configDigest) && env.probes == []
    ensures var x := Execute(w, l, d, env);
            x.plan == [] && x.final == [] && x.swept == Swept(l, NoOutcome) && x.paid == Paid(Start(w), true) && x.deleted == Start(w) && x.ledger == l
  {
    var x := Execute(w, l, d, env);
    PlanEmptyIffAgrees(l.resources, d);
    assert x.swept == Swept(l, NoOutcome) && x.plan == [];
    assert x.deleted == Start(w) && x.final == [];
    RecomputeIdle(l.resources, d.graphs);
    assert Mutate(l, [], d) == l && TombstoneAll(l, [], env.actor) == l;
    assert l.(resources := l.resources) == l && l.(configDigest := Some(d.configDigest)) == l;
  }

  /** Running apply again on a converged ledger finds no changes and takes no storage or engine step. */
  lemma SecondApplyWritesNothing(w: World, l: Ledger, d: Desired, env: Env)
    requires Loaded(d) && w.ledger == Some(l) && Converged(l.resources, d) && l.configDigest == Some(d.configDigest) && env.probes == []
    ensures ApplyCommand(w, d, env) == Report(Start(w), [], Finished(true, false))
  {
    ConvergedIsBound(l.resources, d);
    IdleExecution(w, l, d, env);
    PlanEmptyIffAgrees(l.resources, d);
    NoApprovalViolation(l.resources, d, env.artifacts, {});
    IdleCommit(w, l, Execute(w, l, d, env), d, env);
  }

  lemma IdleCommit(w: World, l: Ledger, x: Execution, d: Desired, env: Env)
    requires x.final == [] && x.swept == Swept(l, NoOutcome) && x.deleted == Start(w) && x.ledger == l && PlanOf(l.resources, d) == []
    ensures Commit(l, x, d, env) == Report(Start(w), [], Finished(true, false))
  {
    ListedNone(env.files);
  }

  lemma {:induction false} ListedNone(files: seq<ApprovalId>)
    ensures Listed(files, [] + []) == []
  {
    if files != [] { ListedNone(files[1..]); }
  }

  /** A second run, whatever its environment does, finds what a smooth first run left already converged. */
  lemma ApplyTwiceIsIdle(w: World, l0: Ledger, d: Desired, env: Env, again: Env)
    requires Loaded(d) && Settled(w, l0, d, env) && Smooth(env, d) && FreshOps(env, w) && again.probes == []
    ensures var w' := ApplyCommand(w, d, env).run.world;
            ApplyCommand(w', d, again) == Report(Start(w'), [], Finished(true, false))
  {
    ApplyConvergesInOneRun(w, l0, d, env);
    var w' := ApplyCommand(w, d, env).run.world;
    SecondApplyWritesNothing(w', w'.ledger.value, d, again);
  }
}
