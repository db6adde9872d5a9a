/** An operator who runs apply again: what a finished apply leaves behind for the next command's sweep. */
module ApplyRetries {
  import opened Addresses
  import opened Digests
  import opened Ledgers
  import opened Sweep
  import opened Coverage
  import opened SweepFixpoint
  import opened Plan
  import opened Classify
  import opened Apply
  import opened ApplySafety
  import opened ApplyLedger
  import opened ApplyOutcome
  import opened ApplyReport
  import opened CrashSafety
  import opened ApplyIsSafe
  import opened ApplyTheorems
  import opened ApplyStops
  import opened Retirement
  import opened RefreshRetires
  import Refresh

  // ---- a sidecar the sweep leaves makes its graph pending ----

  lemma {:induction false} PendingGrows(st: Swept, ps: seq<Probe>)
    ensures st.outcome.pending <= SweepAll(st, ps).outcome.pending
    ensures forall op :: op in st.outcome.completed ==> op in SweepAll(st, ps).outcome.completed
    decreases |ps|
  {
    if ps != [] {
      SweepOneSummary(st, ps[0]);
      PendingGrows(SweepOne(st, ps[0]), ps[1..]);
    }
  }

  lemma {:induction false} LeftIsPending(st: Swept, ps: seq<Probe>, p: Probe)
    requires p in ps && p.op !in SweepAll(st, ps).outcome.completed
    ensures p.sidecar.graph in SweepAll(st, ps).outcome.pending
    decreases |ps|
  {
    var st1 := SweepOne(st, ps[0]);
    SweepOneSummary(st, ps[0]);
    PendingGrows(st1, ps[1..]);
    if p != ps[0] { LeftIsPending(st1, ps[1..], p); }
  }

  // ---- a run touches only the graphs it visits ----

  /** Nothing of `g` moved: neither its root nor the sidecar it would have been given. */
  predicate Bystander(w: World, w': World, env: Env, g: GraphId) {
    RootOf(w'.live, g) == RootOf(w.live, g) && (env.op(g) in w'.sidecars <==> env.op(g) in w.sidecars)
  }

  lemma CreateBystander(r: Run, h: GraphId, d: Desired, env: Env, g: GraphId)
    requires Injective(env) && g != h
    ensures Bystander(r.world, CreateOne(r, h, d, env).world, env, g)
  {
    assert env.op(g) != env.op(h);
  }

  lemma MigrateBystander(r: Run, h: GraphId, res: Resources, d: Desired, env: Env, g: GraphId)
    requires Injective(env) && g != h
    ensures Bystander(r.world, MigrateOne(r, h, res, d, env).world, env, g)
  {
    assert env.op(g) != env.op(h);
  }

  lemma DeleteBystander(r: Run, h: GraphId, d: Desired, env: Env, g: GraphId)
    requires Injective(env) && g != h
    ensures Bystander(r.world, DeleteOne(r, h, d, env).world, env, g)
  {
    assert env.op(g) != env.op(h);
  }

  lemma {:induction false} CreatesBystander(r: Run, ids: seq<GraphId>, d: Desired, env: Env, g: GraphId)
    requires Injective(env) && g !in ids
    ensures Bystander(r.world, RunCreates(r, ids, d, env).world, env, g)
    decreases |ids|
  {
    if ids != [] {
      CreateBystander(r, ids[0], d, env, g);
      CreatesBystander(CreateOne(r, ids[0], d, env), ids[1..], d, env, g);
    }
  }

  lemma {:induction false} MigrationsBystander(r: Run, ids: seq<GraphId>, res: Resources, d: Desired, env: Env, g: GraphId)
    requires Injective(env) && g !in ids
    ensures Bystander(r.world, RunMigrations(r, ids, res, d, env).world, env, g)
    decreases |ids|
  {
    if ids != [] {
      MigrateBystander(r, ids[0], res, d, env, g);
      MigrationsBystander(MigrateOne(r, ids[0], res, d, env), ids[1..], res, d, env, g);
    }
  }

  lemma {:induction false} DeletesBystander(r: Run, ids: seq<GraphId>, d: Desired, env: Env, g: GraphId)
    requires Injective(env) && g !in ids
    ensures Bystander(r.world, RunDeletes(r, ids, d, env).world, env, g)
    decreases |ids|
  {
    if ids != [] {
      DeleteBystander(r, ids[0], d, env, g);
      DeletesBystander(DeleteOne(r, ids[0], d, env), ids[1..], d, env, g);
    }
  }

  lemma {:induction false} PaymentsBystander(p: Paid, cs: seq<Change>, env: Env, g: GraphId)
    ensures Bystander(p.run.world, PayAll(p, cs, env).run.world, env, g)
    decreases |cs|
  {
    if cs != [] { PaymentsBystander(PayOne(p, cs[0], env), cs[1..], env, g); }
  }

  lemma PhasesBystander(w: World, d: Desired, env: Env, res: Resources, creates: seq<GraphId>, migrates: seq<GraphId>, cs: seq<Change>,
                        deletes: seq<GraphId>, g: GraphId)
    requires Injective(env) && g !in creates && g !in migrates && g !in deletes
    ensures var r2 := RunMigrations(RunCreates(Start(w), creates, d, env), migrates, res, d, env);
            Bystander(w, RunDeletes(PayAll(Paid(r2, true), cs, env).run, deletes, d, env).world, env, g)
  {
    var r1 := RunCreates(Start(w), creates, d, env);
    var r2 := RunMigrations(r1, migrates, res, d, env);
    CreatesBystander(Start(w), creates, d, env, g);
    MigrationsBystander(r1, migrates, res, d, env, g);
    PaymentsBystander(Paid(r2, true), cs, env, g);
    DeletesBystander(PayAll(Paid(r2, true), cs, env).run, deletes, d, env, g);
  }

  /** A pending graph is not visited at all: no root, sidecar or recorded schema of it moves. */
  lemma PendingUntouched(w: World, l0: Ledger, d: Desired, env: Env, g: GraphId)
    requires Runs(w, l0, d, env) && g in SweepLedger(l0, env.probes).outcome.pending
    ensures var x := Execute(w, l0, d, env);
            && Bystander(w, x.deleted.world, env, g)
            && Recorded(x.ledger.resources, g) == Recorded(x.swept.ledger.resources, g)
  {
    var c, x := CtxOf(w, l0, d, env), Execute(w, l0, d, env);
    var creates, migrates, deletes := ToRun(x.plan, Create, false), ToRun(x.plan, Update, true), ToRun(x.demoted, Delete, false);
    RunLists(w, l0, d, env);
    NotListed(x, c, g);
    PhasesBystander(w, d, env, x.swept.ledger.resources, creates, migrates, x.demoted, deletes, g);
    RunConcludes(w, l0, d, env);
    PendingKeepsRecord(c, x.swept.ledger, x.swept.outcome.pending, x.plan, x.final, x.paid.run, x.deleted, x.ledger, g);
  }

  lemma NotListed(x: Execution, c: Ctx, g: GraphId)
    requires Lists(x, c) && g in x.swept.outcome.pending
    ensures g !in ToRun(x.plan, Create, false) && g !in ToRun(x.plan, Update, true) && g !in ToRun(x.demoted, Delete, false)
  {
  }

  lemma PendingKeepsRecord(c: Ctx, l1: Ledger, pending: set<GraphId>, plan: seq<Change>, final: seq<Change>, paid: Run, r: Run, l2: Ledger, g: GraphId)
    requires Concluded(c, l1, pending, plan, final, paid, r, l2) && g in pending
    ensures Recorded(l2.resources, g) == Recorded(c.res, g)
  {
    LedgerTellsTruth(c, l1, pending, plan, final, paid, r, l2, g);
    CompletedIffMoving(c, pending, paid, r, g);
  }

  // ---- what a finished apply leaves for the next command ----

  lemma CommitKeepsRoots(l0: Ledger, x: Execution, d: Desired, env: Env)
    requires Commit(l0, x, d, env).outcome.Finished? && x.deleted.world.ledger == Some(l0)
    ensures var w' := Commit(l0, x, d, env).run.world;
            w'.live == x.deleted.world.live && w'.ledger == Some(if x.ledger != l0 then Committed(x.ledger) else l0)
  {
    var r1 :=
      if x.ledger != l0 then Step(x.deleted, WroteState, x.deleted.world.(ledger := Some(Committed(x.ledger)))) else x.deleted;
    var ops := x.swept.outcome.completed + x.deleted.completed;
    Refresh.RetirementKeepsLedger(r1, ops, env.drop);
    Refresh.MarkingKeepsLedger(DropAll(r1, ops, env.drop), Listed(env.files, x.swept.outcome.consumed + ConsumedIds(x.deleted.removed)), env.mark);
  }

  lemma FinishedWorld(w: World, l0: Ledger, d: Desired, env: Env)
    requires Runs(w, l0, d, env) && ApplyCommand(w, d, env).outcome.Finished?
    ensures var x, w' := Execute(w, l0, d, env), ApplyCommand(w, d, env).run.world;
            && w'.live == x.deleted.world.live && w'.ledger.Some? && w'.ledger.value.resources == x.ledger.resources
            && (forall op :: op in w'.sidecars ==> op in x.deleted.world.sidecars && w'.sidecars[op] == x.deleted.world.sidecars[op])
            && (forall g :: env.op(g) in x.deleted.world.sidecars ==> x.deleted.world.sidecars[env.op(g)].graph == g)
  {
    var c, x := CtxOf(w, l0, d, env), Execute(w, l0, d, env);
    FinishedCommits(w, l0, d, env);
    RunConcludes(w, l0, d, env);
    SoundWorld(c, x.deleted);
    CommitKeepsRoots(l0, x, d, env);
    CommitRetires(l0, x, d, env);
  }

  lemma SoundWorld(c: Ctx, r: Run)
    requires Sound(c, r, {})
    ensures r.world.ledger == c.w.ledger && forall g :: c.env.op(g) in r.world.sidecars ==> r.world.sidecars[c.env.op(g)].graph == g
  {
  }

  lemma StillPending(w: World, l0: Ledger, env: Env, g: GraphId, op: OpId)
    requires FullListing(env.probes, w.sidecars, w.live) && op in w.sidecars && w.sidecars[op].graph == g
    requires op in CommitSweep(Stores(l0, w.sidecars), env.probes).sidecars
    ensures g in SweepLedger(l0, env.probes).outcome.pending
  {
    LeftIsPending(Swept(l0, NoOutcome), env.probes, Probe(op, w.sidecars[op], RootOf(w.live, g)));
  }

  /** What a finished apply with every drop done leaves: of what it found, a committed sweep; of pending graphs, everything. */
  ghost predicate Aftermath(w: World, l0: Ledger, env: Env, w': World) {
    var s := Stores(l0, w.sidecars);
    && w'.ledger.Some?
    && (forall op :: op in w.sidecars ==> (op in w'.sidecars <==> op in CommitSweep(s, env.probes).sidecars))
    && (forall op :: op in w.sidecars && op in w'.sidecars ==> w'.sidecars[op] == w.sidecars[op])
    && (forall op :: op in w'.sidecars ==> op in w.sidecars || Own(env, op))
    && (forall g :: g in SweepLedger(l0, env.probes).outcome.pending ==> StandsStill(w, l0, env, w', g))
  }

  ghost predicate StandsStill(w: World, l0: Ledger, env: Env, w': World, g: GraphId)
    requires w'.ledger.Some?
  {
    && RootOf(w'.live, g) == RootOf(w.live, g)
    && Recorded(w'.ledger.value.resources, g) == Recorded(SweepLedger(l0, env.probes).ledger.resources, g)
    && forall op :: op in w'.sidecars && w'.sidecars[op].graph == g ==> op in w.sidecars
  }

  lemma SidecarsAfter(w: World, l0: Ledger, d: Desired, env: Env, op: OpId)
    requires Runs(w, l0, d, env) && ApplyCommand(w, d, env).outcome.Finished? && (forall o :: env.drop(o))
    ensures var w' := ApplyCommand(w, d, env).run.world;
            && (op in w.sidecars ==> (op in w'.sidecars <==> op in CommitSweep(Stores(l0, w.sidecars), env.probes).sidecars))
            && (op in w.sidecars && op in w'.sidecars ==> w'.sidecars[op] == w.sidecars[op])
            && (op in w'.sidecars ==> op in w.sidecars || Own(env, op))
  {
    ApplyRetires(w, l0, d, env, op);
    if op in w.sidecars { ApplyCommitsSweep(w, l0, d, env, op); }
  }

  lemma PendingStandsStill(w: World, l0: Ledger, d: Desired, env: Env, g: GraphId)
    requires Runs(w, l0, d, env) && ApplyCommand(w, d, env).outcome.Finished? && (forall o :: env.drop(o))
    requires g in SweepLedger(l0, env.probes).outcome.pending
    ensures var w' := ApplyCommand(w, d, env).run.world; w'.ledger.Some? && StandsStill(w, l0, env, w', g)
  {
    var w' := ApplyCommand(w, d, env).run.world;
    FinishedWorld(w, l0, d, env);
    PendingUntouched(w, l0, d, env, g);
    forall op | op in w'.sidecars && w'.sidecars[op].graph == g ensures op in w.sidecars { SidecarsAfter(w, l0, d, env, op); }
  }

  lemma ApplyAftermath(w: World, l0: Ledger, d: Desired, env: Env)
    requires Runs(w, l0, d, env) && ApplyCommand(w, d, env).outcome.Finished? && (forall o :: env.drop(o))
    ensures Aftermath(w, l0, env, ApplyCommand(w, d, env).run.world)
  {
    var w' := ApplyCommand(w, d, env).run.world;
    FinishedWorld(w, l0, d, env);
    forall op
      ensures op in w.sidecars ==> (op in w'.sidecars <==> op in CommitSweep(Stores(l0, w.sidecars), env.probes).sidecars)
      ensures op in w.sidecars && op in w'.sidecars ==> w'.sidecars[op] == w.sidecars[op]
      ensures op in w'.sidecars ==> op in w.sidecars || Own(env, op)
    {
      SidecarsAfter(w, l0, d, env, op);
    }
    forall g | g in SweepLedger(l0, env.probes).outcome.pending ensures StandsStill(w, l0, env, w', g) { PendingStandsStill(w, l0, d, env, g); }
  }

  lemma AftermathLeaves(w: World, l0: Ledger, env: Env, w': World, g: GraphId)
    requires FullListing(env.probes, w.sidecars, w.live) && Aftermath(w, l0, env, w')
    ensures Leaves(Stores(l0, w.sidecars), env.probes, w.live, Stores(w'.ledger.value, w'.sidecars), w'.live, g, false)
  {
    if !Cleared(w.sidecars, w'.sidecars, g) {
      var op :| op in w.sidecars && w.sidecars[op].graph == g && op in w'.sidecars;
      StillPending(w, l0, env, g, op);
      assert StandsStill(w, l0, env, w', g);
    }
  }

  lemma TwoAftermathsClear(w: World, l0: Ledger, env: Env, w1: World, env': Env, w2: World, g: GraphId)
    requires FullListing(env.probes, w.sidecars, w.live) && Aftermath(w, l0, env, w1)
    requires FullListing(env'.probes, w1.sidecars, w1.live) && Aftermath(w1, w1.ledger.value, env', w2)
    requires forall o :: o in w.sidecars ==> !Own(env', o)
    ensures Cleared(w.sidecars, w2.sidecars, g) <==> Resolvable(Stores(l0, w.sidecars), w.live, g)
  {
    var s, s1 := Stores(l0, w.sidecars), Stores(w1.ledger.value, w1.sidecars);
    AftermathLeaves(w, l0, env, w1, g);
    TwoCommandsClear(s, env.probes, w.live, s1, env'.probes, w1.live, g, false);
    assert forall op :: op in w.sidecars ==> (op in w2.sidecars <==> op in CommitSweep(s1, env'.probes).sidecars);
  }

  /**
   Of the sidecars a finished apply found of a graph, nothing is left after the next finished apply exactly if a sweep can
   finish with the graph; both with full, exact listings and every drop done, whatever else the two runs do.
   */
  lemma TwoAppliesRetire(w: World, l0: Ledger, d: Desired, env: Env, w1: World, l1: Ledger, d': Desired, env': Env, g: GraphId)
    requires Runs(w, l0, d, env) && ApplyCommand(w, d, env).outcome.Finished? && (forall o :: env.drop(o))
    requires FullListing(env.probes, w.sidecars, w.live) && w1 == ApplyCommand(w, d, env).run.world
    requires Runs(w1, l1, d', env') && ApplyCommand(w1, d', env').outcome.Finished? && (forall o :: env'.drop(o))
    requires FullListing(env'.probes, w1.sidecars, w1.live) && forall o :: o in w.sidecars ==> !Own(env', o)
    ensures Cleared(w.sidecars, ApplyCommand(w1, d', env').run.world.sidecars, g) <==> Resolvable(Stores(l0, w.sidecars), w.live, g)
  {
    ApplyAftermath(w, l0, d, env);
    ApplyAftermath(w1, l1, d', env');
    TwoAftermathsClear(w, l0, env, w1, env', ApplyCommand(w1, d', env').run.world, g);
  }
}
