/** What a finished command leaves on storage: exactly the sidecars still needed, and every consumed approval marked. */
module Retirement {
  import opened Addresses
  import opened Digests
  import opened Ledgers
  import opened Sweep
  import opened Coverage
  import opened SweepFixpoint
  import opened Plan
  import opened Classify
  import opened Apply
  import opened ApplySafety
  import opened ApplyLedger
  import opened ApplyOutcome
  import opened ApplyReport
  import opened CrashSafety
  import opened ApplyIsSafe
  import opened ApplyTheorems
  import opened Convergence
  import opened ApplyStops
  import opened Recoveries
  import opened Refresh

  // ---- the log tells which sidecars stand ----

  ghost predicate Own(env: Env, op: OpId) {
    exists g :: op == env.op(g)
  }

  /** `op` is on storage exactly if it was in `w` or was written, and was not dropped; only this run's own ids are touched. */
  ghost predicate JournalAt(r: Run, w: World, env: Env, op: OpId) {
    && (op in r.world.sidecars <==> (op in w.sidecars || Called(r.log, WroteSidecar(op))) && !Called(r.log, DroppedSidecar(op)))
    && (op in w.sidecars && op in r.world.sidecars ==> r.world.sidecars[op] == w.sidecars[op])
    && (Called(r.log, WroteSidecar(op)) || Called(r.log, DroppedSidecar(op)) || op in r.completed ==> Own(env, op))
  }

  /** The journal of a run so far; the graphs in `todo` are still to come. */
  ghost predicate Journal(r: Run, w: World, env: Env, todo: set<GraphId>) {
    (forall op :: JournalAt(r, w, env, op)) && forall g :: g in todo ==> Unmentioned(r, env.op(g))
  }

  ghost predicate Unmentioned(r: Run, op: OpId) {
    !Called(r.log, WroteSidecar(op)) && !Called(r.log, DroppedSidecar(op))
  }

  lemma CalledStep(r: Run, e: Event, w: World, event: Event)
    ensures Called(Step(r, e, w).log, event) <==> Called(r.log, event) || e == event
  {
    var log' := Step(r, e, w).log;
    assert forall x :: x in log' <==> x in r.log || x == Entry(e, w);
    if Called(r.log, event) {
      var x :| x in r.log && x.event == event;
      assert x in log';
    }
    if e == event { assert Entry(e, w) in log'; }
  }

  /** A step changes the standing of an operation only by naming it. */
  lemma StepElsewhere(r: Run, e: Event, w': World, w: World, env: Env, op: OpId)
    requires JournalAt(r, w, env, op) && e != WroteSidecar(op) && e != DroppedSidecar(op)
    requires op in w'.sidecars <==> op in r.world.sidecars
    requires op in r.world.sidecars ==> w'.sidecars[op] == r.world.sidecars[op]
    ensures JournalAt(Step(r, e, w'), w, env, op) && (Unmentioned(r, op) ==> Unmentioned(Step(r, e, w'), op))
  {
    CalledStep(r, e, w', WroteSidecar(op));
    CalledStep(r, e, w', DroppedSidecar(op));
  }

  lemma PutJournal(r: Run, w: World, env: Env, todo: set<GraphId>, g: GraphId, s: Sidecar)
    requires Journal(r, w, env, todo) && FreshOps(env, w) && g in todo
    ensures Journal(PutSidecar(r, env.op(g), s), w, env, todo - {g})
  {
    var op := env.op(g);
    var r' := PutSidecar(r, op, s);
    forall o ensures JournalAt(r', w, env, o) && (o != op && Unmentioned(r, o) ==> Unmentioned(r', o)) {
      assert JournalAt(r, w, env, o);
      if o == op { PutOwn(r, w, env, g, s); } else { StepElsewhere(r, WroteSidecar(op), r'.world, w, env, o); }
    }
  }

  lemma PutOwn(r: Run, w: World, env: Env, g: GraphId, s: Sidecar)
    requires Unmentioned(r, env.op(g)) && env.op(g) !in w.sidecars
    ensures JournalAt(PutSidecar(r, env.op(g), s), w, env, env.op(g))
  {
    var op := env.op(g);
    CalledStep(r, WroteSidecar(op), PutSidecar(r, op, s).world, WroteSidecar(op));
    CalledStep(r, WroteSidecar(op), PutSidecar(r, op, s).world, DroppedSidecar(op));
  }

  lemma DropJournal(r: Run, w: World, env: Env, todo: set<GraphId>, g: GraphId, dropped: bool)
    requires Journal(r, w, env, todo) && FreshOps(env, w) && g !in todo
    ensures Journal(DropSidecar(r, env.op(g), dropped), w, env, todo)
  {
    if dropped {
      var op := env.op(g);
      var r' := DropSidecar(r, op, true);
      forall o ensures JournalAt(r', w, env, o) && (o != op && Unmentioned(r, o) ==> Unmentioned(r', o)) {
        assert JournalAt(r, w, env, o);
        if o == op { CalledStep(r, DroppedSidecar(op), r'.world, DroppedSidecar(op)); }
        else { StepElsewhere(r, DroppedSidecar(op), r'.world, w, env, o); }
      }
    }
  }

  /** A step that writes and drops no sidecar. */
  lemma QuietJournal(r: Run, e: Event, w': World, w: World, env: Env, todo: set<GraphId>)
    requires Journal(r, w, env, todo) && !e.WroteSidecar? && !e.DroppedSidecar? && w'.sidecars == r.world.sidecars
    ensures Journal(Step(r, e, w'), w, env, todo)
  {
    forall o ensures JournalAt(Step(r, e, w'), w, env, o) && (Unmentioned(r, o) ==> Unmentioned(Step(r, e, w'), o)) {
      assert JournalAt(r, w, env, o);
      StepElsewhere(r, e, w', w, env, o);
    }
  }

  /** Bookkeeping outside the log and the world. */
  lemma SameJournal(r: Run, r': Run, w: World, env: Env, todo: set<GraphId>, less: set<GraphId>)
    requires Journal(r, w, env, todo) && r'.log == r.log && r'.world == r.world && less <= todo
    requires forall op :: op in r'.completed ==> op in r.completed || Own(env, op)
    ensures Journal(r', w, env, less)
  {
    forall op ensures JournalAt(r', w, env, op) { assert JournalAt(r, w, env, op); }
    forall h | h in less ensures Unmentioned(r', env.op(h)) { assert Unmentioned(r, env.op(h)); }
  }

  lemma CompleteJournal(r: Run, w: World, env: Env, todo: set<GraphId>, g: GraphId)
    requires Journal(r, w, env, todo)
    ensures Journal(Complete(r, env.op(g)), w, env, todo)
  {
    SameJournal(r, Complete(r, env.op(g)), w, env, todo, todo);
  }

  lemma FailJournal(r: Run, w: World, env: Env, todo: set<GraphId>, g: GraphId, origin: Origin)
    requires Journal(r, w, env, todo)
    ensures Journal(Abort(r, g, origin), w, env, todo - {g}) && Journal(Skip(r, g, origin), w, env, todo - {g})
  {
    SameJournal(r, Abort(r, g, origin), w, env, todo, todo - {g});
    SameJournal(r, Skip(r, g, origin), w, env, todo, todo - {g});
  }

  lemma CreateJournal(r: Run, w: World, d: Desired, env: Env, todo: set<GraphId>, g: GraphId)
    requires Journal(r, w, env, todo) && FreshOps(env, w) && g in todo
    ensures Journal(CreateOne(r, g, d, env), w, env, todo - {g})
  {
    var dg := FindGraph(d.graphs, g);
    FailJournal(r, w, env, todo, g, CreateFailed);
    assert todo - {g} - {g} == todo - {g};
    if dg.None? {
      SameJournal(r, r, w, env, todo, todo - {g});
    } else if !r.aborted && env.putSidecar(g) != Lost {
      var s := Sidecar(GraphCreate, g, dg.value.schemaDigest, None, env.actor);
      PutJournal(r, w, env, todo, g, s);
      var r' := PutSidecar(r, env.op(g), s);
      FailJournal(r', w, env, todo - {g}, g, CreateFailed);
      if env.putSidecar(g) == Done { FencedCreateJournal(r', w, env, todo - {g}, g, dg.value); }
    }
  }

  lemma FencedCreateJournal(r: Run, w: World, env: Env, todo: set<GraphId>, g: GraphId, dg: DesiredGraph)
    requires Journal(r, w, env, todo) && FreshOps(env, w) && g !in todo
    ensures Journal(FencedCreate(r, g, dg, env), w, env, todo)
  {
    var op := env.op(g);
    assert todo - {g} == todo;
    if !SourceIntact(env, dg) {
      DropJournal(r, w, env, todo, g, env.drop(op));
      FailJournal(DropSidecar(r, op, env.drop(op)), w, env, todo, g, CreateFailed);
    } else {
      var e := InitCalled(g, env.init(g).InitOk?);
      var r' := MoveRoot(r, e, g, RootAfterInit(RootOf(r.world.live, g), env.init(g), dg.schemaDigest));
      QuietJournal(r, e, r'.world, w, env, todo);
      CompleteJournal(r', w, env, todo, g);
      FailJournal(r', w, env, todo, g, CreateFailed);
    }
  }

  lemma MigrateJournal(r: Run, w: World, res: Resources, d: Desired, env: Env, todo: set<GraphId>, g: GraphId)
    requires Journal(r, w, env, todo) && FreshOps(env, w) && g in todo
    ensures Journal(MigrateOne(r, g, res, d, env), w, env, todo - {g})
  {
    var dg := FindGraph(d.graphs, g);
    FailJournal(r, w, env, todo, g, SchemaFailed);
    assert todo - {g} - {g} == todo - {g};
    if dg.None? {
      SameJournal(r, r, w, env, todo, todo - {g});
    } else if !r.aborted && env.putSidecar(g) != Lost {
      var s := Sidecar(SchemaApply, g, dg.value.schemaDigest, None, env.actor);
      PutJournal(r, w, env, todo, g, s);
      var r' := PutSidecar(r, env.op(g), s);
      FailJournal(r', w, env, todo - {g}, g, SchemaFailed);
      if env.putSidecar(g) == Done { FencedMigrateJournal(r', w, res, env, todo - {g}, g, dg.value); }
    }
  }

  lemma FencedMigrateJournal(r: Run, w: World, res: Resources, env: Env, todo: set<GraphId>, g: GraphId, dg: DesiredGraph)
    requires Journal(r, w, env, todo) && FreshOps(env, w) && g !in todo
    ensures Journal(FencedMigrate(r, g, dg, res, env), w, env, todo)
  {
    var op := env.op(g);
    var root := RootAfterMigrate(RootOf(r.world.live, g), env.migrate(g), dg.schemaDigest);
    var e := SchemaApplyCalled(g, env.migrate(g).MigrateOk?);
    var r' := MoveRoot(r, e, g, root);
    assert todo - {g} == todo;
    QuietJournal(r, e, r'.world, w, env, todo);
    CompleteJournal(r', w, env, todo, g);
    if !env.migrate(g).MigrateOk? {
      var dropped := NothingMoved(env, g, res, root) && env.drop(op);
      DropJournal(r', w, env, todo, g, dropped);
      FailJournal(DropSidecar(r', op, dropped), w, env, todo, g, SchemaFailed);
    }
  }

  lemma DeleteJournal(r: Run, w: World, d: Desired, env: Env, todo: set<GraphId>, g: GraphId)
    requires Journal(r, w, env, todo) && FreshOps(env, w) && g in todo
    ensures Journal(DeleteOne(r, g, d, env), w, env, todo - {g})
  {
    var approval := Consumable(env.artifacts, g, d.configDigest);
    FailJournal(r, w, env, todo, g, DeleteFailed);
    assert todo - {g} - {g} == todo - {g};
    if !r.aborted && env.exportFree(g) && env.putSidecar(g) != Lost {
      var s := Sidecar(GraphDelete, g, Raw(""), approval, env.actor);
      PutJournal(r, w, env, todo, g, s);
      var r' := PutSidecar(r, env.op(g), s);
      FailJournal(r', w, env, todo - {g}, g, DeleteFailed);
      if env.putSidecar(g) == Done { FencedDeleteJournal(r', w, env, todo - {g}, g, approval); }
    }
  }

  lemma FencedDeleteJournal(r: Run, w: World, env: Env, todo: set<GraphId>, g: GraphId, approval: Option<ApprovalId>)
    requires Journal(r, w, env, todo) && g !in todo
    ensures Journal(FencedDelete(r, g, approval, env), w, env, todo)
  {
    var gone := env.remove(g).RemoveOk? || env.remove(g).gone;
    var e := RemoveCalled(g, env.remove(g).RemoveOk?);
    var r' := MoveRoot(r, e, g, if gone then Absent else RootOf(r.world.live, g));
    assert todo - {g} == todo;
    QuietJournal(r, e, r'.world, w, env, todo);
    FailJournal(r', w, env, todo, g, DeleteFailed);
    var r2 := r'.(removed := r'.removed + [(g, approval)]);
    SameJournal(r', r2, w, env, todo, todo);
    CompleteJournal(r2, w, env, todo, g);
  }

  // ---- the phases ----

  lemma NextIds(ids: seq<GraphId>, todo: set<GraphId>)
    requires ids != [] && NoDup(ids) && IdSet(ids) <= todo
    ensures NoDup(ids[1..]) && IdSet(ids[1..]) <= todo - {ids[0]} && ids[0] in todo && todo - {ids[0]} - IdSet(ids[1..]) == todo - IdSet(ids)
  {
    TailIds(ids, todo);
    assert IdSet(ids) == {ids[0]} + IdSet(ids[1..]);
  }

  lemma {:induction false} CreatesJournal(r: Run, w: World, d: Desired, env: Env, todo: set<GraphId>, ids: seq<GraphId>)
    requires Journal(r, w, env, todo) && FreshOps(env, w) && NoDup(ids) && IdSet(ids) <= todo
    ensures Journal(RunCreates(r, ids, d, env), w, env, todo - IdSet(ids))
    decreases |ids|
  {
    if ids == [] {
      assert todo - IdSet(ids) == todo;
    } else {
      NextIds(ids, todo);
      CreateJournal(r, w, d, env, todo, ids[0]);
      CreatesJournal(CreateOne(r, ids[0], d, env), w, d, env, todo - {ids[0]}, ids[1..]);
    }
  }

  lemma {:induction false} MigrationsJournal(r: Run, w: World, res: Resources, d: Desired, env: Env, todo: set<GraphId>, ids: seq<GraphId>)
    requires Journal(r, w, env, todo) && FreshOps(env, w) && NoDup(ids) && IdSet(ids) <= todo
    ensures Journal(RunMigrations(r, ids, res, d, env), w, env, todo - IdSet(ids))
    decreases |ids|
  {
    if ids == [] {
      assert todo - IdSet(ids) == todo;
    } else {
      NextIds(ids, todo);
      MigrateJournal(r, w, res, d, env, todo, ids[0]);
      MigrationsJournal(MigrateOne(r, ids[0], res, d, env), w, res, d, env, todo - {ids[0]}, ids[1..]);
    }
  }

  lemma {:induction false} DeletesJournal(r: Run, w: World, d: Desired, env: Env, todo: set<GraphId>, ids: seq<GraphId>)
    requires Journal(r, w, env, todo) && FreshOps(env, w) && NoDup(ids) && IdSet(ids) <= todo
    ensures Journal(RunDeletes(r, ids, d, env), w, env, todo - IdSet(ids))
    decreases |ids|
  {
    if ids == [] {
      assert todo - IdSet(ids) == todo;
    } else {
      NextIds(ids, todo);
      DeleteJournal(r, w, d, env, todo, ids[0]);
      DeletesJournal(DeleteOne(r, ids[0], d, env), w, d, env, todo - {ids[0]}, ids[1..]);
    }
  }

  lemma {:induction false} PaymentsJournal(p: Paid, cs: seq<Change>, w: World, env: Env, todo: set<GraphId>)
    requires Journal(p.run, w, env, todo)
    ensures Journal(PayAll(p, cs, env).run, w, env, todo)
    decreases |cs|
  {
    if cs != [] {
      var p1 := PayOne(p, cs[0], env);
      if p1.run != p.run { QuietJournal(p.run, WroteBlob((cs[0].resource, OrEmpty(cs[0].after))), p1.run.world, w, env, todo); }
      PaymentsJournal(p1, cs[1..], w, env, todo);
    }
  }

  lemma PhasesJournal(w: World, d: Desired, env: Env, res: Resources, creates: seq<GraphId>, migrates: seq<GraphId>, cs: seq<Change>, deletes: seq<GraphId>)
    requires FreshOps(env, w) && NoDup(creates) && NoDup(migrates) && NoDup(deletes)
    requires forall g :: g in migrates ==> g !in creates
    requires forall g :: g in deletes ==> g !in creates && g !in migrates
    ensures var r2 := RunMigrations(RunCreates(Start(w), creates, d, env), migrates, res, d, env);
            Journal(RunDeletes(PayAll(Paid(r2, true), cs, env).run, deletes, d, env), w, env, {})
  {
    var todo := IdSet(creates) + IdSet(migrates) + IdSet(deletes);
    var r1 := RunCreates(Start(w), creates, d, env);
    var r2 := RunMigrations(r1, migrates, res, d, env);
    var p := PayAll(Paid(r2, true), cs, env);
    assert Journal(Start(w), w, env, todo);
    CreatesJournal(Start(w), w, d, env, todo, creates);
    assert todo - IdSet(creates) == IdSet(migrates) + IdSet(deletes);
    MigrationsJournal(r1, w, res, d, env, IdSet(migrates) + IdSet(deletes), migrates);
    assert IdSet(migrates) + IdSet(deletes) - IdSet(migrates) == IdSet(deletes);
    PaymentsJournal(Paid(r2, true), cs, w, env, IdSet(deletes));
    DeletesJournal(p.run, w, d, env, IdSet(deletes), deletes);
    assert IdSet(deletes) - IdSet(deletes) == {};
  }

  lemma ExecutionJournal(w: World, l0: Ledger, d: Desired, env: Env)
    requires Runs(w, l0, d, env)
    ensures Journal(Execute(w, l0, d, env).deleted, w, env, {})
  {
    var x := Execute(w, l0, d, env);
    RunLists(w, l0, d, env);
    PhasesJournal(w, d, env, x.swept.ledger.resources, ToRun(x.plan, Create, false), ToRun(x.plan, Update, true), x.demoted, ToRun(x.demoted, Delete, false));
  }

  // ---- retirement ----

  lemma {:induction false} DropAllAt(r: Run, ops: seq<OpId>, drop: OpId -> bool, op: OpId)
    ensures var w, w' := r.world, DropAll(r, ops, drop).world;
            && (op in w'.sidecars <==> op in w.sidecars && !(op in ops && drop(op)))
            && (op in w'.sidecars ==> w'.sidecars[op] == w.sidecars[op]) && w'.approvals == w.approvals
    decreases |ops|
  {
    if ops != [] { DropAllAt(DropSidecar(r, ops[0], drop(ops[0])), ops[1..], drop, op); }
  }

  lemma {:induction false} MarkAllAt(r: Run, ids: seq<ApprovalId>, mark: ApprovalId -> bool, id: ApprovalId)
    ensures var w, w' := r.world, MarkAll(r, ids, mark).world;
            && (id in w'.approvals <==> id in w.approvals)
            && (id in w.approvals ==> w'.approvals[id] == w.approvals[id].(consumed := w.approvals[id].consumed || (id in ids && mark(id))))
            && w'.sidecars == w.sidecars
    decreases |ids|
  {
    if ids != [] { MarkAllAt(MarkOne(r, ids[0], mark(ids[0])), ids[1..], mark, id); }
  }

  /** Retirement after the write: the sidecars among `ops` go, as far as dropping goes through. */
  ghost predicate DropsOnly(before: map<OpId, Sidecar>, after: map<OpId, Sidecar>, ops: seq<OpId>, drop: OpId -> bool) {
    && (forall op :: op in after <==> op in before && !(op in ops && drop(op)))
    && (forall op :: op in after ==> after[op] == before[op])
  }

  /** And the listed files among `ids` are marked consumed, as far as marking goes through. */
  ghost predicate MarksOnly(before: map<ApprovalId, Approval>, after: map<ApprovalId, Approval>, files: seq<ApprovalId>,
                            ids: seq<ApprovalId>, mark: ApprovalId -> bool) {
    && (forall id :: id in after <==> id in before)
    && (forall id :: id in before ==> after[id] == before[id].(consumed := before[id].consumed || (id in files && id in ids && mark(id))))
  }

  ghost predicate Retires(before: World, after: World, ops: seq<OpId>, files: seq<ApprovalId>, ids: seq<ApprovalId>,
                          drop: OpId -> bool, mark: ApprovalId -> bool) {
    DropsOnly(before.sidecars, after.sidecars, ops, drop) && MarksOnly(before.approvals, after.approvals, files, ids, mark)
  }

  lemma DropsExactly(r: Run, ops: seq<OpId>, drop: OpId -> bool)
    ensures DropsOnly(r.world.sidecars, DropAll(r, ops, drop).world.sidecars, ops, drop)
    ensures DropAll(r, ops, drop).world.approvals == r.world.approvals
  {
    var before, after := r.world.sidecars, DropAll(r, ops, drop).world.sidecars;
    forall op ensures op in after <==> op in before && !(op in ops && drop(op)) { DropAllAt(r, ops, drop, op); }
    forall op | op in after ensures after[op] == before[op] { DropAllAt(r, ops, drop, op); }
    DropAllAt(r, ops, drop, "");
  }

  lemma MarksExactly(r: Run, files: seq<ApprovalId>, ids: seq<ApprovalId>, mark: ApprovalId -> bool)
    ensures MarksOnly(r.world.approvals, MarkAll(r, Listed(files, ids), mark).world.approvals, files, ids, mark)
    ensures MarkAll(r, Listed(files, ids), mark).world.sidecars == r.world.sidecars
  {
    var before, after := r.world.approvals, MarkAll(r, Listed(files, ids), mark).world.approvals;
    forall id ensures id in after <==> id in before { MarkAllAt(r, Listed(files, ids), mark, id); }
    forall id | id in before
      ensures after[id] == before[id].(consumed := before[id].consumed || (id in files && id in ids && mark(id)))
    {
      MarkAllAt(r, Listed(files, ids), mark, id);
    }
    MarkAllAt(r, Listed(files, ids), mark, "");
  }

  lemma RetiresExactly(r: Run, ops: seq<OpId>, files: seq<ApprovalId>, ids: seq<ApprovalId>, drop: OpId -> bool, mark: ApprovalId -> bool)
    ensures Retires(r.world, MarkAll(DropAll(r, ops, drop), Listed(files, ids), mark).world, ops, files, ids, drop, mark)
  {
    DropsExactly(r, ops, drop);
    MarksExactly(DropAll(r, ops, drop), files, ids, mark);
  }

  lemma CommitRetires(l0: Ledger, x: Execution, d: Desired, env: Env)
    requires Commit(l0, x, d, env).outcome.Finished?
    ensures Retires(x.deleted.world, Commit(l0, x, d, env).run.world, x.swept.outcome.completed + x.deleted.completed,
                    env.files, x.swept.outcome.consumed + ConsumedIds(x.deleted.removed), env.drop, env.mark)
  {
    var r1 :=
      if x.ledger != l0 then Step(x.deleted, WroteState, x.deleted.world.(ledger := Some(Committed(x.ledger)))) else x.deleted;
    RetiresExactly(r1, x.swept.outcome.completed + x.deleted.completed, env.files, x.swept.outcome.consumed + ConsumedIds(x.deleted.removed), env.drop, env.mark);
  }

  lemma FinishedCommits(w: World, l0: Ledger, d: Desired, env: Env)
    requires w.ledger == Some(l0) && ApplyCommand(w, d, env).outcome.Finished?
    ensures ApplyCommand(w, d, env) == Commit(l0, Execute(w, l0, d, env), d, env)
  {
    ConcludedCommits(w, l0, Execute(w, l0, d, env), d, env);
  }

  lemma ConcludedCommits(w: World, l0: Ledger, x: Execution, d: Desired, env: Env)
    ensures Conclude(w, l0, x, d, env).outcome.Finished? ==> Conclude(w, l0, x, d, env) == Commit(l0, x, d, env)
  {
  }

  // ---- sidecars after an apply ----

  /** This run wrote `op` for one of its graphs, did not take it back, and did not retire it after its engine call succeeded. */
  ghost predicate LeftBehind(log: seq<Entry>, env: Env, op: OpId) {
    exists g :: op == env.op(g) && Called(log, WroteSidecar(op)) && !Called(log, DroppedSidecar(op)) && !(Succeeded(log, g) && env.drop(op))
  }

  lemma SweptAreOld(w: World, l0: Ledger, env: Env)
    requires Listing(env.probes, w.sidecars, w.live)
    ensures forall op :: op in SweepLedger(l0, env.probes).outcome.completed ==> op in w.sidecars
  {
    CompletedAreListed(Swept(l0, NoOutcome), env.probes);
  }

  /**
   The sidecars a finished apply leaves: of those it found, the ones its sweep did not complete; of those it wrote, the
   ones it neither took back nor saw succeed; and any whose drop failed.
   */
  lemma ApplyRetires(w: World, l0: Ledger, d: Desired, env: Env, op: OpId)
    requires Runs(w, l0, d, env) && ApplyCommand(w, d, env).outcome.Finished?
    ensures var x, w' := Execute(w, l0, d, env), ApplyCommand(w, d, env).run.world;
            && (op in w'.sidecars <==>
                  (op in w.sidecars && !(op in x.swept.outcome.completed && env.drop(op))) || LeftBehind(x.deleted.log, env, op))
            && (op in w.sidecars && op in w'.sidecars ==> w'.sidecars[op] == w.sidecars[op])
  {
    FinishedCommits(w, l0, d, env);
    var x := Execute(w, l0, d, env);
    CommitRetires(l0, x, d, env);
    ExecutionJournal(w, l0, d, env);
    ExecutionReported(w, l0, d, env);
    SweptAreOld(w, l0, env);
    RetiredIff(w, x.deleted, env, x.swept.outcome.completed, op);
  }

  lemma RetiredIff(w: World, r: Run, env: Env, swept: seq<OpId>, op: OpId)
    requires Journal(r, w, env, {}) && Truthful(r, env) && FreshOps(env, w) && forall o :: o in swept ==> o in w.sidecars
    ensures op in r.world.sidecars && !(op in swept + r.completed && env.drop(op)) <==>
            (op in w.sidecars && !(op in swept && env.drop(op))) || LeftBehind(r.log, env, op)
    ensures op in w.sidecars && op in r.world.sidecars ==> r.world.sidecars[op] == w.sidecars[op]
  {
    assert JournalAt(r, w, env, op);
    if Own(env, op) {
      var g :| op == env.op(g);
      assert op !in w.sidecars;
      assert op in r.completed <==> Succeeded(r.log, g);
      assert forall h :: op == env.op(h) ==> h == g;
    }
  }

  /** Of the sidecars it finds, a finished apply with all drops done leaves exactly those a committed sweep leaves. */
  lemma ApplyCommitsSweep(w: World, l0: Ledger, d: Desired, env: Env, op: OpId)
    requires Runs(w, l0, d, env) && ApplyCommand(w, d, env).outcome.Finished? && (forall o :: env.drop(o)) && op in w.sidecars
    ensures op in ApplyCommand(w, d, env).run.world.sidecars <==> op in CommitSweep(Stores(l0, w.sidecars), env.probes).sidecars
  {
    ApplyRetires(w, l0, d, env, op);
  }

  // ---- approvals after an apply ----

  /** The run spent approval `id`: a removal of its sweep or a removal it made itself names it. */
  ghost predicate Spent(l0: Ledger, x: Execution, d: Desired, env: Env, id: ApprovalId) {
    || (exists i: nat :: SpendsAt(Swept(l0, NoOutcome), env.probes, i, id))
    || (exists g :: Called(x.deleted.log, RemoveCalled(g, true)) && Consumable(env.artifacts, g, d.configDigest) == Some(id))
  }

  lemma {:induction false} ConsumedIdsIff(removed: seq<(GraphId, Option<ApprovalId>)>, id: ApprovalId)
    ensures id in ConsumedIds(removed) <==> exists y :: y in removed && y.1 == Some(id)
  {
    if removed != [] {
      ConsumedIdsIff(removed[1..], id);
      assert forall y :: y in removed <==> y == removed[0] || y in removed[1..];
    }
  }

  lemma RemovedIff(w: World, l0: Ledger, d: Desired, env: Env, g: GraphId)
    requires Runs(w, l0, d, env)
    ensures var x := Execute(w, l0, d, env);
            forall id :: (g, id) in x.deleted.removed <==> Called(x.deleted.log, RemoveCalled(g, true)) && id == Consumable(env.artifacts, g, d.configDigest)
  {
    var c, x := CtxOf(w, l0, d, env), Execute(w, l0, d, env);
    RunConcludes(w, l0, d, env);
    ReportMatchesCalls(w, l0, d, env, g);
    FinalMoves(c, x.swept.outcome.pending, x.final, x.deleted.failed, g, Delete, false);
    RemovedAre(c, x.swept.outcome.pending, x.deleted, g);
  }

  lemma RemovedAre(c: Ctx, pending: set<GraphId>, r: Run, g: GraphId)
    requires RemovedFacts(c, pending, r)
    ensures forall id :: (g, id) in r.removed <==>
              Moves(c, pending, g, Delete, false) && g !in r.failed && id == Consumable(c.env.artifacts, g, c.d.configDigest)
  {
    forall id ensures (g, id) in r.removed <==>
              Moves(c, pending, g, Delete, false) && g !in r.failed && id == Consumable(c.env.artifacts, g, c.d.configDigest)
    {
      var y := (g, id);
      assert y in r.removed <==> Deleting(c.res, c.d, c.env.artifacts, pending, y.0) && y.0 !in r.failed && y.1 == Consumable(c.env.artifacts, y.0, c.d.configDigest);
    }
  }

  lemma OwnSpent(w: World, l0: Ledger, d: Desired, env: Env, id: ApprovalId)
    requires Runs(w, l0, d, env)
    ensures var x := Execute(w, l0, d, env);
            (exists y :: y in x.deleted.removed && y.1 == Some(id)) <==>
            exists g :: Called(x.deleted.log, RemoveCalled(g, true)) && Consumable(env.artifacts, g, d.configDigest) == Some(id)
  {
    var x := Execute(w, l0, d, env);
    forall y | y in x.deleted.removed ensures Called(x.deleted.log, RemoveCalled(y.0, true)) && y.1 == Consumable(env.artifacts, y.0, d.configDigest) {
      RemovedIff(w, l0, d, env, y.0);
      assert (y.0, y.1) in x.deleted.removed;
    }
    forall g | Called(x.deleted.log, RemoveCalled(g, true)) ensures (g, Consumable(env.artifacts, g, d.configDigest)) in x.deleted.removed {
      RemovedIff(w, l0, d, env, g);
    }
  }

  lemma SpentIff(w: World, l0: Ledger, d: Desired, env: Env, id: ApprovalId)
    requires Runs(w, l0, d, env)
    ensures var x := Execute(w, l0, d, env);
            id in x.swept.outcome.consumed + ConsumedIds(x.deleted.removed) <==> Spent(l0, x, d, env, id)
  {
    SweepConsumesIff(Swept(l0, NoOutcome), env.probes, id);
    ConsumedIdsIff(Execute(w, l0, d, env).deleted.removed, id);
    OwnSpent(w, l0, d, env, id);
  }

  /** A finished apply marks exactly the listed files of the approvals it spent, as far as marking goes through. */
  lemma ApplyMarksSpent(w: World, l0: Ledger, d: Desired, env: Env, id: ApprovalId)
    requires Runs(w, l0, d, env) && ApplyCommand(w, d, env).outcome.Finished?
    ensures var x, w' := Execute(w, l0, d, env), ApplyCommand(w, d, env).run.world;
            && (id in w'.approvals <==> id in w.approvals)
            && (id in w.approvals ==>
                  w'.approvals[id] == w.approvals[id].(consumed := w.approvals[id].consumed || (id in env.files && env.mark(id) && Spent(l0, x, d, env, id))))
  {
    FinishedCommits(w, l0, d, env);
    var x := Execute(w, l0, d, env);
    CommitRetires(l0, x, d, env);
    ApprovalsStand(w, l0, d, env);
    SpentIff(w, l0, d, env, id);
  }

  lemma ApprovalsStand(w: World, l0: Ledger, d: Desired, env: Env)
    requires Runs(w, l0, d, env)
    ensures Execute(w, l0, d, env).deleted.world.approvals == w.approvals
  {
    RunConcludes(w, l0, d, env);
    SoundApprovals(CtxOf(w, l0, d, env), Execute(w, l0, d, env).deleted);
  }

  lemma SoundApprovals(c: Ctx, r: Run)
    requires Sound(c, r, {})
    ensures r.world.approvals == c.w.approvals
  {
  }

  // ---- tombstones ----

  lemma {:induction false} TombstoneAllNew(l: Ledger, removed: seq<(GraphId, Option<ApprovalId>)>, actor: Option<string>)
    ensures NewTombstones(l, TombstoneAll(l, removed, actor), ConsumedIds(removed))
    decreases |removed|
  {
    if removed != [] {
      var l1 := TombstoneOne(l, removed[0], actor);
      TombstoneAllNew(l1, removed[1..], actor);
      assert NewTombstones(l, l1, ConsumedIds(removed));
      TombstonesAmong(l1, TombstoneAll(l1, removed[1..], actor), ConsumedIds(removed[1..]), ConsumedIds(removed));
      NewTombstonesTrans(l, l1, TombstoneAll(l1, removed[1..], actor), ConsumedIds(removed), ConsumedIds(removed));
    }
  }

  lemma TombstonesAmong(l: Ledger, l': Ledger, ids: seq<ApprovalId>, more: seq<ApprovalId>)
    requires NewTombstones(l, l', ids) && forall id :: id in ids ==> id in more
    ensures NewTombstones(l, l', more)
  {
  }

  lemma NewLedgerTombstones(l: Ledger, cs: seq<Change>, removed: seq<(GraphId, Option<ApprovalId>)>, d: Desired, actor: Option<string>)
    ensures NewTombstones(l, NewLedger(l, cs, removed, d, actor), ConsumedIds(removed))
  {
    MutateKeepsAudit(l, cs, d);
    TombstoneAllNew(Mutate(l, cs, d), removed, actor);
  }

  lemma WrittenTombstones(w: World, l0: Ledger, d: Desired, env: Env)
    ensures var x := Execute(w, l0, d, env); NewTombstones(l0, x.ledger, x.swept.outcome.consumed + ConsumedIds(x.deleted.removed))
  {
    var x := Execute(w, l0, d, env);
    var ids := x.swept.outcome.consumed + ConsumedIds(x.deleted.removed);
    SweepTombstones(Swept(l0, NoOutcome), env.probes);
    NewLedgerTombstones(x.swept.ledger, x.final, x.deleted.removed, d, env.actor);
    TombstonesAmong(l0, x.swept.ledger, x.swept.outcome.consumed, ids);
    TombstonesAmong(x.swept.ledger, x.ledger, ConsumedIds(x.deleted.removed), ids);
    NewTombstonesTrans(l0, x.swept.ledger, x.ledger, ids, ids);
  }

  /** The ledger at `a` holds a tombstone naming `id` that it did not hold before. */
  ghost predicate NewlyNames(l: Ledger, l': Ledger, a: Address, id: ApprovalId) {
    && a in l'.observations && l'.observations[a].Tombstone? && l'.observations[a].approval == Some(id)
    && !(a in l.observations && l.observations[a] == l'.observations[a])
  }

  /** Every approval a new tombstone names is spent, so its listed file ends consumed when marking goes through. */
  lemma TombstonedApprovalsAreMarked(w: World, l0: Ledger, d: Desired, env: Env, a: Address, id: ApprovalId)
    requires Runs(w, l0, d, env) && ApplyCommand(w, d, env).outcome.Finished?
    requires NewlyNames(l0, Execute(w, l0, d, env).ledger, a, id) && id in w.approvals && id in env.files && env.mark(id)
    ensures var w' := ApplyCommand(w, d, env).run.world; id in w'.approvals && w'.approvals[id].consumed
  {
    WrittenTombstones(w, l0, d, env);
    SpentIff(w, l0, d, env, id);
    ApplyMarksSpent(w, l0, d, env, id);
  }

  /** What a tombstone list leaves at a graph it names, when each graph comes with one approval. */
  lemma {:induction false} TombstoneHere(l: Ledger, removed: seq<(GraphId, Option<ApprovalId>)>, actor: Option<string>, g: GraphId, id: Option<ApprovalId>)
    requires forall y :: y in removed && y.0 == g ==> y.1 == id
    ensures var l' := TombstoneAll(l, removed, actor);
            if (g, id) in removed then Graph(g) in l'.observations && l'.observations[Graph(g)] == Tombstone(id, actor)
            else (Graph(g) in l'.observations <==> Graph(g) in l.observations) && (Graph(g) in l.observations ==> l'.observations[Graph(g)] == l.observations[Graph(g)])
    decreases |removed|
  {
    if removed != [] {
      assert removed[0] in removed;
      assert forall y :: y in removed <==> y == removed[0] || y in removed[1..];
      TombstoneHere(TombstoneOne(l, removed[0], actor), removed[1..], actor, g, id);
    }
  }

  lemma {:induction false} ConsumedHere(l: Ledger, removed: seq<(GraphId, Option<ApprovalId>)>, actor: Option<string>, id: ApprovalId)
    ensures var l' := TombstoneAll(l, removed, actor);
            if id in ConsumedIds(removed) then id in l'.approvalRecords && l'.approvalRecords[id] == "apply"
            else (id in l'.approvalRecords <==> id in l.approvalRecords) && (id in l.approvalRecords ==> l'.approvalRecords[id] == l.approvalRecords[id])
    decreases |removed|
  {
    if removed != [] { ConsumedHere(TombstoneOne(l, removed[0], actor), removed[1..], actor, id); }
  }

  /**
   The tombstone of every graph this run removed names the approval it consumed and the run's actor, and the approval is
   recorded as spent by apply; at any other graph the ledger keeps what the sweep left.
   */
  lemma RemovalIsRecorded(w: World, l0: Ledger, d: Desired, env: Env, g: GraphId)
    requires Runs(w, l0, d, env)
    ensures var x, id := Execute(w, l0, d, env), Consumable(env.artifacts, g, d.configDigest);
            var l, l' := x.swept.ledger, x.ledger;
            if Called(x.deleted.log, RemoveCalled(g, true)) then
              && Graph(g) in l'.observations && l'.observations[Graph(g)] == Tombstone(id, env.actor)
              && (id.Some? ==> id.value in l'.approvalRecords && l'.approvalRecords[id.value] == "apply")
            else (Graph(g) in l'.observations <==> Graph(g) in l.observations) && (Graph(g) in l.observations ==> l'.observations[Graph(g)] == l.observations[Graph(g)])
  {
    RemovedIff(w, l0, d, env, g);
    var x, id := Execute(w, l0, d, env), Consumable(env.artifacts, g, d.configDigest);
    RemovalInLedger(x.swept.ledger, x.final, x.deleted.removed, d, env.actor, g, id);
  }

  lemma RemovalInLedger(l: Ledger, cs: seq<Change>, removed: seq<(GraphId, Option<ApprovalId>)>, d: Desired, actor: Option<string>,
                        g: GraphId, id: Option<ApprovalId>)
    requires forall o :: (g, o) in removed ==> o == id
    ensures var l' := NewLedger(l, cs, removed, d, actor);
            if (g, id) in removed then
              && Graph(g) in l'.observations && l'.observations[Graph(g)] == Tombstone(id, actor)
              && (id.Some? ==> id.value in l'.approvalRecords && l'.approvalRecords[id.value] == "apply")
            else (Graph(g) in l'.observations <==> Graph(g) in l.observations) && (Graph(g) in l.observations ==> l'.observations[Graph(g)] == l.observations[Graph(g)])
  {
    var l1 := Mutate(l, cs, d);
    MutateKeepsAudit(l, cs, d);
    forall y | y in removed && y.0 == g ensures y.1 == id { assert (g, y.1) in removed; }
    TombstoneHere(l1, removed, actor, g, id);
    if id.Some? {
      ConsumedIdsIff(removed, id.value);
      ConsumedHere(l1, removed, actor, id.value);
    }
  }
}
