/** What an apply run records beside the resources: the applied configuration, the revision and every status. */
module AppliedRecords {
  import opened Addresses
  import opened Digests
  import opened Ledgers
  import opened Sweep
  import opened Plan
  import opened Classify
  import opened Dispositions
  import opened Apply
  import opened ApplySafety
  import opened ApplyLedger
  import opened ApplyOutcome
  import opened ApplyReport
  import opened CrashSafety
  import opened ApplyTheorems
  import opened ApplyStops
  import opened Recoveries
  import opened Retirement
  import opened ApplyRetries

  // ---- the applied configuration ----

  lemma {:induction false} MutateHeader(l: Ledger, cs: seq<Change>, d: Desired)
    ensures SameHeader(l, Mutate(l, cs, d))
    decreases |cs|
  {
    if cs != [] { MutateHeader(MutateOne(l, cs[0], d), cs[1..], d); }
  }

  lemma {:induction false} TombstoneHeader(l: Ledger, removed: seq<(GraphId, Option<ApprovalId>)>, actor: Option<string>)
    ensures SameHeader(l, TombstoneAll(l, removed, actor))
    decreases |removed|
  {
    if removed != [] { TombstoneHeader(TombstoneOne(l, removed[0], actor), removed[1..], actor); }
  }

  /** The configuration a ledger names as applied: the new one exactly if the resources agree with it, else the one named before. */
  ghost predicate NamesApplied(before: Ledger, after: Ledger, d: Desired) {
    after.configDigest == if Agrees(after.resources, d) then Some(d.configDigest) else before.configDigest
  }

  lemma NewLedgerNames(l: Ledger, cs: seq<Change>, removed: seq<(GraphId, Option<ApprovalId>)>, d: Desired, actor: Option<string>)
    requires MetadataDeclared(d)
    ensures var l' := NewLedger(l, cs, removed, d, actor); NamesApplied(l, l', d) && l'.revision == l.revision
  {
    MutateHeader(l, cs, d);
    TombstoneHeader(Mutate(l, cs, d), removed, actor);
    PlanEmptyIffAgrees(NewLedger(l, cs, removed, d, actor).resources, d);
  }

  lemma ExecutionNames(w: World, l0: Ledger, d: Desired, env: Env)
    requires MetadataDeclared(d)
    ensures var l' := Execute(w, l0, d, env).ledger; NamesApplied(l0, l', d) && l'.revision == l0.revision
  {
    var x := Execute(w, l0, d, env);
    SweepHeader(Swept(l0, NoOutcome), env.probes);
    NewLedgerNames(x.swept.ledger, x.final, x.deleted.removed, d, env.actor);
  }

  lemma CommitNames(l0: Ledger, x: Execution, d: Desired, env: Env)
    requires MetadataDeclared(d) && Commit(l0, x, d, env).outcome.Finished? && x.deleted.world.ledger == Some(l0)
    requires NamesApplied(l0, x.ledger, d) && x.ledger.revision == l0.revision
    ensures var rep := Commit(l0, x, d, env);
            && rep.run.world.ledger.Some?
            && var l' := rep.run.world.ledger.value;
               && NamesApplied(l0, l', d)
               && (rep.outcome.converged <==> Agrees(l'.resources, d))
               && (rep.outcome.written ==> l'.revision == NextRevision(l0.revision))
               && (!rep.outcome.written ==> l' == l0)
  {
    CommitKeepsRoots(l0, x, d, env);
    PlanEmptyIffAgrees(x.ledger.resources, d);
  }

  /**
   After every finished apply the stored ledger names the desired configuration as applied if its resources agree with it
   in digests, bindings and profiles, and otherwise the one it named before; the run reports convergence exactly then; and
   a written ledger is one revision up.
   */
  lemma AppliedConfiguration(w: World, l0: Ledger, d: Desired, env: Env)
    requires Runs(w, l0, d, env) && ApplyCommand(w, d, env).outcome.Finished?
    ensures var rep := ApplyCommand(w, d, env);
            && rep.run.world.ledger.Some?
            && var l' := rep.run.world.ledger.value;
               && NamesApplied(l0, l', d)
               && (rep.outcome.converged <==> Agrees(l'.resources, d))
               && (rep.outcome.written ==> l'.revision == NextRevision(l0.revision))
               && (!rep.outcome.written ==> l' == l0)
  {
    ExecutionNames(w, l0, d, env);
    FinishedCommits(w, l0, d, env);
    LedgerStands(w, l0, d, env);
    CommitNames(l0, Execute(w, l0, d, env), d, env);
  }

  lemma LedgerStands(w: World, l0: Ledger, d: Desired, env: Env)
    requires Runs(w, l0, d, env)
    ensures Execute(w, l0, d, env).deleted.world.ledger == Some(l0)
  {
    RunConcludes(w, l0, d, env);
    SoundWorld(CtxOf(w, l0, d, env), Execute(w, l0, d, env).deleted);
  }

  lemma NoStateYet(r: Run)
    requires OrderedTo(r, 4)
    ensures forall e :: e in r.log ==> !e.event.WroteState?
  {
    forall e | e in r.log ensures !e.event.WroteState? {
      var i :| 0 <= i < |r.log| && r.log[i] == e;
    }
  }

  lemma CommitWrites(l0: Ledger, x: Execution, d: Desired, env: Env, e: Entry)
    requires OrderedTo(x.deleted, 4) && e in Commit(l0, x, d, env).run.log && e.event.WroteState?
    ensures e.world.ledger == Some(Committed(x.ledger))
  {
    var r1 := if x.ledger != l0 && env.putState != Lost
              then Step(x.deleted, WroteState, x.deleted.world.(ledger := Some(Committed(x.ledger)))) else x.deleted;
    var ops, ids := x.swept.outcome.completed + x.deleted.completed, x.swept.outcome.consumed + ConsumedIds(x.deleted.removed);
    NoStateYet(x.deleted);
    DropAftermath(r1, ops, env.drop);
    MarkAftermath(DropAll(r1, ops, env.drop), Listed(env.files, ids), env.mark);
    assert e in r1.log;
  }

  lemma ConcludeWrites(w: World, l0: Ledger, x: Execution, d: Desired, env: Env, e: Entry)
    requires OrderedTo(x.paid.run, 3) && OrderedTo(x.deleted, 4) && e in Conclude(w, l0, x, d, env).run.log && e.event.WroteState?
    ensures e.world.ledger == Some(Committed(x.ledger))
  {
    NoStateYet(x.paid.run);
    if e in Commit(l0, x, d, env).run.log { CommitWrites(l0, x, d, env, e); }
  }

  /** Also where the write lands unacknowledged: every ledger an apply puts on storage names the configuration by the same rule. */
  lemma EveryWriteNamesApplied(w: World, l0: Ledger, d: Desired, env: Env, e: Entry)
    requires Runs(w, l0, d, env) && e in ApplyCommand(w, d, env).run.log && e.event.WroteState?
    ensures e.world.ledger.Some? && NamesApplied(l0, e.world.ledger.value, d) && e.world.ledger.value.revision == NextRevision(l0.revision)
  {
    ExecutionReported(w, l0, d, env);
    ExecutionNames(w, l0, d, env);
    ConcludeWrites(w, l0, Execute(w, l0, d, env), d, env, e);
  }

  // ---- statuses ----

  function StatusAt(l: Ledger, a: Address): Option<Status> {
    if a in l.statuses then Some(l.statuses[a]) else None
  }

  /** What a final change leaves as the status of its address. */
  ghost predicate StatusFollows(before: Option<Status>, c: Change, after: Option<Status>) {
    && (c.disposition == Some(Applied) && c.operation == Delete ==> after == None)
    && (c.disposition == Some(Applied) && c.operation != Delete ==> after == Some(StatusApplied))
    && (c.disposition == Some(Blocked) && c.reason.Some? && c.reason != Some(RecoveryPending) ==> after == Some(StatusBlocked(c.reason.value)))
    && (c.disposition == Some(Blocked) && c.reason == Some(RecoveryPending) ==> after == before)
    && (c.disposition == Some(Derived) || c.disposition == Some(Deferred) ==> after == before)
  }

  lemma {:induction false} StatusElsewhere(l: Ledger, cs: seq<Change>, d: Desired, a: Address)
    requires forall c :: c in cs ==> c.resource != a
    ensures StatusAt(Mutate(l, cs, d), a) == StatusAt(l, a)
    decreases |cs|
  {
    if cs != [] {
      assert cs[0] in cs;
      StatusElsewhere(MutateOne(l, cs[0], d), cs[1..], d, a);
    }
  }

  lemma {:induction false} StatusHere(l: Ledger, cs: seq<Change>, d: Desired, c: Change)
    requires UniqueResources(cs) && c in cs
    ensures StatusFollows(StatusAt(l, c.resource), c, StatusAt(Mutate(l, cs, d), c.resource))
    decreases |cs|
  {
    var l1, rest := MutateOne(l, cs[0], d), cs[1..];
    assert forall i :: 0 <= i < |rest| ==> rest[i] == cs[i + 1];
    if cs[0] == c {
      StatusElsewhere(l1, rest, d, c.resource);
    } else {
      assert StatusAt(l1, c.resource) == StatusAt(l, c.resource);
      StatusHere(l1, rest, d, c);
    }
  }

  lemma {:induction false} TombstoneStatus(l: Ledger, removed: seq<(GraphId, Option<ApprovalId>)>, actor: Option<string>, a: Address)
    ensures StatusAt(TombstoneAll(l, removed, actor), a) == if RemovedHere(removed, a) then None else StatusAt(l, a)
    decreases |removed|
  {
    if removed != [] {
      var rest := removed[1..];
      assert forall i :: 0 <= i < |rest| ==> rest[i] == removed[i + 1];
      TombstoneStatus(TombstoneOne(l, removed[0], actor), rest, actor, a);
      if RemovedHere(removed, a) {
        var i :| 0 <= i < |removed| && InSubtree(a, removed[i].0);
        if i > 0 { assert rest[i - 1] == removed[i]; }
      }
      if RemovedHere(rest, a) {
        var i :| 0 <= i < |rest| && InSubtree(a, rest[i].0);
        assert removed[i + 1] == rest[i];
      }
    }
  }

  /** The status at every address of the new ledger: cleared with a removed graph, else as its final change says, else kept. */
  lemma NewLedgerStatus(l: Ledger, cs: seq<Change>, removed: seq<(GraphId, Option<ApprovalId>)>, d: Desired, actor: Option<string>, a: Address)
    requires UniqueResources(cs)
    ensures var after := StatusAt(NewLedger(l, cs, removed, d, actor), a);
            && (RemovedHere(removed, a) ==> after == None)
            && (!RemovedHere(removed, a) ==> forall c :: c in cs && c.resource == a ==> StatusFollows(StatusAt(l, a), c, after))
            && (!RemovedHere(removed, a) && (forall c :: c in cs ==> c.resource != a) ==> after == StatusAt(l, a))
  {
    TombstoneStatus(Mutate(l, cs, d), removed, actor, a);
    forall c | c in cs && c.resource == a ensures StatusFollows(StatusAt(l, a), c, StatusAt(Mutate(l, cs, d), a)) { StatusHere(l, cs, d, c); }
    if forall c :: c in cs ==> c.resource != a { StatusElsewhere(l, cs, d, a); }
  }

  /** Statuses of a run: a graph's subtree loses them with the graph, any other address follows the final report. */
  lemma StatusesFollowReport(w: World, l0: Ledger, d: Desired, env: Env, a: Address)
    requires Runs(w, l0, d, env)
    ensures var x := Execute(w, l0, d, env);
            var before, after := StatusAt(x.swept.ledger, a), StatusAt(x.ledger, a);
            && (RemovedHere(x.deleted.removed, a) ==> after == None)
            && (!RemovedHere(x.deleted.removed, a) ==> forall c :: c in x.final && c.resource == a ==> StatusFollows(before, c, after))
            && (!RemovedHere(x.deleted.removed, a) && (forall c :: c in x.final ==> c.resource != a) ==> after == before)
  {
    var x := Execute(w, l0, d, env);
    RunConcludes(w, l0, d, env);
    NewLedgerStatus(x.swept.ledger, x.final, x.deleted.removed, d, env.actor, a);
  }

  // ---- the final report ----

  lemma {:induction false} DeletesKeepFailures(r: Run, ids: seq<GraphId>, d: Desired, env: Env, g: GraphId)
    requires g in r.failed && g !in ids
    ensures var r' := RunDeletes(r, ids, d, env); g in r'.failed && r'.failed[g] == r.failed[g]
    decreases |ids|
  {
    if ids != [] { DeletesKeepFailures(DeleteOne(r, ids[0], d, env), ids[1..], d, env, g); }
  }

  ghost predicate KeepsFailures(early: map<GraphId, Origin>, late: map<GraphId, Origin>) {
    forall g :: g in early ==> g in late && late[g] == early[g]
  }

  lemma LatePhasesKeep(r: Run, cs: seq<Change>, deletes: seq<GraphId>, d: Desired, env: Env)
    requires forall g :: g in r.failed ==> g !in deletes
    ensures KeepsFailures(r.failed, RunDeletes(PayAll(Paid(r, true), cs, env).run, deletes, d, env).failed)
  {
    var p := PayAll(Paid(r, true), cs, env);
    SuccessMeansPaid(Paid(r, true), cs, env);
    forall g | g in r.failed ensures var late := RunDeletes(p.run, deletes, d, env).failed; g in late && late[g] == r.failed[g] {
      DeletesKeepFailures(p.run, deletes, d, env, g);
    }
  }

  lemma FailedEarly(x: Execution, c: Ctx)
    requires Lists(x, c) && x.migrated.failed.Keys <= IdSet(ToRun(x.plan, Create, false)) + IdSet(ToRun(x.plan, Update, true))
    ensures forall g :: g in x.migrated.failed ==> g !in ToRun(x.demoted, Delete, false)
  {
    forall g | g in x.migrated.failed ensures g !in ToRun(x.demoted, Delete, false) {
      assert g in IdSet(ToRun(x.plan, Create, false)) + IdSet(ToRun(x.plan, Update, true));
    }
  }

  lemma FailuresStand(w: World, l0: Ledger, d: Desired, env: Env)
    requires Runs(w, l0, d, env)
    ensures var x := Execute(w, l0, d, env); KeepsFailures(x.migrated.failed, x.deleted.failed)
  {
    var x := Execute(w, l0, d, env);
    RunLists(w, l0, d, env);
    MigratedStanding(w, l0, d, env);
    FailedEarly(x, CtxOf(w, l0, d, env));
    LatePhasesKeep(x.migrated, x.demoted, ToRun(x.demoted, Delete, false), d, env);
  }

  /**
   The final report against the classified plan: a change that was to be executed is blocked exactly if it belongs to a
   graph that failed in any phase or is of a policy that depends on one, with the reason that failure calls for; every
   other change is reported as classified.
   */
  lemma FinalReport(w: World, l0: Ledger, d: Desired, env: Env, i: nat)
    requires Runs(w, l0, d, env) && i < |Execute(w, l0, d, env).plan|
    ensures var x := Execute(w, l0, d, env);
            && |x.final| == |x.plan|
            && var c, c' := x.plan[i], x.final[i];
               if c.disposition == Some(Applied) && HitBy(c.resource, x.deleted.failed.Keys, d.dependencies)
               then c' == c.(disposition := Some(Blocked), reason := Some(Blame(c.resource, x.deleted.failed)))
               else c' == c
  {
    var x := Execute(w, l0, d, env);
    FailuresStand(w, l0, d, env);
    DemotedTwice(x.plan, x.migrated.failed, x.deleted.failed, d.dependencies, i);
  }

  // ---- why a graph failed ----

  /** Every failure in `r'` was there in `r`, or is one of `ids` with this origin. */
  ghost predicate FailsAs(r: Run, r': Run, ids: set<GraphId>, origin: Origin) {
    forall g :: g in r'.failed ==> (g in r.failed && r'.failed[g] == r.failed[g]) || (g in ids && r'.failed[g] == origin)
  }

  lemma FailsAsTrans(r: Run, r1: Run, r2: Run, ids: set<GraphId>, more: set<GraphId>, origin: Origin)
    requires FailsAs(r, r1, ids, origin) && FailsAs(r1, r2, more, origin)
    ensures FailsAs(r, r2, ids + more, origin)
  {
  }

  lemma {:induction false} CreatesFailAs(r: Run, ids: seq<GraphId>, d: Desired, env: Env)
    ensures FailsAs(r, RunCreates(r, ids, d, env), IdSet(ids), CreateFailed)
    decreases |ids|
  {
    if ids != [] {
      var r1 := CreateOne(r, ids[0], d, env);
      assert FailsAs(r, r1, {ids[0]}, CreateFailed);
      CreatesFailAs(r1, ids[1..], d, env);
      FailsAsTrans(r, r1, RunCreates(r1, ids[1..], d, env), {ids[0]}, IdSet(ids[1..]), CreateFailed);
      assert IdSet(ids) == {ids[0]} + IdSet(ids[1..]);
    }
  }

  lemma {:induction false} MigrationsFailAs(r: Run, ids: seq<GraphId>, res: Resources, d: Desired, env: Env)
    ensures FailsAs(r, RunMigrations(r, ids, res, d, env), IdSet(ids), SchemaFailed)
    decreases |ids|
  {
    if ids != [] {
      var r1 := MigrateOne(r, ids[0], res, d, env);
      assert FailsAs(r, r1, {ids[0]}, SchemaFailed);
      MigrationsFailAs(r1, ids[1..], res, d, env);
      FailsAsTrans(r, r1, RunMigrations(r1, ids[1..], res, d, env), {ids[0]}, IdSet(ids[1..]), SchemaFailed);
      assert IdSet(ids) == {ids[0]} + IdSet(ids[1..]);
    }
  }

  lemma {:induction false} DeletesFailAs(r: Run, ids: seq<GraphId>, d: Desired, env: Env)
    ensures FailsAs(r, RunDeletes(r, ids, d, env), IdSet(ids), DeleteFailed)
    decreases |ids|
  {
    if ids != [] {
      var r1 := DeleteOne(r, ids[0], d, env);
      assert FailsAs(r, r1, {ids[0]}, DeleteFailed);
      DeletesFailAs(r1, ids[1..], d, env);
      FailsAsTrans(r, r1, RunDeletes(r1, ids[1..], d, env), {ids[0]}, IdSet(ids[1..]), DeleteFailed);
      assert IdSet(ids) == {ids[0]} + IdSet(ids[1..]);
    }
  }

  /** The failure of `g` comes from the phase that visited it. */
  ghost predicate FailedIn(origin: Origin, creates: seq<GraphId>, migrates: seq<GraphId>, deletes: seq<GraphId>, g: GraphId) {
    match origin
    case CreateFailed => g in creates
    case SchemaFailed => g in migrates
    case DeleteFailed => g in deletes
  }

  ghost predicate FailuresListed(x: Execution) {
    forall g :: g in x.deleted.failed ==>
      FailedIn(x.deleted.failed[g], ToRun(x.plan, Create, false), ToRun(x.plan, Update, true), ToRun(x.demoted, Delete, false), g)
  }

  lemma PhasesFailAs(x: Execution, w: World, res: Resources, d: Desired, env: Env)
    requires x.created == RunCreates(Start(w), ToRun(x.plan, Create, false), d, env)
    requires x.migrated == RunMigrations(x.created, ToRun(x.plan, Update, true), res, d, env)
    requires x.paid == PayAll(Paid(x.migrated, true), x.demoted, env)
    requires x.deleted == RunDeletes(x.paid.run, ToRun(x.demoted, Delete, false), d, env)
    ensures FailuresListed(x)
  {
    CreatesFailAs(Start(w), ToRun(x.plan, Create, false), d, env);
    MigrationsFailAs(x.created, ToRun(x.plan, Update, true), res, d, env);
    SuccessMeansPaid(Paid(x.migrated, true), x.demoted, env);
    DeletesFailAs(x.paid.run, ToRun(x.demoted, Delete, false), d, env);
  }

  ghost predicate FailedMoving(c: Ctx, pending: set<GraphId>, origin: Origin, g: GraphId) {
    match origin
    case CreateFailed => Moves(c, pending, g, Create, false)
    case SchemaFailed => Moves(c, pending, g, Update, true)
    case DeleteFailed => Moves(c, pending, g, Delete, false)
  }

  lemma OriginsByLists(x: Execution, c: Ctx)
    requires Lists(x, c) && FailuresListed(x)
    ensures forall g :: g in x.deleted.failed ==> FailedMoving(c, x.swept.outcome.pending, x.deleted.failed[g], g)
  {
  }

  /** The origin of a failure is the operation the run had planned for the graph. */
  lemma FailureOrigin(w: World, l0: Ledger, d: Desired, env: Env, g: GraphId)
    requires Runs(w, l0, d, env) && g in Execute(w, l0, d, env).deleted.failed
    ensures var x := Execute(w, l0, d, env); FailedMoving(CtxOf(w, l0, d, env), x.swept.outcome.pending, x.deleted.failed[g], g)
  {
    var c, x := CtxOf(w, l0, d, env), Execute(w, l0, d, env);
    RunLists(w, l0, d, env);
    ExecutionFailsIn(w, l0, d, env);
    OriginsByLists(x, c);
  }

  lemma ExecutionFailsIn(w: World, l0: Ledger, d: Desired, env: Env)
    ensures FailuresListed(Execute(w, l0, d, env))
  {
    PhasesFailAs(Execute(w, l0, d, env), w, SweepLedger(l0, env.probes).ledger.resources, d, env);
  }
}
