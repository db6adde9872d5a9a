/** From phases to the state write: which graphs finished, and that the ledger written says exactly so. */
module ApplyOutcome {
  import opened Addresses
  import opened Digests
  import opened Ledgers
  import opened Sweep
  import opened Coverage
  import opened Plan
  import opened Classify
  import opened Apply
  import opened ApplySafety
  import opened ApplyLedger

  function IdSet(ids: seq<GraphId>): set<GraphId> {
    set g | g in ids
  }

  /** A phase visited exactly `ids`: each one completed or failed, no other graph changed its standing. */
  ghost predicate Phase(c: Ctx, r: Run, r': Run, todo: set<GraphId>, ids: seq<GraphId>) {
    Sound(c, r', todo - IdSet(ids)) && Standing(c.env, r, r', ids)
  }

  ghost predicate Standing(env: Env, r: Run, r': Run, ids: seq<GraphId>) {
    && (forall g :: g in ids ==> (env.op(g) in r'.completed <==> g !in r'.failed))
    && (forall h :: h !in ids ==> (h in r'.failed <==> h in r.failed) && (env.op(h) in r'.completed <==> env.op(h) in r.completed))
  }

  lemma PhaseCons(c: Ctx, r: Run, r1: Run, r2: Run, todo: set<GraphId>, ids: seq<GraphId>)
    requires ids != [] && NoDup(ids)
    requires SoundVisit(c, r, r1, todo, ids[0]) && Phase(c, r1, r2, todo - {ids[0]}, ids[1..])
    ensures Phase(c, r, r2, todo, ids)
  {
    assert IdSet(ids) == {ids[0]} + IdSet(ids[1..]);
    assert todo - {ids[0]} - IdSet(ids[1..]) == todo - IdSet(ids);
    assert forall g :: g in ids <==> g == ids[0] || g in ids[1..];
    assert ids[0] !in ids[1..];
  }

  lemma TailIds(ids: seq<GraphId>, todo: set<GraphId>)
    requires ids != [] && NoDup(ids) && IdSet(ids) <= todo
    ensures NoDup(ids[1..]) && IdSet(ids[1..]) <= todo - {ids[0]} && ids[0] in todo
  {
    assert ids[0] in IdSet(ids);
    forall g | g in IdSet(ids[1..]) ensures g in todo && g != ids[0] { assert g in IdSet(ids); }
  }

  lemma {:induction false} CreatesPhase(c: Ctx, r: Run, ids: seq<GraphId>, todo: set<GraphId>)
    requires CtxOk(c) && Sound(c, r, todo) && NoDup(ids) && IdSet(ids) <= todo
    requires forall g :: g in ids ==> Graph(g) in c.d.digests
    ensures Phase(c, r, RunCreates(r, ids, c.d, c.env), todo, ids) && RunCreates(r, ids, c.d, c.env).removed == r.removed
    decreases |ids|
  {
    if ids == [] {
      assert todo - IdSet(ids) == todo;
    } else {
      TailIds(ids, todo);
      CreateVisit(c, r, todo, ids[0]);
      var r1 := CreateOne(r, ids[0], c.d, c.env);
      CreatesPhase(c, r1, ids[1..], todo - {ids[0]});
      PhaseCons(c, r, r1, RunCreates(r1, ids[1..], c.d, c.env), todo, ids);
    }
  }

  lemma {:induction false} MigrationsPhase(c: Ctx, r: Run, ids: seq<GraphId>, todo: set<GraphId>)
    requires CtxOk(c) && Sound(c, r, todo) && NoDup(ids) && IdSet(ids) <= todo
    requires forall g :: g in ids ==> Graph(g) in c.d.digests && Recorded(c.res, g) != Some(c.d.digests[Schema(g)])
    ensures Phase(c, r, RunMigrations(r, ids, c.res, c.d, c.env), todo, ids) && RunMigrations(r, ids, c.res, c.d, c.env).removed == r.removed
    decreases |ids|
  {
    if ids == [] {
      assert todo - IdSet(ids) == todo;
    } else {
      TailIds(ids, todo);
      MigrateVisit(c, r, todo, ids[0]);
      var r1 := MigrateOne(r, ids[0], c.res, c.d, c.env);
      MigrationsPhase(c, r1, ids[1..], todo - {ids[0]});
      PhaseCons(c, r, r1, RunMigrations(r1, ids[1..], c.res, c.d, c.env), todo, ids);
    }
  }

  /** What the delete phase adds to the list of removed graphs. */
  ghost predicate RemovedExactly(c: Ctx, r: Run, r': Run, ids: seq<GraphId>) {
    forall x :: x in r'.removed <==>
      x in r.removed || (x.0 in ids && c.env.op(x.0) in r'.completed && x.1 == Consumable(c.env.artifacts, x.0, c.d.configDigest))
  }

  lemma {:induction false} DeletesPhase(c: Ctx, r: Run, ids: seq<GraphId>, todo: set<GraphId>)
    requires CtxOk(c) && Sound(c, r, todo) && NoDup(ids) && IdSet(ids) <= todo
    requires forall g :: g in ids ==> Schema(g) !in c.d.digests
    ensures var r' := RunDeletes(r, ids, c.d, c.env); Phase(c, r, r', todo, ids) && RemovedExactly(c, r, r', ids)
    decreases |ids|
  {
    if ids == [] {
      assert todo - IdSet(ids) == todo;
    } else {
      TailIds(ids, todo);
      DeleteVisit(c, r, todo, ids[0]);
      var r1 := DeleteOne(r, ids[0], c.d, c.env);
      DeletesPhase(c, r1, ids[1..], todo - {ids[0]});
      var r2 := RunDeletes(r1, ids[1..], c.d, c.env);
      PhaseCons(c, r, r1, r2, todo, ids);
      assert forall g :: g in ids <==> g == ids[0] || g in ids[1..];
      assert ids[0] !in ids[1..];
    }
  }

  lemma PayOneSound(c: Ctx, p: Paid, ch: Change, todo: set<GraphId>)
    requires Sound(c, p.run, todo)
    ensures var p' := PayOne(p, ch, c.env);
            && Sound(c, p'.run, todo) && p'.run.failed == p.run.failed && p'.run.completed == p.run.completed
            && p'.run.removed == p.run.removed && p'.run.aborted == p.run.aborted
  {
    var r, r' := p.run, PayOne(p, ch, c.env).run;
    assert Kept(c, r') == Kept(c, r);
    forall h ensures Tracked(c, r', h) { assert Tracked(c, r, h); }
    forall h | h in todo ensures Unvisited(c, r', h) { assert Unvisited(c, r, h); }
  }

  lemma {:induction false} PayAllSound(c: Ctx, p: Paid, cs: seq<Change>, todo: set<GraphId>)
    requires Sound(c, p.run, todo)
    ensures var p' := PayAll(p, cs, c.env);
            && Sound(c, p'.run, todo) && p'.run.failed == p.run.failed && p'.run.completed == p.run.completed
            && p'.run.removed == p.run.removed && p'.run.aborted == p.run.aborted
    decreases |cs|
  {
    if cs != [] {
      PayOneSound(c, p, cs[0], todo);
      PayAllSound(c, PayOne(p, cs[0], c.env), cs[1..], todo);
    }
  }

  // ---- the execution as a whole ----

  /** The world and ledger a lock-holding run starts from, and what it may assume of its environment. */
  ghost predicate Ready(w: World, l0: Ledger, d: Desired, env: Env) {
    Paired(l0.resources) && Declared(d) && FreshOps(env, w) && Listing(env.probes, w.sidecars, w.live)
  }

  ghost function Uncovered(res: Resources, live: map<GraphId, Root>, sc: map<OpId, Sidecar>): iset<GraphId> {
    iset g: GraphId | !Covered(res, live, sc, g)
  }

  ghost function CtxOf(w: World, l0: Ledger, d: Desired, env: Env): Ctx {
    var swept := SweepLedger(l0, env.probes);
    var retired := OpSet(swept.outcome.completed);
    Ctx(w, l0, swept.ledger.resources, retired, d, env,
        Uncovered(l0.resources, w.live, w.sidecars), Uncovered(swept.ledger.resources, w.live, w.sidecars - retired))
  }

  /** A graph is covered after the sweep exactly if it was before and the sweep does not strand it. */
  lemma LostIffStranded(w: World, l0: Ledger, d: Desired, env: Env, g: GraphId)
    requires Paired(l0.resources) && Listing(env.probes, w.sidecars, w.live)
    ensures var c := CtxOf(w, l0, d, env);
            g in c.lost <==> g in c.adrift || SweepStrands(Swept(l0, NoOutcome), env.probes, w.live, w.sidecars, g)
  {
    SweepCoversIff(Swept(l0, NoOutcome), env.probes, w.live, w.sidecars, g);
    var done := SweepLedger(l0, env.probes).outcome.completed;
    assert done[0..] == done;
  }

  ghost predicate Moving(res: Resources, d: Desired, arts: Artifacts, pending: set<GraphId>, g: GraphId) {
    Creating(res, d, pending, g) || Migrating(res, d, pending, g) || Deleting(res, d, arts, pending, g)
  }

  lemma {:induction false} CompletedAreListed(st: Swept, ps: seq<Probe>)
    ensures forall op :: op in SweepAll(st, ps).outcome.completed ==> op in st.outcome.completed || exists p :: p in ps && p.op == op
    decreases |ps|
  {
    if ps != [] {
      SweepOneSummary(st, ps[0]);
      CompletedAreListed(SweepOne(st, ps[0]), ps[1..]);
      assert forall p :: p in ps <==> p == ps[0] || p in ps[1..];
    }
  }

  lemma StartSound(w: World, l0: Ledger, d: Desired, env: Env, todo: set<GraphId>)
    requires w.ledger == Some(l0) && Ready(w, l0, d, env)
    ensures var c := CtxOf(w, l0, d, env); CtxOk(c) && Paired(c.res) && Sound(c, Start(w), todo)
  {
    var c, r := CtxOf(w, l0, d, env), Start(w);
    SweepKeepsPaired(Swept(l0, NoOutcome), env.probes);
    CompletedAreListed(Swept(l0, NoOutcome), env.probes);
    assert Kept(c, r) == w.sidecars - c.retired;
    forall g ensures Tracked(c, r, g) { }
    forall g | g in todo ensures Unvisited(c, r, g) { }
  }

  /** Soundness of the run and the standing of every graph at its end. */
  ghost predicate RunFacts(c: Ctx, pending: set<GraphId>, paid: Run, r: Run) {
    && Paired(c.res) && CtxOk(c) && Sound(c, paid, {}) && Sound(c, r, {})
    && (forall g :: c.env.op(g) in r.completed <==> Moving(c.res, c.d, c.env.artifacts, pending, g) && g !in r.failed)
    && (forall g :: g in r.failed ==> Moving(c.res, c.d, c.env.artifacts, pending, g))
    && RemovedFacts(c, pending, r)
  }

  /** The removed list names exactly the graphs whose deletion finished, each with the approval it consumed. */
  ghost predicate RemovedFacts(c: Ctx, pending: set<GraphId>, r: Run) {
    forall y :: y in r.removed <==>
      Deleting(c.res, c.d, c.env.artifacts, pending, y.0) && y.0 !in r.failed
      && y.1 == Consumable(c.env.artifacts, y.0, c.d.configDigest)
  }

  /** The final changes: one per address, carrying desired digests, executable unless their graph failed. */
  ghost predicate ChangeFacts(plan: seq<Change>, final: seq<Change>, failed: map<GraphId, Origin>, d: Desired) {
    && UniqueResources(final) && Faithful(final, d)
    && (forall a, g, op :: InSubtree(a, g) ==> (AppliedAt(final, a, op) <==> AppliedAt(plan, a, op) && g !in failed))
    && (forall a, g, op :: InSubtree(a, g) && AppliedAt(plan, a, op) && g in failed ==> BlockedAt(final, a))
  }

  ghost predicate BlockedAt(cs: seq<Change>, a: Address) {
    exists i :: 0 <= i < |cs| && cs[i].resource == a && cs[i].disposition == Some(Blocked)
  }

  lemma DemotedBlocks(cs: seq<Change>, failed: map<GraphId, Origin>, deps: set<Dependency>, a: Address, g: GraphId, op: Operation)
    requires InSubtree(a, g) && g in failed && (AppliedAt(cs, a, op) || BlockedAt(cs, a))
    ensures BlockedAt(Demoted(cs, failed, deps), a)
  {
    var cs' := Demoted(cs, failed, deps);
    if BlockedAt(cs, a) {
      var i :| 0 <= i < |cs| && cs[i].resource == a && cs[i].disposition == Some(Blocked);
      assert cs'[i] == cs[i];
    } else {
      var i :| 0 <= i < |cs| && cs[i].resource == a && cs[i].operation == op && cs[i].disposition == Some(Applied);
      assert cs'[i].disposition == Some(Blocked);
    }
  }

  ghost predicate ExecutionFacts(w: World, l0: Ledger, d: Desired, env: Env, x: Execution) {
    && RunFacts(CtxOf(w, l0, d, env), x.swept.outcome.pending, x.paid.run, x.deleted)
    && ChangeFacts(x.plan, x.final, x.deleted.failed, d)
  }

  lemma PlanShape(res: Resources, d: Desired, arts: Artifacts, pending: set<GraphId>)
    requires MetadataDeclared(d)
    ensures UniqueResources(ClassifiedPlan(res, d, arts, pending)) && Faithful(ClassifiedPlan(res, d, arts, pending), d)
  {
    PlanFacts(res, d);
    PlanFaithful(res, d);
  }

  /** The lists of graphs the three phases visit are exactly the creating, migrating and deleting graphs. */
  lemma CreateList(res: Resources, d: Desired, arts: Artifacts, pending: set<GraphId>)
    requires Paired(res) && Declared(d)
    ensures var ids := ToRun(ClassifiedPlan(res, d, arts, pending), Create, false);
            NoDup(ids) && forall g :: g in ids <==> Creating(res, d, pending, g)
  {
    PlanShape(res, d, arts, pending);
    ToRunFacts(ClassifiedPlan(res, d, arts, pending), Create, false);
    forall g ensures AppliedAt(ClassifiedPlan(res, d, arts, pending), Visited(g, false), Create) <==> Creating(res, d, pending, g) {
      GraphAddressDispositions(res, d, arts, pending, g, Create);
    }
  }

  lemma MigrateList(res: Resources, d: Desired, arts: Artifacts, pending: set<GraphId>)
    requires Paired(res) && Declared(d)
    ensures var ids := ToRun(ClassifiedPlan(res, d, arts, pending), Update, true);
            NoDup(ids) && forall g :: g in ids <==> Migrating(res, d, pending, g)
  {
    PlanShape(res, d, arts, pending);
    ToRunFacts(ClassifiedPlan(res, d, arts, pending), Update, true);
    forall g ensures AppliedAt(ClassifiedPlan(res, d, arts, pending), Visited(g, true), Update) <==> Migrating(res, d, pending, g) {
      SchemaAddressDispositions(res, d, arts, pending, g, Update);
    }
  }

  /** Demoting graphs that failed to be created or migrated takes no graph delete off the list. */
  lemma DeleteList(res: Resources, d: Desired, arts: Artifacts, pending: set<GraphId>, failed: map<GraphId, Origin>)
    requires Paired(res) && Declared(d)
    requires forall g :: g in failed ==> Creating(res, d, pending, g) || Migrating(res, d, pending, g)
    ensures var ids := ToRun(Demoted(ClassifiedPlan(res, d, arts, pending), failed, d.dependencies), Delete, false);
            NoDup(ids) && forall g :: g in ids <==> Deleting(res, d, arts, pending, g)
  {
    var plan := ClassifiedPlan(res, d, arts, pending);
    PlanShape(res, d, arts, pending);
    DemotedUnique(plan, failed, d.dependencies);
    ToRunFacts(Demoted(plan, failed, d.dependencies), Delete, false);
    DisjointMoves(res, d, arts, pending);
    forall g ensures AppliedAt(Demoted(plan, failed, d.dependencies), Visited(g, false), Delete) <==> Deleting(res, d, arts, pending, g) {
      GraphAddressDispositions(res, d, arts, pending, g, Delete);
      DemotedAt(plan, failed, d.dependencies, Graph(g), g, Delete);
    }
  }

  lemma DisjointMoves(res: Resources, d: Desired, arts: Artifacts, pending: set<GraphId>)
    requires Paired(res) && Declared(d)
    ensures forall g :: !(Creating(res, d, pending, g) && Migrating(res, d, pending, g))
    ensures forall g :: !(Creating(res, d, pending, g) && Deleting(res, d, arts, pending, g))
    ensures forall g :: !(Migrating(res, d, pending, g) && Deleting(res, d, arts, pending, g))
  {
  }

  /** After some phases over pairwise disjoint lists: every visited graph completed or failed, no other did either. */
  ghost predicate Visitation(env: Env, r: Run, ids: set<GraphId>) {
    && (forall g :: env.op(g) in r.completed <==> g in ids && g !in r.failed)
    && r.failed.Keys <= ids
  }

  lemma VisitMore(env: Env, r: Run, r': Run, ids: set<GraphId>, more: seq<GraphId>)
    requires Visitation(env, r, ids) && Standing(env, r, r', more) && ids !! IdSet(more)
    ensures Visitation(env, r', ids + IdSet(more)) && r.failed.Keys <= r'.failed.Keys
  {
    forall g | g in r.failed ensures g in r'.failed { assert g !in more; }
    forall g | g in r'.failed ensures g in ids + IdSet(more) { if g !in more { assert g in r.failed; } }
  }

  lemma MovePhases(c: Ctx, creates: seq<GraphId>, migrates: seq<GraphId>, todo: set<GraphId>)
    requires CtxOk(c) && Sound(c, Start(c.w), todo)
    requires NoDup(creates) && NoDup(migrates) && IdSet(creates) !! IdSet(migrates) && IdSet(creates) + IdSet(migrates) <= todo
    requires forall g :: g in creates ==> Graph(g) in c.d.digests
    requires forall g :: g in migrates ==> Graph(g) in c.d.digests && Recorded(c.res, g) != Some(c.d.digests[Schema(g)])
    ensures var r := RunMigrations(RunCreates(Start(c.w), creates, c.d, c.env), migrates, c.res, c.d, c.env);
            && Sound(c, r, todo - IdSet(creates) - IdSet(migrates)) && r.removed == []
            && Visitation(c.env, r, IdSet(creates) + IdSet(migrates))
  {
    CreatesPhase(c, Start(c.w), creates, todo);
    var r1 := RunCreates(Start(c.w), creates, c.d, c.env);
    assert Visitation(c.env, Start(c.w), {});
    VisitMore(c.env, Start(c.w), r1, {}, creates);
    assert {} + IdSet(creates) == IdSet(creates);
    MigrationsPhase(c, r1, migrates, todo - IdSet(creates));
    VisitMore(c.env, r1, RunMigrations(r1, migrates, c.res, c.d, c.env), IdSet(creates), migrates);
  }

  lemma DeletePhase(c: Ctx, p: Paid, deletes: seq<GraphId>, moved: set<GraphId>, todo: set<GraphId>)
    requires CtxOk(c) && Sound(c, p.run, todo) && p.run.removed == [] && Visitation(c.env, p.run, moved)
    requires NoDup(deletes) && IdSet(deletes) <= todo && moved !! IdSet(deletes)
    requires forall g :: g in deletes ==> Schema(g) !in c.d.digests
    ensures var r := RunDeletes(p.run, deletes, c.d, c.env);
            && Sound(c, p.run, {}) && Sound(c, r, {}) && Visitation(c.env, r, moved + IdSet(deletes)) && p.run.failed.Keys <= r.failed.Keys
            && forall y :: y in r.removed <==> y.0 in deletes && y.0 !in r.failed && y.1 == Consumable(c.env.artifacts, y.0, c.d.configDigest)
  {
    DeletesPhase(c, p.run, deletes, todo);
    var r := RunDeletes(p.run, deletes, c.d, c.env);
    VisitMore(c.env, p.run, r, moved, deletes);
    Shrink(c, p.run, todo);
    Shrink(c, r, todo - IdSet(deletes));
  }

  /** All phases over three disjoint lists of graphs. */
  lemma PhasesOver(c: Ctx, creates: seq<GraphId>, migrates: seq<GraphId>, cs: seq<Change>, deletes: seq<GraphId>)
    requires CtxOk(c) && Sound(c, Start(c.w), IdSet(creates) + IdSet(migrates) + IdSet(deletes))
    requires NoDup(creates) && NoDup(migrates) && NoDup(deletes)
    requires IdSet(creates) !! IdSet(migrates) !! IdSet(deletes)
    requires forall g :: g in creates ==> Graph(g) in c.d.digests
    requires forall g :: g in migrates ==> Graph(g) in c.d.digests && Recorded(c.res, g) != Some(c.d.digests[Schema(g)])
    requires forall g :: g in deletes ==> Schema(g) !in c.d.digests
    ensures var r2 := RunMigrations(RunCreates(Start(c.w), creates, c.d, c.env), migrates, c.res, c.d, c.env);
            var r2' := PayAll(Paid(r2, true), cs, c.env).run;
            var r3 := RunDeletes(r2', deletes, c.d, c.env);
            && Sound(c, r2', {}) && Sound(c, r3, {}) && r2.failed.Keys <= r3.failed.Keys
            && Visitation(c.env, r2, IdSet(creates) + IdSet(migrates))
            && Visitation(c.env, r3, IdSet(creates) + IdSet(migrates) + IdSet(deletes))
            && forall y :: y in r3.removed <==> y.0 in deletes && y.0 !in r3.failed && y.1 == Consumable(c.env.artifacts, y.0, c.d.configDigest)
  {
    var todo := IdSet(creates) + IdSet(migrates) + IdSet(deletes);
    MovePhases(c, creates, migrates, todo);
    var r2 := RunMigrations(RunCreates(Start(c.w), creates, c.d, c.env), migrates, c.res, c.d, c.env);
    var rest := todo - IdSet(creates) - IdSet(migrates);
    PayAllSound(c, Paid(r2, true), cs, rest);
    assert IdSet(deletes) <= rest;
    DeletePhase(c, PayAll(Paid(r2, true), cs, c.env), deletes, IdSet(creates) + IdSet(migrates), rest);
  }

  /** The lists of an execution, and that they are what its phases visit. */
  lemma ExecutionLists(c: Ctx, pending: set<GraphId>, failed: map<GraphId, Origin>)
    requires Paired(c.res) && Declared(c.d)
    ensures var plan := ClassifiedPlan(c.res, c.d, c.env.artifacts, pending);
            var creates, migrates := ToRun(plan, Create, false), ToRun(plan, Update, true);
            var deletes := ToRun(Demoted(plan, failed, c.d.dependencies), Delete, false);
            && NoDup(creates) && NoDup(migrates)
            && IdSet(creates) !! IdSet(migrates)
            && (forall g :: g in creates <==> Creating(c.res, c.d, pending, g))
            && (forall g :: g in migrates <==> Migrating(c.res, c.d, pending, g))
            && (failed.Keys <= IdSet(creates) + IdSet(migrates) ==>
                  && NoDup(deletes) && (IdSet(creates) + IdSet(migrates)) !! IdSet(deletes)
                  && forall g :: g in deletes <==> Deleting(c.res, c.d, c.env.artifacts, pending, g))
  {
    CreateList(c.res, c.d, c.env.artifacts, pending);
    MigrateList(c.res, c.d, c.env.artifacts, pending);
    DisjointMoves(c.res, c.d, c.env.artifacts, pending);
    var plan := ClassifiedPlan(c.res, c.d, c.env.artifacts, pending);
    var creates, migrates := ToRun(plan, Create, false), ToRun(plan, Update, true);
    if failed.Keys <= IdSet(creates) + IdSet(migrates) {
      forall g | g in failed ensures Creating(c.res, c.d, pending, g) || Migrating(c.res, c.d, pending, g) {
        assert g in IdSet(creates) + IdSet(migrates);
      }
      DeleteList(c.res, c.d, c.env.artifacts, pending, failed);
    }
  }

  /** The standing of every graph at the end of the run, given who was to be visited. */
  lemma StandingIsMoving(c: Ctx, pending: set<GraphId>, creates: seq<GraphId>, migrates: seq<GraphId>, deletes: seq<GraphId>, r: Run)
    requires Visitation(c.env, r, IdSet(creates) + IdSet(migrates) + IdSet(deletes))
    requires forall g :: g in creates <==> Creating(c.res, c.d, pending, g)
    requires forall g :: g in migrates <==> Migrating(c.res, c.d, pending, g)
    requires forall g :: g in deletes <==> Deleting(c.res, c.d, c.env.artifacts, pending, g)
    ensures forall g :: c.env.op(g) in r.completed <==> Moving(c.res, c.d, c.env.artifacts, pending, g) && g !in r.failed
    ensures forall g :: g in r.failed ==> Moving(c.res, c.d, c.env.artifacts, pending, g)
  {
    forall g ensures g in IdSet(creates) + IdSet(migrates) + IdSet(deletes) <==> Moving(c.res, c.d, c.env.artifacts, pending, g) {
      assert g in creates <==> Creating(c.res, c.d, pending, g);
      assert g in migrates <==> Migrating(c.res, c.d, pending, g);
      assert g in deletes <==> Deleting(c.res, c.d, c.env.artifacts, pending, g);
    }
  }

  lemma MigratedStanding(w: World, l0: Ledger, d: Desired, env: Env)
    requires w.ledger == Some(l0) && Ready(w, l0, d, env)
    ensures var x := Execute(w, l0, d, env);
            x.migrated.failed.Keys <= IdSet(ToRun(x.plan, Create, false)) + IdSet(ToRun(x.plan, Update, true))
  {
    var c, x := CtxOf(w, l0, d, env), Execute(w, l0, d, env);
    var creates, migrates := ToRun(x.plan, Create, false), ToRun(x.plan, Update, true);
    StartSound(w, l0, d, env, IdSet(creates) + IdSet(migrates));
    ExecutionLists(c, x.swept.outcome.pending, map[]);
    MovePhases(c, creates, migrates, IdSet(creates) + IdSet(migrates));
  }

  lemma ExecuteRunFacts(w: World, l0: Ledger, d: Desired, env: Env)
    requires w.ledger == Some(l0) && Ready(w, l0, d, env)
    ensures var c, x := CtxOf(w, l0, d, env), Execute(w, l0, d, env);
            RunFacts(c, x.swept.outcome.pending, x.paid.run, x.deleted) && x.migrated.failed.Keys <= x.deleted.failed.Keys
  {
    var c, x := CtxOf(w, l0, d, env), Execute(w, l0, d, env);
    var creates, migrates, deletes := ToRun(x.plan, Create, false), ToRun(x.plan, Update, true), ToRun(x.demoted, Delete, false);
    MigratedStanding(w, l0, d, env);
    StartSound(w, l0, d, env, IdSet(creates) + IdSet(migrates) + IdSet(deletes));
    ExecutionLists(c, x.swept.outcome.pending, x.migrated.failed);
    PhasesOver(c, creates, migrates, x.demoted, deletes);
    StandingIsMoving(c, x.swept.outcome.pending, creates, migrates, deletes, x.deleted);
  }

  lemma ExecuteFacts(w: World, l0: Ledger, d: Desired, env: Env)
    requires w.ledger == Some(l0) && Ready(w, l0, d, env)
    ensures ExecutionFacts(w, l0, d, env, Execute(w, l0, d, env))
  {
    var c, x := CtxOf(w, l0, d, env), Execute(w, l0, d, env);
    ExecuteRunFacts(w, l0, d, env);
    FinalChanges(x, d, c.res, env.artifacts, x.swept.outcome.pending);
  }

  lemma Shrink(c: Ctx, r: Run, todo: set<GraphId>)
    requires Sound(c, r, todo)
    ensures Sound(c, r, {})
  {
  }

  lemma FinalChanges(x: Execution, d: Desired, res: Resources, arts: Artifacts, pending: set<GraphId>)
    requires MetadataDeclared(d)
    requires x.plan == ClassifiedPlan(res, d, arts, pending)
    requires x.demoted == Demoted(x.plan, x.migrated.failed, d.dependencies)
    requires x.final == Demoted(x.demoted, x.deleted.failed, d.dependencies)
    requires x.migrated.failed.Keys <= x.deleted.failed.Keys
    ensures ChangeFacts(x.plan, x.final, x.deleted.failed, d)
  {
    PlanShape(res, d, arts, pending);
    DemotedUnique(x.plan, x.migrated.failed, d.dependencies);
    DemotedUnique(x.demoted, x.deleted.failed, d.dependencies);
    forall a, g, op | InSubtree(a, g)
      ensures AppliedAt(x.final, a, op) <==> AppliedAt(x.plan, a, op) && g !in x.deleted.failed
    {
      DemotedAt(x.plan, x.migrated.failed, d.dependencies, a, g, op);
      DemotedAt(x.demoted, x.deleted.failed, d.dependencies, a, g, op);
    }
    forall a, g, op | InSubtree(a, g) && AppliedAt(x.plan, a, op) && g in x.deleted.failed ensures BlockedAt(x.final, a) {
      DemotedAt(x.plan, x.migrated.failed, d.dependencies, a, g, op);
      if g in x.migrated.failed { DemotedBlocks(x.plan, x.migrated.failed, d.dependencies, a, g, op); }
      DemotedBlocks(x.demoted, x.deleted.failed, d.dependencies, a, g, op);
    }
  }
}
