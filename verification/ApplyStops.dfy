/** Where a run stops moving graphs, and what it has paid for before it removes one or writes the ledger. */
module ApplyStops {
  import opened Addresses
  import opened Digests
  import opened Ledgers
  import opened Sweep
  import opened Coverage
  import opened Plan
  import opened Classify
  import opened Apply
  import opened ApplySafety
  import opened ApplyLedger
  import opened ApplyOutcome
  import opened ApplyReport
  import opened CrashSafety
  import opened ApplyIsSafe
  import opened ApplyTheorems
  import opened Convergence

  // ---- the visits of a run ----

  /** One visited graph and the rank of the engine call its visit may make. */
  datatype Visit = Visit(graph: GraphId, rank: nat)

  function Visits(ids: seq<GraphId>, rank: nat): (vs: seq<Visit>)
    ensures |vs| == |ids| && forall i :: 0 <= i < |ids| ==> vs[i] == Visit(ids[i], rank)
  {
    seq(|ids|, i requires 0 <= i < |ids| => Visit(ids[i], rank))
  }

  ghost predicate Moved(log: seq<Entry>, g: GraphId) {
    exists e :: e in log && MovesGraph(e.event) && e.event.graph == g
  }

  ghost predicate Knows(vs: seq<Visit>, g: GraphId) {
    exists i :: 0 <= i < |vs| && vs[i].graph == g
  }

  /**
   `vs` are the visits so far, in order: once a graph failed, for whatever reason, every later one fails too and no engine
   call is made for it; and every engine call belongs to the visit of its graph and phase.
   */
  ghost predicate Stops(r: Run, vs: seq<Visit>) {
    && (r.aborted <==> exists i :: 0 <= i < |vs| && vs[i].graph in r.failed)
    && (forall g :: g in r.failed ==> Knows(vs, g))
    && (forall i, j :: 0 <= i < j < |vs| && vs[i].graph in r.failed ==> vs[j].graph in r.failed && !Moved(r.log, vs[j].graph))
    && (forall e :: e in r.log && MovesGraph(e.event) ==> Visit(e.event.graph, PhaseOf(e.event)) in vs)
  }

  /** What one visit of `g` may change. */
  ghost predicate VisitOf(r: Run, r': Run, g: GraphId, rank: nat) {
    && (forall h :: h != g ==> (h in r'.failed <==> h in r.failed))
    && (if r.aborted then r'.aborted && g in r'.failed && r'.log == r.log else r'.aborted <==> g in r'.failed)
    && (forall e :: e in r.log ==> e in r'.log)
    && (forall e :: e in r'.log && MovesGraph(e.event) ==> e in r.log || (e.event.graph == g && PhaseOf(e.event) == rank))
  }

  lemma VisitStops(r: Run, r': Run, vs: seq<Visit>, g: GraphId, rank: nat)
    requires Stops(r, vs) && !Knows(vs, g) && VisitOf(r, r', g, rank)
    ensures Stops(r', vs + [Visit(g, rank)])
  {
    var vs' := vs + [Visit(g, rank)];
    assert forall i :: 0 <= i < |vs| ==> vs'[i] == vs[i] && vs[i].graph != g;
    assert vs'[|vs|].graph == g;
    assert !Moved(r.log, g);
    forall h | h in r'.failed ensures Knows(vs', h) {
      if h != g {
        var i :| 0 <= i < |vs| && vs[i].graph == h;
        assert vs'[i].graph == h;
      }
    }
    forall i, j | 0 <= i < j < |vs'| && vs'[i].graph in r'.failed ensures vs'[j].graph in r'.failed && !Moved(r'.log, vs'[j].graph) {
      assert vs[i].graph in r.failed;
      if j < |vs| { MovedElsewhere(r, r', vs[j].graph, g, rank); }
    }
  }

  lemma MovedElsewhere(r: Run, r': Run, h: GraphId, g: GraphId, rank: nat)
    requires VisitOf(r, r', g, rank) && h != g && !Moved(r.log, h)
    ensures !Moved(r'.log, h)
  {
  }

  // ---- one visit of each phase ----

  /** Writing a sidecar first does not change what the rest of the visit may do. */
  lemma QuietThenVisit(r: Run, e: Event, w: World, r': Run, g: GraphId, rank: nat)
    requires !MovesGraph(e) && !r.aborted && VisitOf(Step(r, e, w), r', g, rank)
    ensures VisitOf(r, r', g, rank)
  {
    var r1 := Step(r, e, w);
    assert forall x :: x in r1.log <==> x in r.log || x == Entry(e, w);
  }

  lemma CreateVisits(r: Run, g: GraphId, d: Desired, env: Env)
    requires g !in r.failed
    ensures VisitOf(r, CreateOne(r, g, d, env), g, 1)
  {
    var dg := FindGraph(d.graphs, g);
    if !r.aborted && dg.Some? && env.putSidecar(g) == Done {
      var op := env.op(g);
      var r1 := PutSidecar(r, op, Sidecar(GraphCreate, g, dg.value.schemaDigest, None, env.actor));
      FencedCreateVisits(r1, g, dg.value, env);
      QuietThenVisit(r, WroteSidecar(op), r1.world, FencedCreate(r1, g, dg.value, env), g, 1);
    }
  }

  lemma FencedCreateVisits(r: Run, g: GraphId, dg: DesiredGraph, env: Env)
    requires g !in r.failed && !r.aborted
    ensures VisitOf(r, FencedCreate(r, g, dg, env), g, 1)
  {
  }

  lemma MigrateVisits(r: Run, g: GraphId, res: Resources, d: Desired, env: Env)
    requires g !in r.failed
    ensures VisitOf(r, MigrateOne(r, g, res, d, env), g, 2)
  {
    var dg := FindGraph(d.graphs, g);
    if !r.aborted && dg.Some? && RootOf(r.world.live, g).Open? && env.ready(g) && SourceIntact(env, dg.value) && env.putSidecar(g) == Done {
      var op := env.op(g);
      var r1 := PutSidecar(r, op, Sidecar(SchemaApply, g, dg.value.schemaDigest, None, env.actor));
      FencedMigrateVisits(r1, g, dg.value, res, env);
      QuietThenVisit(r, WroteSidecar(op), r1.world, FencedMigrate(r1, g, dg.value, res, env), g, 2);
    }
  }

  lemma FencedMigrateVisits(r: Run, g: GraphId, dg: DesiredGraph, res: Resources, env: Env)
    requires g !in r.failed && !r.aborted
    ensures VisitOf(r, FencedMigrate(r, g, dg, res, env), g, 2)
  {
    var op := env.op(g);
    var root := RootAfterMigrate(RootOf(r.world.live, g), env.migrate(g), dg.schemaDigest);
    var r1 := MoveRoot(r, SchemaApplyCalled(g, env.migrate(g).MigrateOk?), g, root);
    var r2 := DropSidecar(r1, op, NothingMoved(env, g, res, root) && env.drop(op));
    assert forall e :: e in r2.log && MovesGraph(e.event) ==> e in r1.log;
  }

  lemma DeleteVisits(r: Run, g: GraphId, d: Desired, env: Env)
    requires g !in r.failed
    ensures VisitOf(r, DeleteOne(r, g, d, env), g, 4)
  {
    var approval := Consumable(env.artifacts, g, d.configDigest);
    if !r.aborted && env.exportFree(g) && env.putSidecar(g) == Done {
      var op := env.op(g);
      var r1 := PutSidecar(r, op, Sidecar(GraphDelete, g, Raw(""), approval, env.actor));
      FencedDeleteVisits(r1, g, approval, env);
      QuietThenVisit(r, WroteSidecar(op), r1.world, FencedDelete(r1, g, approval, env), g, 4);
    }
  }

  lemma FencedDeleteVisits(r: Run, g: GraphId, approval: Option<ApprovalId>, env: Env)
    requires g !in r.failed && !r.aborted
    ensures VisitOf(r, FencedDelete(r, g, approval, env), g, 4)
  {
  }

  // ---- the phases ----

  /** None of `ids` was visited before, and each is visited once. */
  ghost predicate Fresh(vs: seq<Visit>, ids: seq<GraphId>) {
    NoDup(ids) && forall g :: g in ids ==> !Knows(vs, g)
  }

  lemma FreshTail(vs: seq<Visit>, ids: seq<GraphId>, rank: nat)
    requires ids != [] && Fresh(vs, ids)
    ensures Fresh(vs + [Visit(ids[0], rank)], ids[1..]) && vs + Visits(ids, rank) == vs + [Visit(ids[0], rank)] + Visits(ids[1..], rank)
  {
    forall g | g in ids[1..] ensures !Knows(vs + [Visit(ids[0], rank)], g) {
      assert g in ids && g != ids[0];
      KnowsMore(vs, Visit(ids[0], rank), g);
    }
    VisitsTail(vs, ids, rank);
  }

  lemma KnowsMore(vs: seq<Visit>, v: Visit, g: GraphId)
    ensures Knows(vs + [v], g) <==> Knows(vs, g) || v.graph == g
  {
    var vs' := vs + [v];
    assert forall i :: 0 <= i < |vs| ==> vs'[i] == vs[i];
    assert vs'[|vs|] == v;
  }

  lemma VisitsTail(vs: seq<Visit>, ids: seq<GraphId>, rank: nat)
    requires ids != []
    ensures vs + Visits(ids, rank) == vs + [Visit(ids[0], rank)] + Visits(ids[1..], rank)
  {
    assert Visits(ids, rank) == [Visit(ids[0], rank)] + Visits(ids[1..], rank);
  }

  lemma {:induction false} CreatesStop(r: Run, vs: seq<Visit>, ids: seq<GraphId>, d: Desired, env: Env)
    requires Stops(r, vs) && Fresh(vs, ids)
    ensures Stops(RunCreates(r, ids, d, env), vs + Visits(ids, 1))
    decreases |ids|
  {
    if ids == [] {
      assert vs + Visits(ids, 1) == vs;
    } else {
      CreateVisits(r, ids[0], d, env);
      VisitStops(r, CreateOne(r, ids[0], d, env), vs, ids[0], 1);
      FreshTail(vs, ids, 1);
      CreatesStop(CreateOne(r, ids[0], d, env), vs + [Visit(ids[0], 1)], ids[1..], d, env);
    }
  }

  lemma {:induction false} MigrationsStop(r: Run, vs: seq<Visit>, ids: seq<GraphId>, res: Resources, d: Desired, env: Env)
    requires Stops(r, vs) && Fresh(vs, ids)
    ensures Stops(RunMigrations(r, ids, res, d, env), vs + Visits(ids, 2))
    decreases |ids|
  {
    if ids == [] {
      assert vs + Visits(ids, 2) == vs;
    } else {
      MigrateVisits(r, ids[0], res, d, env);
      VisitStops(r, MigrateOne(r, ids[0], res, d, env), vs, ids[0], 2);
      FreshTail(vs, ids, 2);
      MigrationsStop(MigrateOne(r, ids[0], res, d, env), vs + [Visit(ids[0], 2)], ids[1..], res, d, env);
    }
  }

  lemma {:induction false} DeletesStop(r: Run, vs: seq<Visit>, ids: seq<GraphId>, d: Desired, env: Env)
    requires Stops(r, vs) && Fresh(vs, ids)
    ensures Stops(RunDeletes(r, ids, d, env), vs + Visits(ids, 4))
    decreases |ids|
  {
    if ids == [] {
      assert vs + Visits(ids, 4) == vs;
    } else {
      DeleteVisits(r, ids[0], d, env);
      VisitStops(r, DeleteOne(r, ids[0], d, env), vs, ids[0], 4);
      FreshTail(vs, ids, 4);
      DeletesStop(DeleteOne(r, ids[0], d, env), vs + [Visit(ids[0], 4)], ids[1..], d, env);
    }
  }

  /** Steps that move no graph and settle none leave the standing alone. */
  lemma QuietStops(r: Run, r': Run, vs: seq<Visit>)
    requires Stops(r, vs) && r'.failed == r.failed && r'.aborted == r.aborted
    requires forall e :: e in r'.log && MovesGraph(e.event) ==> e in r.log
    ensures Stops(r', vs)
  {
  }

  // ---- payments ----

  /** Every payload the changes need is in the catalog. */
  ghost predicate PaidFor(cs: seq<Change>, blobs: map<BlobKey, string>) {
    forall c :: c in cs && NeedsPayload(c) ==> (c.resource, OrEmpty(c.after)) in blobs
  }

  /** At every removal, and at the state write, all payloads of the run are in the catalog. */
  ghost predicate LogPaid(log: seq<Entry>, cs: seq<Change>) {
    forall e :: e in log && (e.event.RemoveCalled? || e.event.WroteState?) ==> PaidFor(cs, e.world.blobs)
  }

  ghost predicate Extends(blobs: map<BlobKey, string>, blobs': map<BlobKey, string>) {
    forall k :: k in blobs ==> k in blobs' && blobs'[k] == blobs[k]
  }

  /** A payment phase that reports success left every needed payload in the catalog, and never took one out. */
  lemma {:induction false} SuccessMeansPaid(p: Paid, cs: seq<Change>, env: Env)
    ensures var p' := PayAll(p, cs, env);
            && Extends(p.run.world.blobs, p'.run.world.blobs)
            && (p'.ok ==> p.ok && PaidFor(cs, p'.run.world.blobs))
            && p'.run.failed == p.run.failed && p'.run.aborted == p.run.aborted
            && (forall e :: e in p'.run.log && MovesGraph(e.event) ==> e in p.run.log)
    decreases |cs|
  {
    if cs != [] {
      PayOneKeeps(p, cs[0], env);
      var p1 := PayOne(p, cs[0], env);
      SuccessMeansPaid(p1, cs[1..], env);
      assert forall c :: c in cs <==> c == cs[0] || c in cs[1..];
    }
  }

  lemma PayOneKeeps(p: Paid, c: Change, env: Env)
    ensures var p' := PayOne(p, c, env);
            && Extends(p.run.world.blobs, p'.run.world.blobs)
            && (p'.ok ==> p.ok && (NeedsPayload(c) ==> (c.resource, OrEmpty(c.after)) in p'.run.world.blobs))
            && p'.run.failed == p.run.failed && p'.run.aborted == p.run.aborted
            && (forall e :: e in p'.run.log && MovesGraph(e.event) ==> e in p.run.log)
  {
  }

  /** A visit of the delete phase leaves the catalog alone throughout. */
  lemma DeleteKeepsBlobs(r: Run, g: GraphId, d: Desired, env: Env)
    ensures var r' := DeleteOne(r, g, d, env);
            && r'.world.blobs == r.world.blobs
            && (forall e :: e in r'.log ==> e in r.log || e.world.blobs == r.world.blobs)
            && (forall e :: e in r'.log && e.event.WroteState? ==> e in r.log)
  {
  }

  lemma {:induction false} DeletesPaid(r: Run, ids: seq<GraphId>, d: Desired, env: Env, cs: seq<Change>)
    requires LogPaid(r.log, cs) && PaidFor(cs, r.world.blobs)
    ensures var r' := RunDeletes(r, ids, d, env); LogPaid(r'.log, cs) && r'.world.blobs == r.world.blobs
    decreases |ids|
  {
    if ids != [] {
      DeleteKeepsBlobs(r, ids[0], d, env);
      DeletesPaid(DeleteOne(r, ids[0], d, env), ids[1..], d, env, cs);
    }
  }

  lemma UnpaidYet(r: Run, cs: seq<Change>)
    requires NoRemovals(r.log)
    ensures LogPaid(r.log, cs)
  {
    forall e | e in r.log ensures !e.event.RemoveCalled? && !e.event.WroteState? {
      var i :| 0 <= i < |r.log| && r.log[i] == e;
    }
  }

  // ---- retirement ----

  /** What follows the state write moves nothing, settles nothing and keeps the catalog. */
  ghost predicate Aftermath(r: Run, r': Run) {
    && r'.failed == r.failed && r'.aborted == r.aborted && r'.world.blobs == r.world.blobs
    && (forall e :: e in r'.log ==> e in r.log || (!MovesGraph(e.event) && !e.event.WroteState?))
  }

  lemma {:induction false} DropAftermath(r: Run, ops: seq<OpId>, drop: OpId -> bool)
    ensures Aftermath(r, DropAll(r, ops, drop))
    decreases |ops|
  {
    if ops != [] { DropAftermath(DropSidecar(r, ops[0], drop(ops[0])), ops[1..], drop); }
  }

  lemma {:induction false} MarkAftermath(r: Run, ids: seq<ApprovalId>, mark: ApprovalId -> bool)
    ensures Aftermath(r, MarkAll(r, ids, mark))
    decreases |ids|
  {
    if ids != [] { MarkAftermath(MarkOne(r, ids[0], mark(ids[0])), ids[1..], mark); }
  }

  lemma CommitStops(l0: Ledger, x: Execution, d: Desired, env: Env, vs: seq<Visit>)
    requires Stops(x.deleted, vs) && LogPaid(x.deleted.log, x.demoted) && PaidFor(x.demoted, x.deleted.world.blobs)
    ensures var r := Commit(l0, x, d, env).run; Stops(r, vs) && LogPaid(r.log, x.demoted)
  {
    var w := x.deleted.world.(ledger := Some(Committed(x.ledger)));
    var r1 := if x.ledger != l0 && env.putState != Lost then Step(x.deleted, WroteState, w) else x.deleted;
    QuietStops(x.deleted, r1, vs);
    assert LogPaid(r1.log, x.demoted);
    var ops, ids := x.swept.outcome.completed + x.deleted.completed, x.swept.outcome.consumed + ConsumedIds(x.deleted.removed);
    var r2 := DropAll(r1, ops, env.drop);
    var r3 := MarkAll(r2, Listed(env.files, ids), env.mark);
    DropAftermath(r1, ops, env.drop);
    MarkAftermath(r2, Listed(env.files, ids), env.mark);
    QuietStops(r1, r3, vs);
  }

  // ---- the execution ----

  function Early(x: Execution): seq<Visit> {
    Visits(ToRun(x.plan, Create, false), 1) + Visits(ToRun(x.plan, Update, true), 2)
  }

  /** All visits of a run in order: creates, schema applies, and, once every payload is in, deletes. */
  function VisitsOf(x: Execution): seq<Visit> {
    Early(x) + if x.paid.ok then Visits(ToRun(x.demoted, Delete, false), 4) else []
  }

  lemma FreshAfter(ids: seq<GraphId>, rank: nat, more: seq<GraphId>)
    requires NoDup(more) && forall g :: g in more ==> g !in ids
    ensures Fresh(Visits(ids, rank), more)
  {
  }

  lemma FreshAfterBoth(a: seq<GraphId>, ra: nat, b: seq<GraphId>, rb: nat, more: seq<GraphId>)
    requires NoDup(more) && forall g :: g in more ==> g !in a && g !in b
    ensures Fresh(Visits(a, ra) + Visits(b, rb), more)
  {
    var vs := Visits(a, ra) + Visits(b, rb);
    forall g, i | g in more && 0 <= i < |vs| ensures vs[i].graph != g {
      assert if i < |a| then vs[i].graph == a[i] else vs[i].graph == b[i - |a|];
    }
  }

  /** The three lists of a run: each graph once, no graph in two of them, and each exactly the graphs to be moved so. */
  ghost predicate Lists(x: Execution, c: Ctx) {
    var creates, migrates, deletes := ToRun(x.plan, Create, false), ToRun(x.plan, Update, true), ToRun(x.demoted, Delete, false);
    var pending := x.swept.outcome.pending;
    && NoDup(creates) && NoDup(migrates) && NoDup(deletes)
    && (forall g :: g in creates ==> Moves(c, pending, g, Create, false))
    && (forall g :: g in migrates ==> Moves(c, pending, g, Update, true) && g !in creates)
    && (forall g :: g in deletes ==> Moves(c, pending, g, Delete, false) && g !in creates && g !in migrates)
  }

  lemma RunLists(w: World, l0: Ledger, d: Desired, env: Env)
    requires Runs(w, l0, d, env)
    ensures Lists(Execute(w, l0, d, env), CtxOf(w, l0, d, env))
  {
    var c, x := CtxOf(w, l0, d, env), Execute(w, l0, d, env);
    SweepKeepsPaired(Swept(l0, NoOutcome), env.probes);
    MigratedStanding(w, l0, d, env);
    ListsOver(c, x.swept.outcome.pending, x.migrated.failed);
  }

  lemma ListsOver(c: Ctx, pending: set<GraphId>, failed: map<GraphId, Origin>)
    requires Paired(c.res) && Declared(c.d)
    requires var plan := ClassifiedPlan(c.res, c.d, c.env.artifacts, pending);
             failed.Keys <= IdSet(ToRun(plan, Create, false)) + IdSet(ToRun(plan, Update, true))
    ensures var plan := ClassifiedPlan(c.res, c.d, c.env.artifacts, pending);
            var creates, migrates := ToRun(plan, Create, false), ToRun(plan, Update, true);
            var deletes := ToRun(Demoted(plan, failed, c.d.dependencies), Delete, false);
            && NoDup(creates) && NoDup(migrates) && NoDup(deletes)
            && (forall g :: g in creates ==> Moves(c, pending, g, Create, false))
            && (forall g :: g in migrates ==> Moves(c, pending, g, Update, true) && g !in creates)
            && (forall g :: g in deletes ==> Moves(c, pending, g, Delete, false) && g !in creates && g !in migrates)
  {
    ExecutionLists(c, pending, failed);
    DisjointMoves(c.res, c.d, c.env.artifacts, pending);
  }

  lemma EarlyStops(w: World, l0: Ledger, d: Desired, env: Env)
    requires Runs(w, l0, d, env)
    ensures var x := Execute(w, l0, d, env); Stops(x.migrated, Early(x))
  {
    RunLists(w, l0, d, env);
    var x := Execute(w, l0, d, env);
    MovesStop(w, ToRun(x.plan, Create, false), ToRun(x.plan, Update, true), x.swept.ledger.resources, d, env);
  }

  lemma FirstVisits(w: World, creates: seq<GraphId>, d: Desired, env: Env)
    requires NoDup(creates)
    ensures Stops(RunCreates(Start(w), creates, d, env), Visits(creates, 1))
  {
    assert Stops(Start(w), []) && Fresh([], creates);
    CreatesStop(Start(w), [], creates, d, env);
    assert [] + Visits(creates, 1) == Visits(creates, 1);
  }

  lemma MovesStop(w: World, creates: seq<GraphId>, migrates: seq<GraphId>, res: Resources, d: Desired, env: Env)
    requires NoDup(creates) && NoDup(migrates) && forall g :: g in migrates ==> g !in creates
    ensures Stops(RunMigrations(RunCreates(Start(w), creates, d, env), migrates, res, d, env), Visits(creates, 1) + Visits(migrates, 2))
  {
    FirstVisits(w, creates, d, env);
    FreshAfter(creates, 1, migrates);
    MigrationsStop(RunCreates(Start(w), creates, d, env), Visits(creates, 1), migrates, res, d, env);
  }

  lemma PaidStops(w: World, l0: Ledger, d: Desired, env: Env)
    requires Runs(w, l0, d, env)
    ensures var x := Execute(w, l0, d, env);
            Stops(x.paid.run, Early(x)) && (x.paid.ok ==> PaidFor(x.demoted, x.paid.run.world.blobs))
  {
    var x := Execute(w, l0, d, env);
    EarlyStops(w, l0, d, env);
    SuccessMeansPaid(Paid(x.migrated, true), x.demoted, env);
    QuietStops(x.migrated, x.paid.run, Early(x));
  }

  lemma DeletedStops(w: World, l0: Ledger, d: Desired, env: Env)
    requires Runs(w, l0, d, env)
    ensures var x := Execute(w, l0, d, env); Stops(x.deleted, Early(x) + Visits(ToRun(x.demoted, Delete, false), 4))
  {
    var x := Execute(w, l0, d, env);
    var creates, migrates, deletes := ToRun(x.plan, Create, false), ToRun(x.plan, Update, true), ToRun(x.demoted, Delete, false);
    RunLists(w, l0, d, env);
    PaidStops(w, l0, d, env);
    FreshAfterBoth(creates, 1, migrates, 2, deletes);
    DeletesStop(x.paid.run, Early(x), deletes, d, env);
  }

  lemma DeletedPaid(w: World, l0: Ledger, d: Desired, env: Env)
    requires Runs(w, l0, d, env) && Execute(w, l0, d, env).paid.ok
    ensures var x := Execute(w, l0, d, env);
            LogPaid(x.deleted.log, x.demoted) && PaidFor(x.demoted, x.deleted.world.blobs)
  {
    var x := Execute(w, l0, d, env);
    ExecutionReported(w, l0, d, env);
    EarlyPhasesRemoveNothing(x.paid.run);
    UnpaidYet(x.paid.run, x.demoted);
    PaidStops(w, l0, d, env);
    DeletesPaid(x.paid.run, ToRun(x.demoted, Delete, false), d, env, x.demoted);
  }

  /**
   Stopping and paying, over the whole command. In visit order across all three phases, whatever made a graph fail, every
   graph after it is reported failed and no engine call is made for it; and at every removal and at the state write each
   payload of the run is in the catalog.
   */
  lemma ApplyStopsAtFirstFailure(w: World, l0: Ledger, d: Desired, env: Env)
    requires Runs(w, l0, d, env)
    ensures var x, r := Execute(w, l0, d, env), ApplyCommand(w, d, env).run;
            Stops(r, VisitsOf(x)) && LogPaid(r.log, x.demoted)
  {
    PaidStops(w, l0, d, env);
    DeletedStops(w, l0, d, env);
    ExecutionReported(w, l0, d, env);
    if Execute(w, l0, d, env).paid.ok { DeletedPaid(w, l0, d, env); }
    ExecutionIsNotRefused(w, l0, d, env);
    ConcludeStops(w, l0, Execute(w, l0, d, env), d, env);
  }

  lemma ExecutionIsNotRefused(w: World, l0: Ledger, d: Desired, env: Env)
    ensures var x := Execute(w, l0, d, env);
            !ApprovalViolated(x.plan, ApprovedResources(env.artifacts, PlanOf(x.swept.ledger.resources, d), d.configDigest))
  {
    var swept := SweepLedger(l0, env.probes);
    NoApprovalViolation(swept.ledger.resources, d, env.artifacts, swept.outcome.pending);
  }

  lemma ConcludeStops(w: World, l0: Ledger, x: Execution, d: Desired, env: Env)
    requires Stops(x.paid.run, Early(x)) && OrderedTo(x.paid.run, 3)
    requires Stops(x.deleted, Early(x) + Visits(ToRun(x.demoted, Delete, false), 4))
    requires x.paid.ok ==> LogPaid(x.deleted.log, x.demoted) && PaidFor(x.demoted, x.deleted.world.blobs)
    requires !ApprovalViolated(x.plan, ApprovedResources(env.artifacts, PlanOf(x.swept.ledger.resources, d), d.configDigest))
    ensures var r := Conclude(w, l0, x, d, env).run; Stops(r, VisitsOf(x)) && LogPaid(r.log, x.demoted)
  {
    if x.paid.ok {
      CommitStops(l0, x, d, env, VisitsOf(x));
    } else {
      EarlyPhasesRemoveNothing(x.paid.run);
      UnpaidYet(x.paid.run, x.demoted);
      assert VisitsOf(x) == Early(x);
    }
  }

  // ---- the report, operation by operation ----

  ghost predicate Called(log: seq<Entry>, event: Event) {
    exists e :: e in log && e.event == event
  }

  /** Which graphs the calls of a run were made for. */
  ghost predicate CallsBelong(log: seq<Entry>, c: Ctx, pending: set<GraphId>) {
    && (forall e :: e in log && e.event.InitCalled? ==> Moves(c, pending, e.event.graph, Create, false))
    && (forall e :: e in log && e.event.SchemaApplyCalled? ==> Moves(c, pending, e.event.graph, Update, true))
    && (forall e :: e in log && e.event.RemoveCalled? ==> Moves(c, pending, e.event.graph, Delete, false))
  }

  lemma VisitsAt(ids: seq<GraphId>, rank: nat, v: Visit)
    requires v in Visits(ids, rank)
    ensures v.graph in ids && v.rank == rank
  {
  }

  lemma CallsOfRun(w: World, l0: Ledger, d: Desired, env: Env)
    requires Runs(w, l0, d, env)
    ensures var x := Execute(w, l0, d, env); CallsBelong(x.deleted.log, CtxOf(w, l0, d, env), x.swept.outcome.pending)
  {
    var c, x := CtxOf(w, l0, d, env), Execute(w, l0, d, env);
    var creates, migrates, deletes := ToRun(x.plan, Create, false), ToRun(x.plan, Update, true), ToRun(x.demoted, Delete, false);
    RunLists(w, l0, d, env);
    DeletedStops(w, l0, d, env);
    CallsByVisits(x.deleted, creates, migrates, deletes, c, x.swept.outcome.pending);
  }

  lemma CallsByVisits(r: Run, creates: seq<GraphId>, migrates: seq<GraphId>, deletes: seq<GraphId>, c: Ctx, pending: set<GraphId>)
    requires Stops(r, Visits(creates, 1) + Visits(migrates, 2) + Visits(deletes, 4))
    requires forall g :: g in creates ==> Moves(c, pending, g, Create, false)
    requires forall g :: g in migrates ==> Moves(c, pending, g, Update, true)
    requires forall g :: g in deletes ==> Moves(c, pending, g, Delete, false)
    ensures CallsBelong(r.log, c, pending)
  {
    forall e | e in r.log && MovesGraph(e.event)
      ensures e.event.InitCalled? ==> e.event.graph in creates
      ensures e.event.SchemaApplyCalled? ==> e.event.graph in migrates
      ensures e.event.RemoveCalled? ==> e.event.graph in deletes
    {
      var v := Visit(e.event.graph, PhaseOf(e.event));
      if v in Visits(creates, 1) { VisitsAt(creates, 1, v); }
      else if v in Visits(migrates, 2) { VisitsAt(migrates, 2, v); }
      else { VisitsAt(deletes, 4, v); }
    }
  }

  /**
   The report, operation by operation: at the state write a create is still Applied exactly if init succeeded for that
   graph in this run, a schema update exactly if the schema apply did, a delete exactly if the removal did; and the new
   ledger leaves the swept digest of the graph exactly then.
   */
  lemma ReportMatchesCalls(w: World, l0: Ledger, d: Desired, env: Env, g: GraphId)
    requires Runs(w, l0, d, env)
    ensures var x := Execute(w, l0, d, env);
            && (AppliedAt(x.final, Graph(g), Create) <==> Called(x.deleted.log, InitCalled(g, true)))
            && (AppliedAt(x.final, Schema(g), Update) <==> Called(x.deleted.log, SchemaApplyCalled(g, true)))
            && (AppliedAt(x.final, Graph(g), Delete) <==> Called(x.deleted.log, RemoveCalled(g, true)))
            && Recorded(x.ledger.resources, g) ==
               if Succeeded(x.deleted.log, g) then DigestOf(Target(d, g)) else Recorded(x.swept.ledger.resources, g)
  {
    var c, x := CtxOf(w, l0, d, env), Execute(w, l0, d, env);
    ReportIsTruthful(w, l0, d, env, g);
    var pending := x.swept.outcome.pending;
    RunConcludes(w, l0, d, env);
    ExecutionReported(w, l0, d, env);
    CompletedIffSucceeded(x.deleted, env, g);
    CallsOfRun(w, l0, d, env);
    CompletedIffMoving(c, pending, x.paid.run, x.deleted, g);
    CallsDecide(c, pending, x.final, x.deleted, g);
  }

  lemma CallsDecide(c: Ctx, pending: set<GraphId>, final: seq<Change>, r: Run, g: GraphId)
    requires Paired(c.res) && Declared(c.d)
    requires ChangeFacts(ClassifiedPlan(c.res, c.d, c.env.artifacts, pending), final, r.failed, c.d) && CallsBelong(r.log, c, pending)
    requires Succeeded(r.log, g) <==> Moving(c.res, c.d, c.env.artifacts, pending, g) && g !in r.failed
    ensures AppliedAt(final, Graph(g), Create) <==> Called(r.log, InitCalled(g, true))
    ensures AppliedAt(final, Schema(g), Update) <==> Called(r.log, SchemaApplyCalled(g, true))
    ensures AppliedAt(final, Graph(g), Delete) <==> Called(r.log, RemoveCalled(g, true))
  {
    FinalMoves(c, pending, final, r.failed, g, Create, false);
    FinalMoves(c, pending, final, r.failed, g, Update, true);
    FinalMoves(c, pending, final, r.failed, g, Delete, false);
    MovesExclude(c, pending, r, g);
    SucceededIsCalled(r.log, g);
    CallsAreMoves(r.log, c, pending, g);
  }

  lemma MovesExclude(c: Ctx, pending: set<GraphId>, r: Run, g: GraphId)
    requires Paired(c.res) && Declared(c.d)
    ensures var cr, mi, de := Moves(c, pending, g, Create, false), Moves(c, pending, g, Update, true), Moves(c, pending, g, Delete, false);
            !(cr && mi) && !(cr && de) && !(mi && de) && (Moving(c.res, c.d, c.env.artifacts, pending, g) <==> cr || mi || de)
  {
    DisjointMoves(c.res, c.d, c.env.artifacts, pending);
  }

  lemma CallsAreMoves(log: seq<Entry>, c: Ctx, pending: set<GraphId>, g: GraphId)
    requires CallsBelong(log, c, pending)
    ensures Called(log, InitCalled(g, true)) ==> Moves(c, pending, g, Create, false)
    ensures Called(log, SchemaApplyCalled(g, true)) ==> Moves(c, pending, g, Update, true)
    ensures Called(log, RemoveCalled(g, true)) ==> Moves(c, pending, g, Delete, false)
  {
  }

  lemma SucceededIsCalled(log: seq<Entry>, g: GraphId)
    ensures Succeeded(log, g) <==>
            Called(log, InitCalled(g, true)) || Called(log, SchemaApplyCalled(g, true)) || Called(log, RemoveCalled(g, true))
  {
    if Succeeded(log, g) {
      var i :| 0 <= i < |log| && SucceededFor(log[i].event, g);
      assert log[i] in log;
    }
    forall e | e in log && SucceededFor(e.event, g) ensures Succeeded(log, g) {
      var i :| 0 <= i < |log| && log[i] == e;
    }
  }
}
