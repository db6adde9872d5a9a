/** After a crash anywhere in an apply: which graphs the following commands can clear of their sidecars. */
module CrashRepair {
  import opened Addresses
  import opened Digests
  import opened Ledgers
  import opened Sweep
  import opened Coverage
  import opened SweepFixpoint
  import opened Plan
  import opened Classify
  import opened Apply
  import opened ApplySafety
  import opened ApplyLedger
  import opened ApplyOutcome
  import opened ApplyReport
  import opened CrashSafety
  import opened ApplyIsSafe
  import opened ApplyTheorems
  import opened ApplyStops
  import opened Retirement
  import opened RefreshRetires
  import opened ApplyRetries
  import Refresh

  /** A graph a sweep can finish with, unless its root is half made. */
  ghost predicate Mendable(l: Ledger, w: World, g: GraphId) {
    RootOf(w.live, g).Partial? || Resolvable(Stores(l, w.sidecars), w.live, g)
  }

  ghost predicate NoSchemaIntent(sc: map<OpId, Sidecar>, g: GraphId) {
    forall op :: op in sc && sc[op].graph == g ==> sc[op].kind != SchemaApply
  }

  // ---- what the sweep tells about a graph it does not hold ----

  lemma NotHeld(s: Stores, ps: seq<Probe>, live: map<GraphId, Root>, g: GraphId)
    requires FullListing(ps, s.sidecars, live) && g !in SweepLedger(s.ledger, ps).outcome.pending
    ensures forall op :: op in s.sidecars && s.sidecars[op].graph == g ==> op in SweepLedger(s.ledger, ps).outcome.completed
  {
    forall op | op in s.sidecars && s.sidecars[op].graph == g ensures op in SweepLedger(s.ledger, ps).outcome.completed {
      var p := Probe(op, s.sidecars[op], RootOf(live, g));
      assert p in ps;
      if op !in SweepLedger(s.ledger, ps).outcome.completed { LeftIsPending(Swept(s.ledger, NoOutcome), ps, p); }
    }
  }

  /** A covered graph the sweep does not hold is in step with the swept ledger. */
  lemma NotHeldInStep(s: Stores, ps: seq<Probe>, live: map<GraphId, Root>, g: GraphId)
    requires Paired(s.ledger.resources) && FullListing(ps, s.sidecars, live) && Covered(s.ledger.resources, live, s.sidecars, g)
    requires g !in SweepLedger(s.ledger, ps).outcome.pending
    ensures InStep(SweepLedger(s.ledger, ps).ledger.resources, live, g)
  {
    var st := SweepLedger(s.ledger, ps);
    SweepCoversIff(Swept(s.ledger, NoOutcome), ps, live, s.sidecars, g);
    SightedNeverStrands(Swept(s.ledger, NoOutcome), ps, live, s.sidecars, g);
    assert st.outcome.completed[0..] == st.outcome.completed;
    NotHeld(s, ps, live, g);
    NothingCovers(s.sidecars, st.outcome.completed, RootOf(live, g), g);
  }

  lemma NothingCovers(sc: map<OpId, Sidecar>, done: seq<OpId>, root: Root, g: GraphId)
    requires forall op :: op in sc && sc[op].graph == g ==> op in done
    ensures !CoverLeft(sc - OpSet(done), root, g)
  {
  }

  /** Over an absent root, a graph the sweep does not hold has no schema intent. */
  lemma NotHeldAbsent(s: Stores, ps: seq<Probe>, live: map<GraphId, Root>, g: GraphId)
    requires FullListing(ps, s.sidecars, live) && g !in SweepLedger(s.ledger, ps).outcome.pending && RootOf(live, g).Absent?
    ensures NoSchemaIntent(s.sidecars, g)
  {
    NotHeld(s, ps, live, g);
    forall op | op in s.sidecars && s.sidecars[op].graph == g ensures s.sidecars[op].kind != SchemaApply { SweepFate(s, ps, live, g, op); }
  }

  /** What an open graph's sidecars and ledger know of it before the sweep, if the swept ledger knows it. */
  lemma KnownSource(s: Stores, ps: seq<Probe>, live: map<GraphId, Root>, g: GraphId)
    requires FullListing(ps, s.sidecars, live) && Known(SweepLedger(s.ledger, ps).ledger.resources, RootOf(live, g), g)
    ensures Recorded(s.ledger.resources, g) == Some(RootOf(live, g).schema)
            || exists op :: op in s.sidecars && s.sidecars[op].graph == g && s.sidecars[op].kind != GraphDelete
                            && s.sidecars[op].desiredSchema == RootOf(live, g).schema
  {
    SweepLearns(s, ps, live, g);
    TeachesIff(s, ps, live, g);
  }

  // ---- the scene before the write ----

  /** Where the run's own intent may have left the root. */
  predicate Reached(s: Sidecar, before: Root, after: Root) {
    after == before ||
    match s.kind
    case GraphCreate => after == Partial || after == Open(s.desiredSchema)
    case SchemaApply => after == Open(s.desiredSchema)
    case GraphDelete => after == Absent
  }

  ghost predicate Planning(c: Ctx, pending: set<GraphId>, kind: SidecarKind, g: GraphId) {
    match kind
    case GraphCreate => Creating(c.res, c.d, pending, g)
    case SchemaApply => Migrating(c.res, c.d, pending, g)
    case GraphDelete => Deleting(c.res, c.d, c.env.artifacts, pending, g)
  }

  /** The sidecars of `g` found by the run are all there, beside them at most its own intent, and the root is where that allows. */
  ghost predicate Scene(c: Ctx, pending: set<GraphId>, w': World, g: GraphId) {
    var w, op := c.w, c.env.op(g);
    && (forall o :: o in w.sidecars && w.sidecars[o].graph == g ==> o in w'.sidecars && w'.sidecars[o] == w.sidecars[o])
    && (forall o :: o in w'.sidecars && w'.sidecars[o].graph == g ==> (o in w.sidecars && w.sidecars[o] == w'.sidecars[o]) || o == op)
    && (if op in w'.sidecars then
          && w'.sidecars[op].graph == g && Planning(c, pending, w'.sidecars[op].kind, g)
          && Reached(w'.sidecars[op], RootOf(w.live, g), RootOf(w'.live, g))
        else RootOf(w'.live, g) == RootOf(w.live, g))
  }

  lemma SceneFrame(c: Ctx, pending: set<GraphId>, w1: World, w2: World, g: GraphId)
    requires Scene(c, pending, w1, g) && RootOf(w2.live, g) == RootOf(w1.live, g)
    requires forall o :: (o in w1.sidecars && w1.sidecars[o].graph == g) || o == c.env.op(g) ==>
               (o in w2.sidecars <==> o in w1.sidecars) && (o in w1.sidecars ==> w2.sidecars[o] == w1.sidecars[o])
    requires forall o :: o in w2.sidecars && w2.sidecars[o].graph == g ==> o in w1.sidecars && w1.sidecars[o] == w2.sidecars[o]
    ensures Scene(c, pending, w2, g)
  {
  }

  ghost predicate Scenes(c: Ctx, pending: set<GraphId>, r: Run, g: GraphId) {
    Scene(c, pending, r.world, g) && forall e :: e in r.log ==> Scene(c, pending, e.world, g)
  }

  lemma StepScenes(c: Ctx, pending: set<GraphId>, r: Run, e: Event, w': World, g: GraphId)
    requires Scenes(c, pending, r, g) && Scene(c, pending, w', g)
    ensures Scenes(c, pending, Step(r, e, w'), g)
  {
  }

  // ---- steps for another graph ----

  lemma PutElsewhere(c: Ctx, pending: set<GraphId>, r: Run, h: GraphId, s: Sidecar, g: GraphId)
    requires CtxOk(c) && Scenes(c, pending, r, g) && g != h && s.graph == h && c.env.op(h) !in r.world.sidecars
    ensures Scenes(c, pending, PutSidecar(r, c.env.op(h), s), g)
  {
    var r' := PutSidecar(r, c.env.op(h), s);
    assert c.env.op(h) != c.env.op(g);
    SceneFrame(c, pending, r.world, r'.world, g);
    StepScenes(c, pending, r, WroteSidecar(c.env.op(h)), r'.world, g);
  }

  lemma MoveElsewhere(c: Ctx, pending: set<GraphId>, r: Run, e: Event, h: GraphId, root: Root, g: GraphId)
    requires Scenes(c, pending, r, g) && g != h
    ensures Scenes(c, pending, MoveRoot(r, e, h, root), g)
  {
    var r' := MoveRoot(r, e, h, root);
    SceneFrame(c, pending, r.world, r'.world, g);
    StepScenes(c, pending, r, e, r'.world, g);
  }

  lemma DropElsewhere(c: Ctx, pending: set<GraphId>, r: Run, h: GraphId, dropped: bool, g: GraphId)
    requires CtxOk(c) && Scenes(c, pending, r, g) && g != h
    requires c.env.op(h) in r.world.sidecars ==> r.world.sidecars[c.env.op(h)].graph == h
    ensures Scenes(c, pending, DropSidecar(r, c.env.op(h), dropped), g)
  {
    if dropped {
      var r' := DropSidecar(r, c.env.op(h), true);
      assert c.env.op(h) != c.env.op(g);
      SceneFrame(c, pending, r.world, r'.world, g);
      StepScenes(c, pending, r, DroppedSidecar(c.env.op(h)), r'.world, g);
    }
  }

  // ---- steps for the graph itself ----

  lemma PutOwnScene(c: Ctx, pending: set<GraphId>, r: Run, s: Sidecar, g: GraphId)
    requires CtxOk(c) && Scenes(c, pending, r, g) && c.env.op(g) !in r.world.sidecars && s.graph == g && Planning(c, pending, s.kind, g)
    ensures Scenes(c, pending, PutSidecar(r, c.env.op(g), s), g)
  {
    var r' := PutSidecar(r, c.env.op(g), s);
    assert c.env.op(g) !in c.w.sidecars;
    assert Scene(c, pending, r'.world, g);
    StepScenes(c, pending, r, WroteSidecar(c.env.op(g)), r'.world, g);
  }

  lemma MoveOwnScene(c: Ctx, pending: set<GraphId>, r: Run, e: Event, root: Root, g: GraphId)
    requires Scenes(c, pending, r, g) && c.env.op(g) in r.world.sidecars
    requires Reached(r.world.sidecars[c.env.op(g)], RootOf(c.w.live, g), root)
    ensures Scenes(c, pending, MoveRoot(r, e, g, root), g)
  {
    var r' := MoveRoot(r, e, g, root);
    assert Scene(c, pending, r'.world, g);
    StepScenes(c, pending, r, e, r'.world, g);
  }

  lemma DropOwnScene(c: Ctx, pending: set<GraphId>, r: Run, dropped: bool, g: GraphId)
    requires CtxOk(c) && Scenes(c, pending, r, g) && (dropped ==> RootOf(r.world.live, g) == RootOf(c.w.live, g))
    ensures Scenes(c, pending, DropSidecar(r, c.env.op(g), dropped), g)
  {
    if dropped {
      var r' := DropSidecar(r, c.env.op(g), true);
      assert c.env.op(g) !in c.w.sidecars;
      assert Scene(c, pending, r'.world, g);
      StepScenes(c, pending, r, DroppedSidecar(c.env.op(g)), r'.world, g);
    }
  }

  lemma PutScene(c: Ctx, pending: set<GraphId>, r: Run, h: GraphId, s: Sidecar, g: GraphId)
    requires CtxOk(c) && Scenes(c, pending, r, g) && s.graph == h && c.env.op(h) !in r.world.sidecars
    requires h == g ==> Planning(c, pending, s.kind, g)
    ensures Scenes(c, pending, PutSidecar(r, c.env.op(h), s), g)
  {
    if h == g { PutOwnScene(c, pending, r, s, g); } else { PutElsewhere(c, pending, r, h, s, g); }
  }

  /** Over its intent, `h` has not moved yet. */
  ghost predicate Poised(c: Ctx, r: Run, h: GraphId, kind: SidecarKind, g: GraphId) {
    var op := c.env.op(h);
    && op in r.world.sidecars && r.world.sidecars[op].graph == h && r.world.sidecars[op].kind == kind
    && (h == g ==> RootOf(r.world.live, g) == RootOf(c.w.live, g))
  }

  lemma MoveScene(c: Ctx, pending: set<GraphId>, r: Run, e: Event, h: GraphId, kind: SidecarKind, root: Root, g: GraphId)
    requires CtxOk(c) && Scenes(c, pending, r, g) && Poised(c, r, h, kind, g)
    requires Reached(r.world.sidecars[c.env.op(h)], RootOf(r.world.live, h), root)
    ensures Scenes(c, pending, MoveRoot(r, e, h, root), g)
  {
    if h == g { MoveOwnScene(c, pending, r, e, root, g); } else { MoveElsewhere(c, pending, r, e, h, root, g); }
  }

  lemma DropScene(c: Ctx, pending: set<GraphId>, r: Run, h: GraphId, dropped: bool, g: GraphId)
    requires CtxOk(c) && Scenes(c, pending, r, g) && c.env.op(h) in r.world.sidecars && r.world.sidecars[c.env.op(h)].graph == h
    requires dropped && h == g ==> RootOf(r.world.live, g) == RootOf(c.w.live, g)
    ensures Scenes(c, pending, DropSidecar(r, c.env.op(h), dropped), g)
  {
    if h == g { DropOwnScene(c, pending, r, dropped, g); } else { DropElsewhere(c, pending, r, h, dropped, g); }
  }

  lemma SameScenes(c: Ctx, pending: set<GraphId>, r: Run, r': Run, g: GraphId)
    requires Scenes(c, pending, r, g) && r'.world == r.world && r'.log == r.log
    ensures Scenes(c, pending, r', g)
  {
  }

  lemma FencedCreateScene(c: Ctx, pending: set<GraphId>, r: Run, h: GraphId, dg: DesiredGraph, g: GraphId)
    requires CtxOk(c) && Scenes(c, pending, r, g) && Poised(c, r, h, GraphCreate, g)
    requires r.world.sidecars[c.env.op(h)].desiredSchema == dg.schemaDigest
    ensures Scenes(c, pending, FencedCreate(r, h, dg, c.env), g)
  {
    var env, op := c.env, c.env.op(h);
    if SourceIntact(env, dg) {
      var e, root := InitCalled(h, env.init(h).InitOk?), RootAfterInit(RootOf(r.world.live, h), env.init(h), dg.schemaDigest);
      MoveScene(c, pending, r, e, h, GraphCreate, root, g);
      SameScenes(c, pending, MoveRoot(r, e, h, root), FencedCreate(r, h, dg, env), g);
    } else {
      DropScene(c, pending, r, h, env.drop(op), g);
      SameScenes(c, pending, DropSidecar(r, op, env.drop(op)), FencedCreate(r, h, dg, env), g);
    }
  }

  lemma CreateScene(c: Ctx, pending: set<GraphId>, r: Run, h: GraphId, g: GraphId)
    requires CtxOk(c) && Scenes(c, pending, r, g) && c.env.op(h) !in r.world.sidecars && (h == g ==> Creating(c.res, c.d, pending, g))
    ensures Scenes(c, pending, CreateOne(r, h, c.d, c.env), g)
  {
    var dg := FindGraph(c.d.graphs, h);
    if !r.aborted && dg.Some? && c.env.putSidecar(h) != Lost {
      var s := Sidecar(GraphCreate, h, dg.value.schemaDigest, None, c.env.actor);
      var r1 := PutSidecar(r, c.env.op(h), s);
      PutScene(c, pending, r, h, s, g);
      if c.env.putSidecar(h) == Done { FencedCreateScene(c, pending, r1, h, dg.value, g); }
      else { SameScenes(c, pending, r1, Abort(r1, h, CreateFailed), g); }
    } else {
      SameScenes(c, pending, r, CreateOne(r, h, c.d, c.env), g);
    }
  }

  /** A refused schema apply that is taken back has not moved the graph. */
  lemma RefusalIsStill(c: Ctx, r: Run, h: GraphId, dg: DesiredGraph)
    requires Recorded(c.res, h) != Some(dg.schemaDigest)
    requires NothingMoved(c.env, h, c.res, RootAfterMigrate(RootOf(r.world.live, h), c.env.migrate(h), dg.schemaDigest))
    ensures RootAfterMigrate(RootOf(r.world.live, h), c.env.migrate(h), dg.schemaDigest) == RootOf(r.world.live, h)
  {
  }

  lemma FencedMigrateScene(c: Ctx, pending: set<GraphId>, r: Run, h: GraphId, dg: DesiredGraph, g: GraphId)
    requires CtxOk(c) && Scenes(c, pending, r, g) && Poised(c, r, h, SchemaApply, g)
    requires r.world.sidecars[c.env.op(h)].desiredSchema == dg.schemaDigest && Recorded(c.res, h) != Some(dg.schemaDigest)
    ensures Scenes(c, pending, FencedMigrate(r, h, dg, c.res, c.env), g)
  {
    var env, op := c.env, c.env.op(h);
    var e, root := SchemaApplyCalled(h, env.migrate(h).MigrateOk?), RootAfterMigrate(RootOf(r.world.live, h), env.migrate(h), dg.schemaDigest);
    var r1, dropped := MoveRoot(r, e, h, root), NothingMoved(env, h, c.res, root) && env.drop(op);
    MoveScene(c, pending, r, e, h, SchemaApply, root, g);
    if dropped { RefusalIsStill(c, r, h, dg); }
    DropScene(c, pending, r1, h, dropped, g);
    if env.migrate(h).MigrateOk? { SameScenes(c, pending, r1, FencedMigrate(r, h, dg, c.res, env), g); }
    else { SameScenes(c, pending, DropSidecar(r1, op, dropped), FencedMigrate(r, h, dg, c.res, env), g); }
  }

  lemma MigrateScene(c: Ctx, pending: set<GraphId>, r: Run, h: GraphId, g: GraphId)
    requires CtxOk(c) && Scenes(c, pending, r, g) && c.env.op(h) !in r.world.sidecars && Migrating(c.res, c.d, pending, h)
    ensures Scenes(c, pending, MigrateOne(r, h, c.res, c.d, c.env), g)
  {
    var dg := FindGraph(c.d.graphs, h);
    if !r.aborted && dg.Some? && RootOf(r.world.live, h).Open? && c.env.ready(h) && SourceIntact(c.env, dg.value) && c.env.putSidecar(h) != Lost {
      var s := Sidecar(SchemaApply, h, dg.value.schemaDigest, None, c.env.actor);
      var r1 := PutSidecar(r, c.env.op(h), s);
      PutScene(c, pending, r, h, s, g);
      if c.env.putSidecar(h) == Done { FencedMigrateScene(c, pending, r1, h, dg.value, g); }
      else { SameScenes(c, pending, r1, Abort(r1, h, SchemaFailed), g); }
    } else {
      SameScenes(c, pending, r, MigrateOne(r, h, c.res, c.d, c.env), g);
    }
  }

  lemma FencedDeleteScene(c: Ctx, pending: set<GraphId>, r: Run, h: GraphId, approval: Option<ApprovalId>, g: GraphId)
    requires CtxOk(c) && Scenes(c, pending, r, g) && Poised(c, r, h, GraphDelete, g)
    ensures Scenes(c, pending, FencedDelete(r, h, approval, c.env), g)
  {
    var env := c.env;
    var gone := env.remove(h).RemoveOk? || env.remove(h).gone;
    var e, root := RemoveCalled(h, env.remove(h).RemoveOk?), if gone then Absent else RootOf(r.world.live, h);
    MoveScene(c, pending, r, e, h, GraphDelete, root, g);
    SameScenes(c, pending, MoveRoot(r, e, h, root), FencedDelete(r, h, approval, env), g);
  }

  lemma DeleteScene(c: Ctx, pending: set<GraphId>, r: Run, h: GraphId, g: GraphId)
    requires CtxOk(c) && Scenes(c, pending, r, g) && c.env.op(h) !in r.world.sidecars && (h == g ==> Deleting(c.res, c.d, c.env.artifacts, pending, g))
    ensures Scenes(c, pending, DeleteOne(r, h, c.d, c.env), g)
  {
    var approval := Consumable(c.env.artifacts, h, c.d.configDigest);
    if !r.aborted && c.env.exportFree(h) && c.env.putSidecar(h) != Lost {
      var s := Sidecar(GraphDelete, h, Raw(""), approval, c.env.actor);
      var r1 := PutSidecar(r, c.env.op(h), s);
      PutScene(c, pending, r, h, s, g);
      if c.env.putSidecar(h) == Done { FencedDeleteScene(c, pending, r1, h, approval, g); }
      else { SameScenes(c, pending, r1, Abort(r1, h, DeleteFailed), g); }
    } else {
      SameScenes(c, pending, r, DeleteOne(r, h, c.d, c.env), g);
    }
  }

  // ---- the phases ----

  lemma {:induction false} CreatesScene(c: Ctx, pending: set<GraphId>, r: Run, ids: seq<GraphId>, todo: set<GraphId>, g: GraphId)
    requires CtxOk(c) && Sound(c, r, todo) && NoDup(ids) && IdSet(ids) <= todo && Scenes(c, pending, r, g)
    requires forall h :: h in ids ==> Graph(h) in c.d.digests && Creating(c.res, c.d, pending, h)
    ensures Scenes(c, pending, RunCreates(r, ids, c.d, c.env), g)
    decreases |ids|
  {
    if ids != [] {
      TailIds(ids, todo);
      assert Unvisited(c, r, ids[0]);
      CreateScene(c, pending, r, ids[0], g);
      CreateVisit(c, r, todo, ids[0]);
      CreatesScene(c, pending, CreateOne(r, ids[0], c.d, c.env), ids[1..], todo - {ids[0]}, g);
    }
  }

  lemma {:induction false} MigrationsScene(c: Ctx, pending: set<GraphId>, r: Run, ids: seq<GraphId>, todo: set<GraphId>, g: GraphId)
    requires CtxOk(c) && Sound(c, r, todo) && NoDup(ids) && IdSet(ids) <= todo && Scenes(c, pending, r, g)
    requires forall h :: h in ids ==> Graph(h) in c.d.digests && Migrating(c.res, c.d, pending, h)
    ensures Scenes(c, pending, RunMigrations(r, ids, c.res, c.d, c.env), g)
    decreases |ids|
  {
    if ids != [] {
      TailIds(ids, todo);
      assert Unvisited(c, r, ids[0]) && Migrating(c.res, c.d, pending, ids[0]);
      MigrateScene(c, pending, r, ids[0], g);
      MigrateVisit(c, r, todo, ids[0]);
      MigrationsScene(c, pending, MigrateOne(r, ids[0], c.res, c.d, c.env), ids[1..], todo - {ids[0]}, g);
    }
  }

  lemma {:induction false} DeletesScene(c: Ctx, pending: set<GraphId>, r: Run, ids: seq<GraphId>, todo: set<GraphId>, g: GraphId)
    requires CtxOk(c) && Sound(c, r, todo) && NoDup(ids) && IdSet(ids) <= todo && Scenes(c, pending, r, g)
    requires forall h :: h in ids ==> Schema(h) !in c.d.digests && Deleting(c.res, c.d, c.env.artifacts, pending, h)
    ensures Scenes(c, pending, RunDeletes(r, ids, c.d, c.env), g)
    decreases |ids|
  {
    if ids != [] {
      TailIds(ids, todo);
      assert Unvisited(c, r, ids[0]);
      DeleteScene(c, pending, r, ids[0], g);
      DeleteVisit(c, r, todo, ids[0]);
      DeletesScene(c, pending, DeleteOne(r, ids[0], c.d, c.env), ids[1..], todo - {ids[0]}, g);
    }
  }

  lemma {:induction false} PaymentsScene(c: Ctx, pending: set<GraphId>, p: Paid, cs: seq<Change>, g: GraphId)
    requires Scenes(c, pending, p.run, g)
    ensures Scenes(c, pending, PayAll(p, cs, c.env).run, g)
    decreases |cs|
  {
    if cs != [] {
      var p1 := PayOne(p, cs[0], c.env);
      if p1.run != p.run {
        SceneFrame(c, pending, p.run.world, p1.run.world, g);
        StepScenes(c, pending, p.run, WroteBlob((cs[0].resource, OrEmpty(cs[0].after))), p1.run.world, g);
      }
      PaymentsScene(c, pending, p1, cs[1..], g);
    }
  }

  lemma StartScene(c: Ctx, pending: set<GraphId>, g: GraphId)
    requires CtxOk(c)
    ensures Scenes(c, pending, Start(c.w), g)
  {
  }

  lemma EarlyScenes(c: Ctx, pending: set<GraphId>, creates: seq<GraphId>, migrates: seq<GraphId>, todo: set<GraphId>, g: GraphId)
    requires CtxOk(c) && Sound(c, Start(c.w), todo) && NoDup(creates) && NoDup(migrates)
    requires IdSet(creates) !! IdSet(migrates) && IdSet(creates) + IdSet(migrates) <= todo
    requires forall h :: h in creates ==> Graph(h) in c.d.digests && Creating(c.res, c.d, pending, h)
    requires forall h :: h in migrates ==> Graph(h) in c.d.digests && Migrating(c.res, c.d, pending, h)
    ensures var r := RunMigrations(RunCreates(Start(c.w), creates, c.d, c.env), migrates, c.res, c.d, c.env);
            Scenes(c, pending, r, g) && Sound(c, r, todo - IdSet(creates) - IdSet(migrates))
  {
    var r1 := RunCreates(Start(c.w), creates, c.d, c.env);
    StartScene(c, pending, g);
    CreatesScene(c, pending, Start(c.w), creates, todo, g);
    CreatesPhase(c, Start(c.w), creates, todo);
    MigrationsScene(c, pending, r1, migrates, todo - IdSet(creates), g);
    MigrationsPhase(c, r1, migrates, todo - IdSet(creates));
  }

  /** The lists of a run, each graph with the move it is there for. */
  ghost predicate MoveLists(c: Ctx, pending: set<GraphId>, creates: seq<GraphId>, migrates: seq<GraphId>, deletes: seq<GraphId>) {
    && NoDup(creates) && NoDup(migrates) && NoDup(deletes)
    && (forall h :: h in creates ==> Graph(h) in c.d.digests && Creating(c.res, c.d, pending, h))
    && (forall h :: h in migrates ==> Graph(h) in c.d.digests && Migrating(c.res, c.d, pending, h) && h !in creates)
    && (forall h :: h in deletes ==> Schema(h) !in c.d.digests && Deleting(c.res, c.d, c.env.artifacts, pending, h) && h !in creates && h !in migrates)
  }

  lemma MovesListed(x: Execution, c: Ctx)
    requires Lists(x, c) && Declared(c.d)
    ensures MoveLists(c, x.swept.outcome.pending, ToRun(x.plan, Create, false), ToRun(x.plan, Update, true), ToRun(x.demoted, Delete, false))
  {
  }

  lemma PhasesScene(c: Ctx, pending: set<GraphId>, creates: seq<GraphId>, migrates: seq<GraphId>, cs: seq<Change>, deletes: seq<GraphId>, g: GraphId)
    requires CtxOk(c) && MoveLists(c, pending, creates, migrates, deletes)
    requires Sound(c, Start(c.w), IdSet(creates) + IdSet(migrates) + IdSet(deletes))
    ensures var p := PayAll(Paid(RunMigrations(RunCreates(Start(c.w), creates, c.d, c.env), migrates, c.res, c.d, c.env), true), cs, c.env);
            Scenes(c, pending, p.run, g) && Scenes(c, pending, RunDeletes(p.run, deletes, c.d, c.env), g)
  {
    var todo := IdSet(creates) + IdSet(migrates) + IdSet(deletes);
    ListsApart(creates, migrates, deletes);
    EarlyScenes(c, pending, creates, migrates, todo, g);
    var r := RunMigrations(RunCreates(Start(c.w), creates, c.d, c.env), migrates, c.res, c.d, c.env);
    LateScenes(c, pending, r, cs, deletes, todo - IdSet(creates) - IdSet(migrates), g);
  }

  lemma ListsApart(creates: seq<GraphId>, migrates: seq<GraphId>, deletes: seq<GraphId>)
    requires forall g :: g in migrates ==> g !in creates
    requires forall g :: g in deletes ==> g !in creates && g !in migrates
    ensures IdSet(creates) !! IdSet(migrates)
    ensures IdSet(deletes) <= IdSet(creates) + IdSet(migrates) + IdSet(deletes) - IdSet(creates) - IdSet(migrates)
  {
  }

  lemma LateScenes(c: Ctx, pending: set<GraphId>, r: Run, cs: seq<Change>, deletes: seq<GraphId>, todo: set<GraphId>, g: GraphId)
    requires CtxOk(c) && Sound(c, r, todo) && Scenes(c, pending, r, g) && NoDup(deletes) && IdSet(deletes) <= todo
    requires forall h :: h in deletes ==> Schema(h) !in c.d.digests && Deleting(c.res, c.d, c.env.artifacts, pending, h)
    ensures var p := PayAll(Paid(r, true), cs, c.env);
            Scenes(c, pending, p.run, g) && Scenes(c, pending, RunDeletes(p.run, deletes, c.d, c.env), g)
  {
    PaymentsScene(c, pending, Paid(r, true), cs, g);
    PayAllSound(c, Paid(r, true), cs, todo);
    DeletesScene(c, pending, PayAll(Paid(r, true), cs, c.env).run, deletes, todo, g);
  }

  lemma ExecutionScenes(w: World, l0: Ledger, d: Desired, env: Env, g: GraphId)
    requires Runs(w, l0, d, env)
    ensures var c, x := CtxOf(w, l0, d, env), Execute(w, l0, d, env);
            Scenes(c, x.swept.outcome.pending, x.paid.run, g) && Scenes(c, x.swept.outcome.pending, x.deleted, g)
  {
    var c, x := CtxOf(w, l0, d, env), Execute(w, l0, d, env);
    RunLists(w, l0, d, env);
    StartSound(w, l0, d, env, IdSet(ToRun(x.plan, Create, false)) + IdSet(ToRun(x.plan, Update, true)) + IdSet(ToRun(x.demoted, Delete, false)));
    MovesListed(x, c);
    PhasesScene(c, x.swept.outcome.pending, ToRun(x.plan, Create, false), ToRun(x.plan, Update, true), x.demoted, ToRun(x.demoted, Delete, false), g);
  }

  // ---- a scene can be mended ----

  /** Everything about `g` at the start that the argument needs. */
  ghost predicate Opening(c: Ctx, pending: set<GraphId>, g: GraphId) {
    var root := RootOf(c.w.live, g);
    && Paired(c.res) && Mendable(c.l0, c.w, g)
    && (Deleting(c.res, c.d, c.env.artifacts, pending, g) ==> NoSchemaIntent(c.w.sidecars, g))
    && (root.Open? ==> (Known(c.res, root, g) <==> Recorded(c.l0.resources, g) == Some(root.schema) || Teacher(c.w.sidecars, root.schema, g)))
    && (g !in pending ==> InStep(c.res, c.w.live, g) && (root.Absent? ==> NoSchemaIntent(c.w.sidecars, g)))
  }

  /** Some stored create or schema intent of `g` names digest `d`. */
  ghost predicate Teacher(sc: map<OpId, Sidecar>, d: Digest, g: GraphId) {
    exists op :: op in sc && sc[op].graph == g && sc[op].kind != GraphDelete && sc[op].desiredSchema == d
  }

  lemma SceneMends(c: Ctx, pending: set<GraphId>, w': World, g: GraphId)
    requires CtxOk(c) && Opening(c, pending, g) && Scene(c, pending, w', g)
    ensures Mendable(c.l0, w', g)
  {
    var op := c.env.op(g);
    if op !in w'.sidecars {
      SameMend(c, w', g);
    } else {
      match w'.sidecars[op].kind
      case GraphCreate => CreateMends(c, pending, w', g);
      case SchemaApply => MigrateMends(c, pending, w', g);
      case GraphDelete => DeleteMends(c, pending, w', g);
    }
  }

  lemma SameMend(c: Ctx, w': World, g: GraphId)
    requires Mendable(c.l0, c.w, g) && RootOf(w'.live, g) == RootOf(c.w.live, g)
    requires forall o :: o in c.w.sidecars && c.w.sidecars[o].graph == g ==> o in w'.sidecars && w'.sidecars[o] == c.w.sidecars[o]
    requires forall o :: o in w'.sidecars && w'.sidecars[o].graph == g ==> o in c.w.sidecars && c.w.sidecars[o] == w'.sidecars[o]
    ensures Mendable(c.l0, w', g)
  {
    var s, s' := Stores(c.l0, c.w.sidecars), Stores(c.l0, w'.sidecars);
    if RootOf(w'.live, g).Open? && Teacher(c.w.sidecars, RootOf(w'.live, g).schema, g) {
      var o :| o in c.w.sidecars && c.w.sidecars[o].graph == g && c.w.sidecars[o].kind != GraphDelete && c.w.sidecars[o].desiredSchema == RootOf(w'.live, g).schema;
      assert o in s'.sidecars;
    }
  }

  lemma OwnTeaches(l: Ledger, w': World, op: OpId, g: GraphId)
    requires op in w'.sidecars && w'.sidecars[op].graph == g && w'.sidecars[op].kind != GraphDelete && RootOf(w'.live, g) == Open(w'.sidecars[op].desiredSchema)
    ensures Mendable(l, w', g)
  {
  }

  lemma CreateMends(c: Ctx, pending: set<GraphId>, w': World, g: GraphId)
    requires CtxOk(c) && Opening(c, pending, g) && Scene(c, pending, w', g)
    requires c.env.op(g) in w'.sidecars && w'.sidecars[c.env.op(g)].kind == GraphCreate
    ensures Mendable(c.l0, w', g)
  {
    assert Recorded(c.res, g) == None;
    assert RootOf(c.w.live, g).Absent?;
    if RootOf(w'.live, g).Open? { OwnTeaches(c.l0, w', c.env.op(g), g); }
  }

  /** The root has not moved, and some intent found or the ledger knows it. */
  lemma StillKnown(c: Ctx, pending: set<GraphId>, w': World, g: GraphId)
    requires Opening(c, pending, g) && Scene(c, pending, w', g) && Known(c.res, RootOf(c.w.live, g), g) && RootOf(w'.live, g) == RootOf(c.w.live, g)
    ensures Mendable(c.l0, w', g)
  {
    var d := RootOf(c.w.live, g).schema;
    if Teacher(c.w.sidecars, d, g) {
      var o :| o in c.w.sidecars && c.w.sidecars[o].graph == g && c.w.sidecars[o].kind != GraphDelete && c.w.sidecars[o].desiredSchema == d;
      OwnTeaches(c.l0, w', o, g);
    }
  }

  lemma MigrateMends(c: Ctx, pending: set<GraphId>, w': World, g: GraphId)
    requires CtxOk(c) && Opening(c, pending, g) && Scene(c, pending, w', g)
    requires c.env.op(g) in w'.sidecars && w'.sidecars[c.env.op(g)].kind == SchemaApply
    ensures Mendable(c.l0, w', g)
  {
    assert Known(c.res, RootOf(c.w.live, g), g);
    if RootOf(w'.live, g) == RootOf(c.w.live, g) { StillKnown(c, pending, w', g); } else { OwnTeaches(c.l0, w', c.env.op(g), g); }
  }

  lemma DeleteMends(c: Ctx, pending: set<GraphId>, w': World, g: GraphId)
    requires CtxOk(c) && Opening(c, pending, g) && Scene(c, pending, w', g)
    requires c.env.op(g) in w'.sidecars && w'.sidecars[c.env.op(g)].kind == GraphDelete
    ensures Mendable(c.l0, w', g)
  {
    assert Schema(g) in c.res;
    assert Known(c.res, RootOf(c.w.live, g), g);
    if RootOf(w'.live, g) == RootOf(c.w.live, g) { StillKnown(c, pending, w', g); }
  }

  // ---- after the write ----

  /** The ledger is written and retirement has begun: nothing of `g` moved, completed intents may be gone, others are not. */
  ghost predicate Closing(c: Ctx, r: Run, l': Ledger, w': World, g: GraphId) {
    && w'.live == r.world.live
    && (forall o :: o in w'.sidecars ==> o in r.world.sidecars && w'.sidecars[o] == r.world.sidecars[o])
    && (c.env.op(g) in r.world.sidecars && c.env.op(g) !in r.completed ==> c.env.op(g) in w'.sidecars)
    && Recorded(l'.resources, g) == (if c.env.op(g) in r.completed then DigestOf(Target(c.d, g)) else Recorded(c.res, g))
    && (c.env.op(g) in r.completed ==> RootOf(r.world.live, g) == Target(c.d, g))
  }

  lemma KnownMends(l: Ledger, w': World, g: GraphId)
    requires Known(l.resources, RootOf(w'.live, g), g)
    ensures Mendable(l, w', g)
  {
  }

  lemma AbsentMends(l: Ledger, w': World, g: GraphId)
    requires RootOf(w'.live, g).Absent? && NoSchemaIntent(w'.sidecars, g)
    ensures Mendable(l, w', g)
  {
  }

  /** What is left of the sidecars holds no schema intent, if neither those found nor the run's own is one. */
  lemma NoneLeft(c: Ctx, pending: set<GraphId>, r: Run, l': Ledger, w': World, g: GraphId)
    requires Scene(c, pending, r.world, g) && Closing(c, r, l', w', g) && NoSchemaIntent(c.w.sidecars, g)
    requires c.env.op(g) in r.world.sidecars ==> r.world.sidecars[c.env.op(g)].kind != SchemaApply
    ensures NoSchemaIntent(w'.sidecars, g)
  {
  }

  lemma ClosingMends(c: Ctx, pending: set<GraphId>, r: Run, l': Ledger, w': World, g: GraphId)
    requires CtxOk(c) && Opening(c, pending, g) && Scene(c, pending, r.world, g) && Closing(c, r, l', w', g)
    requires c.env.op(g) in r.completed <==> Moving(c.res, c.d, c.env.artifacts, pending, g) && g !in r.failed
    ensures Mendable(l', w', g)
  {
    var op := c.env.op(g);
    if op in r.completed {
      ClosedDone(c, pending, r, l', w', g);
    } else if op !in r.world.sidecars {
      ClosedWithout(c, pending, r, l', w', g);
    } else {
      ClosedFailed(c, pending, r, l', w', g);
    }
  }

  lemma ClosedWithout(c: Ctx, pending: set<GraphId>, r: Run, l': Ledger, w': World, g: GraphId)
    requires Opening(c, pending, g) && Scene(c, pending, r.world, g) && Closing(c, r, l', w', g)
    requires c.env.op(g) !in r.world.sidecars && c.env.op(g) !in r.completed
    ensures Mendable(l', w', g)
  {
    var root := RootOf(c.w.live, g);
    assert RootOf(w'.live, g) == root;
    match root
    case Partial =>
    case Absent =>
      assert NoSchemaIntent(c.w.sidecars, g);
      NoneLeft(c, pending, r, l', w', g);
      AbsentMends(l', w', g);
    case Open(d) => OpenClosed(c, pending, r, l', w', g, d);
  }

  /** An open root nothing touched: the ledger knows it by now, or all its sidecars were delete intents. */
  lemma OpenClosed(c: Ctx, pending: set<GraphId>, r: Run, l': Ledger, w': World, g: GraphId, d: Digest)
    requires Opening(c, pending, g) && Scene(c, pending, r.world, g) && Closing(c, r, l', w', g)
    requires c.env.op(g) !in r.world.sidecars && c.env.op(g) !in r.completed && RootOf(c.w.live, g) == Open(d) && RootOf(w'.live, g) == Open(d)
    ensures Mendable(l', w', g)
  {
    if Known(c.res, Open(d), g) { KnownMends(l', w', g); }
  }

  lemma ClosedDone(c: Ctx, pending: set<GraphId>, r: Run, l': Ledger, w': World, g: GraphId)
    requires CtxOk(c) && Opening(c, pending, g) && Scene(c, pending, r.world, g) && Closing(c, r, l', w', g)
    requires c.env.op(g) in r.completed && Moving(c.res, c.d, c.env.artifacts, pending, g)
    ensures Mendable(l', w', g)
  {
    if Target(c.d, g).Open? {
      KnownMends(l', w', g);
    } else {
      assert Deleting(c.res, c.d, c.env.artifacts, pending, g);
      assert c.env.op(g) in r.world.sidecars ==> r.world.sidecars[c.env.op(g)].kind != SchemaApply;
      NoneLeft(c, pending, r, l', w', g);
      AbsentMends(l', w', g);
    }
  }

  lemma ClosedFailed(c: Ctx, pending: set<GraphId>, r: Run, l': Ledger, w': World, g: GraphId)
    requires CtxOk(c) && Opening(c, pending, g) && Scene(c, pending, r.world, g) && Closing(c, r, l', w', g)
    requires c.env.op(g) in r.world.sidecars && c.env.op(g) !in r.completed
    ensures Mendable(l', w', g)
  {
    var op := c.env.op(g);
    var own := r.world.sidecars[op];
    assert g !in pending && InStep(c.res, c.w.live, g);
    if RootOf(w'.live, g).Open? {
      if RootOf(w'.live, g) == RootOf(c.w.live, g) { KnownMends(l', w', g); } else { OwnTeaches(l', w', op, g); }
    } else if RootOf(w'.live, g).Absent? {
      assert own.kind != SchemaApply;
      assert NoSchemaIntent(c.w.sidecars, g);
      NoneLeft(c, pending, r, l', w', g);
      AbsentMends(l', w', g);
    }
  }

  // ---- the whole command ----

  /** Retirement moves no root and no ledger, adds no sidecar, and drops only what it was told to. */
  ghost predicate Retiring(w1: World, w2: World, ops: seq<OpId>) {
    && w2.live == w1.live && w2.ledger == w1.ledger
    && (forall o :: o in w2.sidecars ==> o in w1.sidecars && w2.sidecars[o] == w1.sidecars[o])
    && (forall o :: o in w1.sidecars && o !in ops ==> o in w2.sidecars)
  }

  lemma RetiringTrans(w1: World, w2: World, w3: World, ops: seq<OpId>)
    requires Retiring(w1, w2, ops) && Retiring(w2, w3, ops)
    ensures Retiring(w1, w3, ops)
  {
  }

  /** Every world since `w`, which `r` stands in, has only retired `ops`. */
  ghost predicate RetiringLog(w: World, log: seq<Entry>, r: Run, ops: seq<OpId>) {
    Retiring(w, r.world, ops) && forall e :: e in r.log ==> e in log || Retiring(w, e.world, ops)
  }

  lemma {:induction false} DropsRetire(w: World, log: seq<Entry>, r: Run, ops: seq<OpId>, drop: OpId -> bool, all: seq<OpId>)
    requires RetiringLog(w, log, r, all) && forall o :: o in ops ==> o in all
    ensures RetiringLog(w, log, DropAll(r, ops, drop), all)
    decreases |ops|
  {
    if ops != [] {
      var r1 := DropSidecar(r, ops[0], drop(ops[0]));
      assert Retiring(r.world, r1.world, all);
      RetiringTrans(w, r.world, r1.world, all);
      DropsRetire(w, log, r1, ops[1..], drop, all);
    }
  }

  lemma {:induction false} MarksRetire(w: World, log: seq<Entry>, r: Run, ids: seq<ApprovalId>, mark: ApprovalId -> bool, all: seq<OpId>)
    requires RetiringLog(w, log, r, all)
    ensures RetiringLog(w, log, MarkAll(r, ids, mark), all)
    decreases |ids|
  {
    if ids != [] {
      var r1 := MarkOne(r, ids[0], mark(ids[0]));
      assert Retiring(r.world, r1.world, all);
      RetiringTrans(w, r.world, r1.world, all);
      MarksRetire(w, log, r1, ids[1..], mark, all);
    }
  }

  lemma CommitRetiring(l0: Ledger, x: Execution, d: Desired, env: Env, e: Entry)
    requires x.deleted.world.ledger == Some(l0) && e in Commit(l0, x, d, env).run.log && e !in x.deleted.log
    ensures var w := x.deleted.world.(ledger := Some(if x.ledger != l0 then Committed(x.ledger) else l0));
            Retiring(w, e.world, x.swept.outcome.completed + x.deleted.completed)
  {
    var w := x.deleted.world.(ledger := Some(if x.ledger != l0 then Committed(x.ledger) else l0));
    var r1 := if x.ledger != l0 && env.putState != Lost then Step(x.deleted, WroteState, w) else x.deleted;
    var ops, ids := x.swept.outcome.completed + x.deleted.completed, x.swept.outcome.consumed + ConsumedIds(x.deleted.removed);
    if !(x.ledger != l0 && env.putState == Lost) {
      assert RetiringLog(w, x.deleted.log, r1, ops);
      DropsRetire(w, x.deleted.log, r1, ops, env.drop, ops);
      MarksRetire(w, x.deleted.log, DropAll(r1, ops, env.drop), Listed(env.files, ids), env.mark, ops);
    }
  }

  lemma OpeningHolds(w: World, l0: Ledger, d: Desired, env: Env, g: GraphId)
    requires Runs(w, l0, d, env) && FullListing(env.probes, w.sidecars, w.live)
    requires Covered(l0.resources, w.live, w.sidecars, g) && Mendable(l0, w, g)
    requires var st := SweepLedger(l0, env.probes);
             Deleting(st.ledger.resources, d, env.artifacts, st.outcome.pending, g) ==> NoSchemaIntent(w.sidecars, g)
    ensures Opening(CtxOf(w, l0, d, env), SweepLedger(l0, env.probes).outcome.pending, g)
  {
    var s, root := Stores(l0, w.sidecars), RootOf(w.live, g);
    SweepKeepsPaired(Swept(l0, NoOutcome), env.probes);
    SweepLearns(s, env.probes, w.live, g);
    TeachesIff(s, env.probes, w.live, g);
    if g !in SweepLedger(l0, env.probes).outcome.pending {
      NotHeldInStep(s, env.probes, w.live, g);
      if root.Absent? { NotHeldAbsent(s, env.probes, w.live, g); }
    }
  }

  /** An entry of the retirement, seen from the end of the phases. */
  lemma RetiredClosing(c: Ctx, l1: Ledger, pending: set<GraphId>, plan: seq<Change>, final: seq<Change>, paid: Run, r: Run, l2: Ledger,
                       l': Ledger, w': World, swept: seq<OpId>, g: GraphId)
    requires Concluded(c, l1, pending, plan, final, paid, r, l2) && l'.resources == l2.resources
    requires Retiring(r.world.(ledger := Some(l')), w', swept + r.completed) && forall h :: c.env.op(h) !in swept
    ensures Closing(c, r, l', w', g)
    ensures c.env.op(g) in r.completed <==> Moving(c.res, c.d, c.env.artifacts, pending, g) && g !in r.failed
  {
    LedgerTellsTruth(c, l1, pending, plan, final, paid, r, l2, g);
    CompletedIffMoving(c, pending, paid, r, g);
    assert Tracked(c, r, g);
  }

  lemma EntryMends(w: World, l0: Ledger, d: Desired, env: Env, e: Entry, g: GraphId)
    requires Runs(w, l0, d, env) && Opening(CtxOf(w, l0, d, env), SweepLedger(l0, env.probes).outcome.pending, g)
    requires e in Commit(l0, Execute(w, l0, d, env), d, env).run.log
    ensures e.world.ledger.Some? && Mendable(e.world.ledger.value, e.world, g)
  {
    var c, x := CtxOf(w, l0, d, env), Execute(w, l0, d, env);
    RunConcludes(w, l0, d, env);
    ExecutionScenes(w, l0, d, env, g);
    if e in x.deleted.log {
      PhaseMends(c, x.swept.outcome.pending, x.deleted, e, g);
    } else {
      SoundWorld(c, x.deleted);
      CommitRetiring(l0, x, d, env, e);
      SweptAreOld(w, l0, env);
      var l' := if x.ledger != l0 then Committed(x.ledger) else l0;
      RetiredClosing(c, x.swept.ledger, x.swept.outcome.pending, x.plan, x.final, x.paid.run, x.deleted, x.ledger, l', e.world, x.swept.outcome.completed, g);
      ClosingMends(c, x.swept.outcome.pending, x.deleted, l', e.world, g);
    }
  }

  /** Before the write the stored ledger is still the one the run read. */
  lemma PhaseMends(c: Ctx, pending: set<GraphId>, r: Run, e: Entry, g: GraphId)
    requires CtxOk(c) && Opening(c, pending, g) && Scenes(c, pending, r, g) && Sound(c, r, {}) && c.w.ledger == Some(c.l0) && e in r.log
    ensures e.world.ledger.Some? && Mendable(e.world.ledger.value, e.world, g)
  {
    assert SafeStep(c, e.world) && Scene(c, pending, e.world, g);
    SceneMends(c, pending, e.world, g);
  }

  /**
   Crashes can be mended. Wherever an apply with a full, exact listing stops, every graph that was covered and that a sweep
   could finish with is still one a sweep can finish with, or a create left its root half made; unless the run was deleting
   a graph for which a schema intent was still stored.
   */
  lemma CrashLeavesMendable(w: World, l0: Ledger, d: Desired, env: Env, e: Entry, g: GraphId)
    requires Runs(w, l0, d, env) && FullListing(env.probes, w.sidecars, w.live)
    requires Covered(l0.resources, w.live, w.sidecars, g) && Mendable(l0, w, g)
    requires var st := SweepLedger(l0, env.probes);
             Deleting(st.ledger.resources, d, env.artifacts, st.outcome.pending, g) ==> NoSchemaIntent(w.sidecars, g)
    requires e in ApplyCommand(w, d, env).run.log
    ensures e.world.ledger.Some? && Mendable(e.world.ledger.value, e.world, g)
  {
    var x := Execute(w, l0, d, env);
    OpeningHolds(w, l0, d, env, g);
    ConcludedEntries(w, l0, x, d, env, e);
    if e in x.paid.run.log {
      RunConcludes(w, l0, d, env);
      ExecutionScenes(w, l0, d, env, g);
      PhaseMends(CtxOf(w, l0, d, env), x.swept.outcome.pending, x.paid.run, e, g);
    } else {
      EntryMends(w, l0, d, env, e, g);
    }
  }

  lemma ConcludedEntries(w: World, l0: Ledger, x: Execution, d: Desired, env: Env, e: Entry)
    requires e in Conclude(w, l0, x, d, env).run.log
    ensures e in x.paid.run.log || e in Commit(l0, x, d, env).run.log
  {
  }

  /** The excepted case, exactly: once such a removal took the root, a sweep can finish if and only if no schema intent was stored. */
  lemma RemovalStrandsIntent(w: World, l0: Ledger, d: Desired, env: Env, e: Entry, g: GraphId)
    requires Runs(w, l0, d, env) && e in Execute(w, l0, d, env).deleted.log && RootOf(e.world.live, g).Absent?
    requires var st := SweepLedger(l0, env.probes); Deleting(st.ledger.resources, d, env.artifacts, st.outcome.pending, g)
    ensures e.world.ledger == Some(l0) && (Mendable(l0, e.world, g) <==> NoSchemaIntent(w.sidecars, g))
  {
    var c, x := CtxOf(w, l0, d, env), Execute(w, l0, d, env);
    RunConcludes(w, l0, d, env);
    ExecutionScenes(w, l0, d, env, g);
    AbsentScene(c, x.swept.outcome.pending, x.deleted, e, g);
  }

  lemma AbsentScene(c: Ctx, pending: set<GraphId>, r: Run, e: Entry, g: GraphId)
    requires CtxOk(c) && Scenes(c, pending, r, g) && Sound(c, r, {}) && c.w.ledger == Some(c.l0) && e in r.log
    requires RootOf(e.world.live, g).Absent? && Deleting(c.res, c.d, c.env.artifacts, pending, g)
    ensures e.world.ledger == Some(c.l0) && (Mendable(c.l0, e.world, g) <==> NoSchemaIntent(c.w.sidecars, g))
  {
    var w', op := e.world, c.env.op(g);
    assert SafeStep(c, w') && Scene(c, pending, w', g);
    assert op in w'.sidecars ==> w'.sidecars[op].kind != SchemaApply;
    if !NoSchemaIntent(c.w.sidecars, g) {
      var o :| o in c.w.sidecars && c.w.sidecars[o].graph == g && c.w.sidecars[o].kind == SchemaApply;
      assert o in w'.sidecars && w'.sidecars[o].kind == SchemaApply;
    }
  }

  /** And such an intent stays: no sweep over the absent root ever retires it. */
  lemma SchemaIntentOutlives(s: Stores, ps: seq<Probe>, live: map<GraphId, Root>, op: OpId)
    requires FullListing(ps, s.sidecars, live) && op in s.sidecars && s.sidecars[op].kind == SchemaApply && RootOf(live, s.sidecars[op].graph).Absent?
    ensures op in CommitSweep(s, ps).sidecars
  {
    SweepFate(s, ps, live, s.sidecars[op].graph, op);
  }

  /**
   From crash to clean: after an apply stopped anywhere, two finished syncs with full, exact listings leave no sidecar of any
   such graph whose root is not half made.
   */
  lemma TwoRefreshesMend(w: World, l0: Ledger, d: Desired, env: Env, e: Entry, w1: World, d1: Desired, e1: Refresh.SyncEnv,
                         d2: Desired, e2: Refresh.SyncEnv, g: GraphId)
    requires Runs(w, l0, d, env) && FullListing(env.probes, w.sidecars, w.live)
    requires Covered(l0.resources, w.live, w.sidecars, g) && Mendable(l0, w, g)
    requires var st := SweepLedger(l0, env.probes);
             Deleting(st.ledger.resources, d, env.artifacts, st.outcome.pending, g) ==> NoSchemaIntent(w.sidecars, g)
    requires e in ApplyCommand(w, d, env).run.log && w1 == e.world && !RootOf(w1.live, g).Partial?
    requires SyncFinishes(w1, Refresh.RefreshState, d1, e1) && (forall o :: e1.drop(o)) && FullListing(e1.probes, w1.sidecars, w1.live)
    requires e1.seen(g) == RootOf(w1.live, g)
    requires var w2 := Refresh.SyncCommand(w1, Refresh.RefreshState, d1, e1).world;
             SyncFinishes(w2, Refresh.RefreshState, d2, e2) && (forall o :: e2.drop(o)) && FullListing(e2.probes, w2.sidecars, w2.live)
    ensures var w2 := Refresh.SyncCommand(w1, Refresh.RefreshState, d1, e1).world;
            NoSidecarOf(Refresh.SyncCommand(w2, Refresh.RefreshState, d2, e2).world.sidecars, g)
  {
    CrashLeavesMendable(w, l0, d, env, e, g);
    TwoRefreshesRetire(w1, Refresh.RefreshState, d1, e1, d2, e2, g);
  }
}
