/** What an apply run does to each graph it visits, decided by the world it started from and the outcomes it meets alone. */
module VisitRows {
  import opened Addresses
  import opened Digests
  import opened Ledgers
  import opened Sweep
  import opened Plan
  import opened Classify
  import opened Apply
  import opened ApplySafety
  import opened ApplyLedger
  import opened ApplyOutcome
  import opened ApplyReport
  import opened CrashSafety
  import opened ApplyTheorems
  import opened ApplyStops

  // ---- the trail of a graph in the log ----

  predicate About(e: Event, g: GraphId, env: Env) {
    ((e.WroteSidecar? || e.DroppedSidecar?) && e.op == env.op(g)) || (MovesGraph(e) && e.graph == g)
  }

  /** The events of one graph, in order. */
  function Trail(log: seq<Entry>, g: GraphId, env: Env): seq<Event>
    decreases |log|
  {
    if log == [] then []
    else
      var e := log[|log| - 1].event;
      Trail(log[..|log| - 1], g, env) + (if About(e, g, env) then [e] else [])
  }

  lemma TrailStep(r: Run, e: Event, w: World, g: GraphId, env: Env)
    ensures Trail(Step(r, e, w).log, g, env) == Trail(r.log, g, env) + if About(e, g, env) then [e] else []
  {
    var log' := Step(r, e, w).log;
    assert log'[..|log'| - 1] == r.log;
  }

  // ---- one row for each kind of visit ----

  datatype Plot = Plot(w: World, res: Resources, d: Desired, env: Env)

  /** What a create does to its graph: nothing, a lone intent, an intent taken back, or an intent and the init. */
  function CreateTrail(c: Plot, g: GraphId, dg: DesiredGraph): seq<Event> {
    var op := c.env.op(g);
    match c.env.putSidecar(g)
    case Lost => []
    case Unacknowledged => [WroteSidecar(op)]
    case Done =>
      if SourceIntact(c.env, dg) then [WroteSidecar(op), InitCalled(g, c.env.init(g).InitOk?)]
      else if c.env.drop(op) then [WroteSidecar(op), DroppedSidecar(op)] else [WroteSidecar(op)]
  }

  predicate Migratable(c: Plot, g: GraphId, dg: DesiredGraph) {
    RootOf(c.w.live, g).Open? && c.env.ready(g) && SourceIntact(c.env, dg)
  }

  /** The engine refused, its manifest version is the pinned one, and the graph stands where the ledger has it. */
  predicate Refused(c: Plot, g: GraphId, dg: DesiredGraph) {
    var m, root := c.env.migrate(g), RootOf(c.w.live, g);
    m.MigrateErr? && m.pinned && root.Open? && Recorded(c.res, g) == Some(if m.moved then dg.schemaDigest else root.schema)
  }

  function MigrateTrail(c: Plot, g: GraphId, dg: DesiredGraph): seq<Event> {
    var op := c.env.op(g);
    if !Migratable(c, g, dg) then []
    else
      match c.env.putSidecar(g)
      case Lost => []
      case Unacknowledged => [WroteSidecar(op)]
      case Done =>
        if c.env.migrate(g).MigrateOk? then [WroteSidecar(op), SchemaApplyCalled(g, true)]
        else if Refused(c, g, dg) && c.env.drop(op) then [WroteSidecar(op), SchemaApplyCalled(g, false), DroppedSidecar(op)]
        else [WroteSidecar(op), SchemaApplyCalled(g, false)]
  }

  function DeleteTrail(c: Plot, g: GraphId): seq<Event> {
    var op := c.env.op(g);
    if !c.env.exportFree(g) then []
    else
      match c.env.putSidecar(g)
      case Lost => []
      case Unacknowledged => [WroteSidecar(op)]
      case Done => [WroteSidecar(op), RemoveCalled(g, c.env.remove(g).RemoveOk?)]
  }

  function Expected(c: Plot, v: Visit): seq<Event> {
    var dg := FindGraph(c.d.graphs, v.graph);
    if v.rank == 4 then DeleteTrail(c, v.graph)
    else if dg.None? then []
    else if v.rank == 1 then CreateTrail(c, v.graph, dg.value) else MigrateTrail(c, v.graph, dg.value)
  }

  /** The visit ends without the engine call it is for succeeding. */
  predicate Fails(c: Plot, v: Visit) {
    var g, dg, env := v.graph, FindGraph(c.d.graphs, v.graph), c.env;
    if v.rank == 4 then !(env.exportFree(g) && env.putSidecar(g) == Done && env.remove(g).RemoveOk?)
    else if dg.None? then false
    else if v.rank == 1 then !(env.putSidecar(g) == Done && SourceIntact(env, dg.value) && env.init(g).InitOk?)
    else !(Migratable(c, g, dg.value) && env.putSidecar(g) == Done && env.migrate(g).MigrateOk?)
  }

  // ---- one visit ----

  /** What a visit leaves of every graph but its own. */
  ghost predicate Elsewhere(r: Run, r': Run, env: Env, g: GraphId) {
    forall h :: h != g ==>
      Trail(r'.log, h, env) == Trail(r.log, h, env) && (h in r'.failed <==> h in r.failed) && RootOf(r'.world.live, h) == RootOf(r.world.live, h)
  }

  ghost predicate Follows(r: Run, r': Run, env: Env, g: GraphId, more: seq<Event>, fails: bool) {
    && Trail(r'.log, g, env) == Trail(r.log, g, env) + more
    && (r'.aborted <==> fails) && (g in r'.failed <==> fails)
  }

  /** A step about `g` that moves no other root. */
  lemma StepOwn(r: Run, e: Event, w: World, env: Env, g: GraphId)
    requires Injective(env) && About(e, g, env) && forall h :: h != g ==> RootOf(w.live, h) == RootOf(r.world.live, h)
    ensures Elsewhere(r, Step(r, e, w), env, g) && Trail(Step(r, e, w).log, g, env) == Trail(r.log, g, env) + [e]
  {
    TrailStep(r, e, w, g, env);
    forall h | h != g ensures Trail(Step(r, e, w).log, h, env) == Trail(r.log, h, env) {
      TrailStep(r, e, w, h, env);
      assert env.op(h) != env.op(g);
    }
  }

  lemma ElsewhereTrans(r: Run, r1: Run, r2: Run, env: Env, g: GraphId)
    requires Elsewhere(r, r1, env, g) && Elsewhere(r1, r2, env, g)
    ensures Elsewhere(r, r2, env, g)
  {
  }

  lemma FencedCreateRow(c: Plot, r: Run, g: GraphId, dg: DesiredGraph)
    requires Injective(c.env) && !r.aborted && g !in r.failed
    ensures var r', op, env := FencedCreate(r, g, dg, c.env), c.env.op(g), c.env;
            && Elsewhere(r, r', env, g)
            && Follows(r, r', env, g,
                       if SourceIntact(env, dg) then [InitCalled(g, env.init(g).InitOk?)] else if env.drop(op) then [DroppedSidecar(op)] else [],
                       !(SourceIntact(env, dg) && env.init(g).InitOk?))
  {
    var env, op := c.env, c.env.op(g);
    if SourceIntact(env, dg) {
      var e, root := InitCalled(g, env.init(g).InitOk?), RootAfterInit(RootOf(r.world.live, g), env.init(g), dg.schemaDigest);
      StepOwn(r, e, MoveRoot(r, e, g, root).world, env, g);
    } else if env.drop(op) {
      StepOwn(r, DroppedSidecar(op), DropSidecar(r, op, true).world, env, g);
    }
  }

  /** A visit that writes its intent first. */
  lemma AfterIntent(r: Run, s: Sidecar, r': Run, env: Env, g: GraphId, more: seq<Event>, fails: bool)
    requires Injective(env)
    requires var r1 := PutSidecar(r, env.op(g), s); Elsewhere(r1, r', env, g) && Follows(r1, r', env, g, more, fails)
    ensures Elsewhere(r, r', env, g) && Follows(r, r', env, g, [WroteSidecar(env.op(g))] + more, fails)
  {
    var r1 := PutSidecar(r, env.op(g), s);
    StepOwn(r, WroteSidecar(env.op(g)), r1.world, env, g);
    ElsewhereTrans(r, r1, r', env, g);
  }

  /** A visit that ends at its intent, or before it. */
  lemma BareVisit(r: Run, env: Env, g: GraphId, origin: Origin)
    ensures Elsewhere(r, Abort(r, g, origin), env, g) && Follows(r, Abort(r, g, origin), env, g, [], true)
  {
  }

  lemma CreateRow(c: Plot, r: Run, g: GraphId)
    requires Injective(c.env) && !r.aborted && g !in r.failed
    ensures var r' := CreateOne(r, g, c.d, c.env);
            Elsewhere(r, r', c.env, g) && Follows(r, r', c.env, g, Expected(c, Visit(g, 1)), Fails(c, Visit(g, 1)))
  {
    var dg, op, env := FindGraph(c.d.graphs, g), c.env.op(g), c.env;
    if dg.Some? {
      var s := Sidecar(GraphCreate, g, dg.value.schemaDigest, None, env.actor);
      var r1 := PutSidecar(r, op, s);
      BareVisit(r, env, g, CreateFailed);
      BareVisit(r1, env, g, CreateFailed);
      AfterIntent(r, s, Abort(r1, g, CreateFailed), env, g, [], true);
      if env.putSidecar(g) == Done {
        FencedCreateRow(c, r1, g, dg.value);
        var more := if SourceIntact(env, dg.value) then [InitCalled(g, env.init(g).InitOk?)] else if env.drop(op) then [DroppedSidecar(op)] else [];
        AfterIntent(r, s, FencedCreate(r1, g, dg.value, env), env, g, more, !(SourceIntact(env, dg.value) && env.init(g).InitOk?));
        assert [WroteSidecar(op)] + more == CreateTrail(c, g, dg.value);
      }
    }
  }

  lemma FencedMigrateRow(c: Plot, r: Run, g: GraphId, dg: DesiredGraph)
    requires Injective(c.env) && !r.aborted && g !in r.failed && RootOf(r.world.live, g) == RootOf(c.w.live, g) && RootOf(c.w.live, g).Open?
    ensures var r', op, env := FencedMigrate(r, g, dg, c.res, c.env), c.env.op(g), c.env;
            && Elsewhere(r, r', env, g)
            && Follows(r, r', env, g,
                       [SchemaApplyCalled(g, env.migrate(g).MigrateOk?)]
                       + (if !env.migrate(g).MigrateOk? && Refused(c, g, dg) && env.drop(op) then [DroppedSidecar(op)] else []),
                       !env.migrate(g).MigrateOk?)
  {
    var env, op := c.env, c.env.op(g);
    var e, root := SchemaApplyCalled(g, env.migrate(g).MigrateOk?), RootAfterMigrate(RootOf(r.world.live, g), env.migrate(g), dg.schemaDigest);
    var r1 := MoveRoot(r, e, g, root);
    StepOwn(r, e, r1.world, env, g);
    if !env.migrate(g).MigrateOk? {
      var dropped := Refused(c, g, dg) && env.drop(op);
      assert NothingMoved(env, g, c.res, root) <==> Refused(c, g, dg);
      TakenBack(c, r1, g, dropped);
      ElsewhereTrans(r, r1, Abort(DropSidecar(r1, op, dropped), g, SchemaFailed), env, g);
    }
  }

  lemma TakenBack(c: Plot, r: Run, g: GraphId, dropped: bool)
    requires Injective(c.env)
    ensures var r' := Abort(DropSidecar(r, c.env.op(g), dropped), g, SchemaFailed);
            Elsewhere(r, r', c.env, g) && Follows(r, r', c.env, g, if dropped then [DroppedSidecar(c.env.op(g))] else [], true)
  {
    if dropped { StepOwn(r, DroppedSidecar(c.env.op(g)), DropSidecar(r, c.env.op(g), true).world, c.env, g); }
  }

  lemma AcceptedMigrateRow(c: Plot, r: Run, g: GraphId, dg: DesiredGraph)
    requires Injective(c.env) && !r.aborted && g !in r.failed && RootOf(r.world.live, g) == RootOf(c.w.live, g)
    requires Migratable(c, g, dg) && c.env.putSidecar(g) == Done
    ensures var r1 := PutSidecar(r, c.env.op(g), Sidecar(SchemaApply, g, dg.schemaDigest, None, c.env.actor));
            var r' := FencedMigrate(r1, g, dg, c.res, c.env);
            Elsewhere(r, r', c.env, g) && Follows(r, r', c.env, g, MigrateTrail(c, g, dg), !c.env.migrate(g).MigrateOk?)
  {
    var op, env := c.env.op(g), c.env;
    var s := Sidecar(SchemaApply, g, dg.schemaDigest, None, env.actor);
    var r1 := PutSidecar(r, op, s);
    FencedMigrateRow(c, r1, g, dg);
    var more := [SchemaApplyCalled(g, env.migrate(g).MigrateOk?)]
                + (if !env.migrate(g).MigrateOk? && Refused(c, g, dg) && env.drop(op) then [DroppedSidecar(op)] else []);
    AfterIntent(r, s, FencedMigrate(r1, g, dg, c.res, env), env, g, more, !env.migrate(g).MigrateOk?);
    assert [WroteSidecar(op)] + more == MigrateTrail(c, g, dg);
  }

  lemma MigrateRow(c: Plot, r: Run, g: GraphId)
    requires Injective(c.env) && !r.aborted && g !in r.failed && RootOf(r.world.live, g) == RootOf(c.w.live, g)
    ensures var r' := MigrateOne(r, g, c.res, c.d, c.env);
            Elsewhere(r, r', c.env, g) && Follows(r, r', c.env, g, Expected(c, Visit(g, 2)), Fails(c, Visit(g, 2)))
  {
    var dg, op, env := FindGraph(c.d.graphs, g), c.env.op(g), c.env;
    if dg.Some? {
      var s := Sidecar(SchemaApply, g, dg.value.schemaDigest, None, env.actor);
      var r1 := PutSidecar(r, op, s);
      BareVisit(r, env, g, SchemaFailed);
      BareVisit(r1, env, g, SchemaFailed);
      AfterIntent(r, s, Abort(r1, g, SchemaFailed), env, g, [], true);
      if Migratable(c, g, dg.value) && env.putSidecar(g) == Done { AcceptedMigrateRow(c, r, g, dg.value); }
    }
  }

  lemma DeleteRow(c: Plot, r: Run, g: GraphId)
    requires Injective(c.env) && !r.aborted && g !in r.failed
    ensures var r' := DeleteOne(r, g, c.d, c.env);
            Elsewhere(r, r', c.env, g) && Follows(r, r', c.env, g, Expected(c, Visit(g, 4)), Fails(c, Visit(g, 4)))
  {
    var op, env := c.env.op(g), c.env;
    var approval := Consumable(env.artifacts, g, c.d.configDigest);
    var s := Sidecar(GraphDelete, g, Raw(""), approval, env.actor);
    var r1 := PutSidecar(r, op, s);
    BareVisit(r, env, g, DeleteFailed);
    BareVisit(r1, env, g, DeleteFailed);
    AfterIntent(r, s, Abort(r1, g, DeleteFailed), env, g, [], true);
    if env.exportFree(g) && env.putSidecar(g) == Done {
      FencedDeleteRow(c, r1, g, approval);
      AfterIntent(r, s, FencedDelete(r1, g, approval, env), env, g, [RemoveCalled(g, env.remove(g).RemoveOk?)], !env.remove(g).RemoveOk?);
    }
  }

  lemma FencedDeleteRow(c: Plot, r: Run, g: GraphId, approval: Option<ApprovalId>)
    requires Injective(c.env) && !r.aborted && g !in r.failed
    ensures var r' := FencedDelete(r, g, approval, c.env);
            Elsewhere(r, r', c.env, g) && Follows(r, r', c.env, g, [RemoveCalled(g, c.env.remove(g).RemoveOk?)], !c.env.remove(g).RemoveOk?)
  {
    var env := c.env;
    var gone := env.remove(g).RemoveOk? || env.remove(g).gone;
    var e := RemoveCalled(g, env.remove(g).RemoveOk?);
    StepOwn(r, e, MoveRoot(r, e, g, if gone then Absent else RootOf(r.world.live, g)).world, env, g);
  }

  // ---- the run ----

  /** Some visit before position `k` fails. */
  ghost predicate FailedBefore(c: Plot, vs: seq<Visit>, k: nat) {
    exists j :: 0 <= j < k && j < |vs| && Fails(c, vs[j])
  }

  ghost predicate RowAt(c: Plot, r: Run, vs: seq<Visit>, k: nat)
    requires k < |vs|
  {
    var g := vs[k].graph;
    && Trail(r.log, g, c.env) == (if FailedBefore(c, vs, k) then [] else Expected(c, vs[k]))
    && (g in r.failed <==> FailedBefore(c, vs, k) || Fails(c, vs[k]))
  }

  /** After the visits `vs`: each has left its row, the first failure has stopped the rest, and no other graph is touched. */
  ghost predicate Determined(c: Plot, r: Run, vs: seq<Visit>) {
    && (r.aborted <==> FailedBefore(c, vs, |vs|))
    && (forall k :: 0 <= k < |vs| ==> RowAt(c, r, vs, k))
    && (forall g :: !Knows(vs, g) ==> Trail(r.log, g, c.env) == [] && g !in r.failed && RootOf(r.world.live, g) == RootOf(c.w.live, g))
  }

  lemma FailedBeforeMore(c: Plot, vs: seq<Visit>, v: Visit, k: nat)
    ensures k <= |vs| ==> (FailedBefore(c, vs + [v], k) <==> FailedBefore(c, vs, k))
    ensures FailedBefore(c, vs + [v], |vs| + 1) <==> FailedBefore(c, vs, |vs|) || Fails(c, v)
  {
    var vs' := vs + [v];
    assert forall j :: 0 <= j < |vs| ==> vs'[j] == vs[j];
    assert vs'[|vs|] == v;
    if FailedBefore(c, vs, |vs|) {
      var j :| 0 <= j < |vs| && Fails(c, vs[j]);
      assert Fails(c, vs'[j]);
    }
    if FailedBefore(c, vs, k) {
      var j :| 0 <= j < k && j < |vs| && Fails(c, vs[j]);
      assert Fails(c, vs'[j]);
    }
    if k <= |vs| && FailedBefore(c, vs', k) {
      var j :| 0 <= j < k && j < |vs'| && Fails(c, vs'[j]);
      assert Fails(c, vs[j]);
    }
  }

  /** One more visit: skipped if something failed before, else as its row says. */
  ghost predicate MadeVisit(c: Plot, r: Run, r': Run, v: Visit) {
    && Elsewhere(r, r', c.env, v.graph)
    && if r.aborted then r'.aborted && v.graph in r'.failed && Trail(r'.log, v.graph, c.env) == Trail(r.log, v.graph, c.env)
       else Follows(r, r', c.env, v.graph, Expected(c, v), Fails(c, v))
  }

  lemma VisitDetermined(c: Plot, r: Run, r': Run, vs: seq<Visit>, v: Visit)
    requires Determined(c, r, vs) && !Knows(vs, v.graph) && MadeVisit(c, r, r', v)
    ensures Determined(c, r', vs + [v])
  {
    var vs' := vs + [v];
    FailedBeforeMore(c, vs, v, |vs|);
    forall k | 0 <= k < |vs'| ensures RowAt(c, r', vs', k) {
      FailedBeforeMore(c, vs, v, k);
      if k < |vs| { OldRow(c, r, r', vs, v, k); }
    }
    forall g | !Knows(vs', g) ensures Trail(r'.log, g, c.env) == [] && g !in r'.failed && RootOf(r'.world.live, g) == RootOf(c.w.live, g) {
      KnowsMore(vs, v, g);
    }
  }

  lemma OldRow(c: Plot, r: Run, r': Run, vs: seq<Visit>, v: Visit, k: nat)
    requires k < |vs| && RowAt(c, r, vs, k) && !Knows(vs, v.graph) && Elsewhere(r, r', c.env, v.graph)
    ensures RowAt(c, r', vs + [v], k)
  {
    assert (vs + [v])[k] == vs[k] && vs[k].graph != v.graph;
    FailedBeforeMore(c, vs, v, k);
  }

  lemma {:induction false} CreatesDetermined(c: Plot, r: Run, vs: seq<Visit>, ids: seq<GraphId>)
    requires Determined(c, r, vs) && Injective(c.env) && Fresh(vs, ids)
    ensures Determined(c, RunCreates(r, ids, c.d, c.env), vs + ApplyStops.Visits(ids, 1))
    decreases |ids|
  {
    if ids == [] {
      assert vs + ApplyStops.Visits(ids, 1) == vs;
    } else {
      var g, r1 := ids[0], CreateOne(r, ids[0], c.d, c.env);
      if !r.aborted { CreateRow(c, r, g); }
      VisitDetermined(c, r, r1, vs, Visit(g, 1));
      FreshTail(vs, ids, 1);
      CreatesDetermined(c, r1, vs + [Visit(g, 1)], ids[1..]);
    }
  }

  lemma {:induction false} MigrationsDetermined(c: Plot, r: Run, vs: seq<Visit>, ids: seq<GraphId>)
    requires Determined(c, r, vs) && Injective(c.env) && Fresh(vs, ids)
    ensures Determined(c, RunMigrations(r, ids, c.res, c.d, c.env), vs + ApplyStops.Visits(ids, 2))
    decreases |ids|
  {
    if ids == [] {
      assert vs + ApplyStops.Visits(ids, 2) == vs;
    } else {
      var g, r1 := ids[0], MigrateOne(r, ids[0], c.res, c.d, c.env);
      if !r.aborted { MigrateRow(c, r, g); }
      VisitDetermined(c, r, r1, vs, Visit(g, 2));
      FreshTail(vs, ids, 2);
      MigrationsDetermined(c, r1, vs + [Visit(g, 2)], ids[1..]);
    }
  }

  lemma {:induction false} DeletesDetermined(c: Plot, r: Run, vs: seq<Visit>, ids: seq<GraphId>)
    requires Determined(c, r, vs) && Injective(c.env) && Fresh(vs, ids)
    ensures Determined(c, RunDeletes(r, ids, c.d, c.env), vs + ApplyStops.Visits(ids, 4))
    decreases |ids|
  {
    if ids == [] {
      assert vs + ApplyStops.Visits(ids, 4) == vs;
    } else {
      var g, r1 := ids[0], DeleteOne(r, ids[0], c.d, c.env);
      if !r.aborted { DeleteRow(c, r, g); }
      VisitDetermined(c, r, r1, vs, Visit(g, 4));
      FreshTail(vs, ids, 4);
      DeletesDetermined(c, r1, vs + [Visit(g, 4)], ids[1..]);
    }
  }

  /** A step about no graph leaves every row as it is. */
  lemma SameTrails(c: Plot, r: Run, r': Run, vs: seq<Visit>)
    requires Determined(c, r, vs) && r'.failed == r.failed && r'.aborted == r.aborted && r'.world.live == r.world.live
    requires forall g :: Trail(r'.log, g, c.env) == Trail(r.log, g, c.env)
    ensures Determined(c, r', vs)
  {
    forall k | 0 <= k < |vs| ensures RowAt(c, r', vs, k) { assert RowAt(c, r, vs, k); }
  }

  lemma PaymentDetermined(c: Plot, p: Paid, ch: Change, vs: seq<Visit>)
    requires Determined(c, p.run, vs)
    ensures Determined(c, PayOne(p, ch, c.env).run, vs)
  {
    var r, r' := p.run, PayOne(p, ch, c.env).run;
    if r' != r {
      var e := WroteBlob((ch.resource, OrEmpty(ch.after)));
      assert r' == Step(r, e, r'.world);
      forall g ensures Trail(r'.log, g, c.env) == Trail(r.log, g, c.env) { TrailStep(r, e, r'.world, g, c.env); }
      SameTrails(c, r, r', vs);
    }
  }

  lemma {:induction false} PaymentsDetermined(c: Plot, p: Paid, cs: seq<Change>, vs: seq<Visit>)
    requires Determined(c, p.run, vs)
    ensures Determined(c, PayAll(p, cs, c.env).run, vs)
    decreases |cs|
  {
    if cs != [] {
      PaymentDetermined(c, p, cs[0], vs);
      PaymentsDetermined(c, PayOne(p, cs[0], c.env), cs[1..], vs);
    }
  }

  lemma PhasesDetermined(x: Execution, c: Plot)
    requires Injective(c.env) && NoDup(ToRun(x.plan, Create, false)) && NoDup(ToRun(x.plan, Update, true)) && NoDup(ToRun(x.demoted, Delete, false))
    requires forall g :: g in ToRun(x.plan, Update, true) ==> g !in ToRun(x.plan, Create, false)
    requires forall g :: g in ToRun(x.demoted, Delete, false) ==> g !in ToRun(x.plan, Create, false) && g !in ToRun(x.plan, Update, true)
    requires x.created == RunCreates(Start(c.w), ToRun(x.plan, Create, false), c.d, c.env)
    requires x.migrated == RunMigrations(x.created, ToRun(x.plan, Update, true), c.res, c.d, c.env)
    requires x.paid == PayAll(Paid(x.migrated, true), x.demoted, c.env)
    requires x.deleted == RunDeletes(x.paid.run, ToRun(x.demoted, Delete, false), c.d, c.env)
    ensures Determined(c, x.paid.run, Early(x)) && Determined(c, x.deleted, Early(x) + ApplyStops.Visits(ToRun(x.demoted, Delete, false), 4))
  {
    var creates, migrates, deletes := ToRun(x.plan, Create, false), ToRun(x.plan, Update, true), ToRun(x.demoted, Delete, false);
    assert Determined(c, Start(c.w), []) && Fresh([], creates);
    CreatesDetermined(c, Start(c.w), [], creates);
    assert [] + ApplyStops.Visits(creates, 1) == ApplyStops.Visits(creates, 1);
    FreshAfter(creates, 1, migrates);
    MigrationsDetermined(c, x.created, ApplyStops.Visits(creates, 1), migrates);
    PaymentsDetermined(c, Paid(x.migrated, true), x.demoted, Early(x));
    FreshAfterBoth(creates, 1, migrates, 2, deletes);
    DeletesDetermined(c, x.paid.run, Early(x), deletes);
  }

  /**
   An apply run up to its write, graph by graph: before the first visit that fails, every visited graph has exactly the
   events of its row, an intent taken back only over a source that changed or an engine that refused without moving the
   graph; from the first failure on, every later graph is reported failed and has no event at all; no other graph is touched.
   */
  lemma RunIsDetermined(w: World, l0: Ledger, d: Desired, env: Env)
    requires Runs(w, l0, d, env)
    ensures var x := Execute(w, l0, d, env);
            var c := Plot(w, x.swept.ledger.resources, d, env);
            Determined(c, x.paid.run, Early(x)) && Determined(c, x.deleted, Early(x) + ApplyStops.Visits(ToRun(x.demoted, Delete, false), 4))
  {
    var x := Execute(w, l0, d, env);
    RunLists(w, l0, d, env);
    PhasesDetermined(x, Plot(w, x.swept.ledger.resources, d, env));
  }
}
