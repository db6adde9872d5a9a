/** Crash safety of the graph-moving phases: every step of a run keeps every graph covered. */
module ApplySafety {
  import opened Addresses
  import opened Digests
  import opened Ledgers
  import opened Sweep
  import opened Coverage
  import opened Plan
  import opened Classify
  import opened Apply

  /** The parts of a loaded configuration that the run relies on. */
  ghost predicate Declared(d: Desired) {
    && MetadataDeclared(d)
    && (forall a :: a in d.bindings ==> a.Policy?)
    && (forall a :: a in d.profiles ==> a.EmbeddingProvider?)
    && (forall g: GraphId :: Graph(g) in d.digests <==> Schema(g) in d.digests)
    && (forall g: GraphId :: Graph(g) in d.digests <==> FindGraph(d.graphs, g).Some?)
    && (forall i, j :: 0 <= i < j < |d.graphs| ==> d.graphs[i].id != d.graphs[j].id)
    && (forall dg :: dg in d.graphs ==>
          && Schema(dg.id) in d.digests && d.digests[Schema(dg.id)] == dg.schemaDigest
          && (dg.provider.Some? ==> dg.provider.value.EmbeddingProvider?))
  }

  /** Operation ids are ULIDs: fresh, and one per graph-moving operation. */
  ghost predicate FreshOps(env: Env, w: World) {
    && (forall g, h :: env.op(g) == env.op(h) ==> g == h)
    && (forall g :: env.op(g) !in w.sidecars)
  }

  /**
   What the run knows after its sweep; `res` is the swept ledger, `retired` the sidecars the sweep completed. `adrift` are
   the graphs not covered on storage when the run started, `lost` those not covered once it swept.
   */
  datatype Ctx = Ctx(w: World, l0: Ledger, res: Resources, retired: set<OpId>, d: Desired, env: Env,
                     adrift: iset<GraphId>, lost: iset<GraphId>)

  ghost predicate CtxOk(c: Ctx) {
    && Declared(c.d) && FreshOps(c.env, c.w)
    && (forall g :: c.env.op(g) !in c.retired)
  }

  /** Where a completed operation leaves its graph. */
  function Target(d: Desired, g: GraphId): Root {
    if Schema(g) in d.digests then Open(d.digests[Schema(g)]) else Absent
  }

  ghost predicate SafeStep(c: Ctx, w: World) {
    && w.ledger == c.w.ledger && w.approvals == c.w.approvals
    && (forall g :: g !in c.adrift ==> Covered(c.l0.resources, w.live, w.sidecars, g))
  }

  /** The sidecars that outlive the run's retirement. */
  function Kept(c: Ctx, r: Run): map<OpId, Sidecar> {
    r.world.sidecars - c.retired - OpSet(r.completed)
  }

  /** A finished graph stands at its target; any other that is not lost is covered by what survives retirement. */
  ghost predicate Tracked(c: Ctx, r: Run, g: GraphId) {
    if c.env.op(g) in r.completed then RootOf(r.world.live, g) == Target(c.d, g)
    else g !in c.lost ==> Covered(c.res, r.world.live, Kept(c, r), g)
  }

  ghost predicate Unvisited(c: Ctx, r: Run, g: GraphId) {
    c.env.op(g) !in r.world.sidecars && c.env.op(g) !in r.completed && g !in r.failed
  }

  ghost predicate Sound(c: Ctx, r: Run, todo: set<GraphId>) {
    && SafeStep(c, r.world)
    && (forall e :: e in r.log ==> SafeStep(c, e.world))
    && (forall g :: Tracked(c, r, g))
    && (forall g :: c.env.op(g) in r.world.sidecars ==> r.world.sidecars[c.env.op(g)].graph == g)
    && (forall g :: g in todo ==> Unvisited(c, r, g))
  }

  // ---- the step combinators ----

  lemma PutSound(c: Ctx, r: Run, todo: set<GraphId>, g: GraphId, s: Sidecar)
    requires CtxOk(c) && Sound(c, r, todo) && g in todo && s.graph == g
    ensures Sound(c, PutSidecar(r, c.env.op(g), s), todo - {g})
  {
    var op := c.env.op(g);
    var r' := PutSidecar(r, op, s);
    assert Unvisited(c, r, g);
    forall h | h !in c.adrift ensures Covered(c.l0.resources, r'.world.live, r'.world.sidecars, h) {
      CoveredFrame(c.l0.resources, r.world.live, r.world.sidecars, c.l0.resources, r'.world.live, r'.world.sidecars, h);
    }
    forall h ensures Tracked(c, r', h) {
      assert Tracked(c, r, h);
      if c.env.op(h) !in r.completed && h !in c.lost {
        CoveredFrame(c.res, r.world.live, Kept(c, r), c.res, r'.world.live, Kept(c, r'), h);
      }
    }
    forall h | h in todo - {g} ensures Unvisited(c, r', h) { assert Unvisited(c, r, h); }
  }

  lemma MoveSound(c: Ctx, r: Run, todo: set<GraphId>, g: GraphId, e: Event, root: Root)
    requires CtxOk(c) && Sound(c, r, todo) && c.env.op(g) !in r.completed
    requires root == RootOf(r.world.live, g)
             || (c.env.op(g) in r.world.sidecars && Covers(r.world.sidecars[c.env.op(g)], root, g))
    ensures Sound(c, MoveRoot(r, e, g, root), todo)
  {
    var op := c.env.op(g);
    var r' := MoveRoot(r, e, g, root);
    forall h | h !in c.adrift ensures Covered(c.l0.resources, r'.world.live, r'.world.sidecars, h) {
      if h != g || root == RootOf(r.world.live, g) {
        CoveredFrame(c.l0.resources, r.world.live, r.world.sidecars, c.l0.resources, r'.world.live, r'.world.sidecars, h);
      }
    }
    forall h ensures Tracked(c, r', h) {
      assert Tracked(c, r, h);
      if c.env.op(h) !in r.completed && h !in c.lost {
        if h != g || root == RootOf(r.world.live, g) {
          CoveredFrame(c.res, r.world.live, Kept(c, r), c.res, r'.world.live, Kept(c, r'), h);
        } else {
          assert op in Kept(c, r') && Covers(Kept(c, r')[op], root, g);
        }
      }
    }
    forall h | h in todo ensures Unvisited(c, r', h) { assert Unvisited(c, r, h); }
  }

  /** Taking back a sidecar over an unmoved root returns to the coverage before it was written. */
  lemma DropSound(c: Ctx, before: Run, r: Run, todo: set<GraphId>, g: GraphId, dropped: bool)
    requires CtxOk(c) && Sound(c, r, todo) && c.env.op(g) !in r.completed && g !in todo
    requires Sound(c, before, todo + {g}) && before.completed == r.completed
    requires r.world.sidecars - {c.env.op(g)} == before.world.sidecars
    requires RootOf(r.world.live, g) == RootOf(before.world.live, g)
    ensures Sound(c, DropSidecar(r, c.env.op(g), dropped), todo)
  {
    if dropped {
      var op := c.env.op(g);
      var r' := DropSidecar(r, op, true);
      forall h | h !in c.adrift ensures Covered(c.l0.resources, r'.world.live, r'.world.sidecars, h) {
        if h == g {
          CoveredFrame(c.l0.resources, before.world.live, before.world.sidecars, c.l0.resources, r'.world.live, r'.world.sidecars, h);
        } else {
          CoveredFrame(c.l0.resources, r.world.live, r.world.sidecars, c.l0.resources, r'.world.live, r'.world.sidecars, h);
        }
      }
      forall h ensures Tracked(c, r', h) {
        assert Tracked(c, r, h) && Tracked(c, before, h);
        if c.env.op(h) !in r.completed && h !in c.lost {
          if h == g { CoveredFrame(c.res, before.world.live, Kept(c, before), c.res, r'.world.live, Kept(c, r'), h); }
          else { CoveredFrame(c.res, r.world.live, Kept(c, r), c.res, r'.world.live, Kept(c, r'), h); }
        }
      }
      forall h | h in todo ensures Unvisited(c, r', h) { assert Unvisited(c, r, h); }
    }
  }

  lemma FailSound(c: Ctx, r: Run, todo: set<GraphId>, g: GraphId, origin: Origin)
    requires Sound(c, r, todo)
    ensures Sound(c, Skip(r, g, origin), todo - {g}) && Sound(c, Abort(r, g, origin), todo - {g})
  {
    var r1, r2 := Skip(r, g, origin), Abort(r, g, origin);
    assert Kept(c, r1) == Kept(c, r) && Kept(c, r2) == Kept(c, r);
    forall h ensures Tracked(c, r1, h) && Tracked(c, r2, h) { assert Tracked(c, r, h); }
    forall h | h in todo - {g} ensures Unvisited(c, r1, h) && Unvisited(c, r2, h) { assert Unvisited(c, r, h); }
  }

  lemma CompleteSound(c: Ctx, r: Run, todo: set<GraphId>, g: GraphId)
    requires CtxOk(c) && Sound(c, r, todo) && g !in todo
    requires RootOf(r.world.live, g) == Target(c.d, g)
    ensures Sound(c, Complete(r, c.env.op(g)), todo)
  {
    var op := c.env.op(g);
    var r' := Complete(r, op);
    forall h ensures Tracked(c, r', h) {
      assert Tracked(c, r, h);
      if h != g && c.env.op(h) !in r.completed && h !in c.lost {
        CoveredFrame(c.res, r.world.live, Kept(c, r), c.res, r'.world.live, Kept(c, r'), h);
      }
    }
    forall h | h in todo ensures Unvisited(c, r', h) { assert Unvisited(c, r, h); }
  }

  // ---- one visit of each phase ----

  ghost predicate SoundVisit(c: Ctx, r: Run, r': Run, todo: set<GraphId>, g: GraphId) {
    && Sound(c, r', todo - {g})
    && (c.env.op(g) in r'.completed <==> g !in r'.failed)
    && (forall h :: h != g ==> (h in r'.failed <==> h in r.failed) && (c.env.op(h) in r'.completed <==> c.env.op(h) in r.completed))
  }

  /** `r` has the sidecar of `g` in place over `before`, and nothing else happened. */
  ghost predicate Fenced(c: Ctx, before: Run, r: Run, todo: set<GraphId>, g: GraphId, kind: SidecarKind) {
    && Sound(c, before, todo + {g}) && Sound(c, r, todo) && g !in todo
    && g !in r.failed && c.env.op(g) !in r.completed && before.completed == r.completed
    && c.env.op(g) in r.world.sidecars && r.world.sidecars[c.env.op(g)].kind == kind
    && r.world.sidecars - {c.env.op(g)} == before.world.sidecars && r.world.live == before.world.live
  }

  lemma FencePut(c: Ctx, r: Run, todo: set<GraphId>, g: GraphId, s: Sidecar)
    requires CtxOk(c) && Sound(c, r, todo) && g in todo && s.graph == g
    ensures Fenced(c, r, PutSidecar(r, c.env.op(g), s), todo - {g}, g, s.kind)
  {
    assert Unvisited(c, r, g);
    assert todo - {g} + {g} == todo;
    PutSound(c, r, todo, g, s);
  }

  lemma AbortedVisit(c: Ctx, r: Run, r': Run, todo: set<GraphId>, g: GraphId, origin: Origin)
    requires Sound(c, r', todo) && g !in todo && r'.failed == r.failed && r'.completed == r.completed && c.env.op(g) !in r.completed
    ensures SoundVisit(c, r, Abort(r', g, origin), todo, g)
  {
    assert todo - {g} == todo;
    FailSound(c, r', todo, g, origin);
  }

  lemma CompletedVisit(c: Ctx, r: Run, r': Run, todo: set<GraphId>, g: GraphId)
    requires CtxOk(c) && Sound(c, r', todo) && g !in todo && g !in r.failed && r'.failed == r.failed && r'.completed == r.completed
    requires RootOf(r'.world.live, g) == Target(c.d, g)
    ensures SoundVisit(c, r, Complete(r', c.env.op(g)), todo, g)
  {
    assert todo - {g} == todo;
    CompleteSound(c, r', todo, g);
  }

  lemma FencedCreateSound(c: Ctx, before: Run, r: Run, todo: set<GraphId>, g: GraphId, dg: DesiredGraph)
    requires CtxOk(c) && Fenced(c, before, r, todo, g, GraphCreate) && Target(c.d, g) == Open(dg.schemaDigest)
    ensures SoundVisit(c, r, FencedCreate(r, g, dg, c.env), todo, g) && FencedCreate(r, g, dg, c.env).removed == r.removed
  {
    var env, op := c.env, c.env.op(g);
    if !SourceIntact(env, dg) {
      DropSound(c, before, r, todo, g, env.drop(op));
      AbortedVisit(c, r, DropSidecar(r, op, env.drop(op)), todo, g, CreateFailed);
    } else {
      var e, root := InitCalled(g, env.init(g).InitOk?), RootAfterInit(RootOf(r.world.live, g), env.init(g), dg.schemaDigest);
      MoveSound(c, r, todo, g, e, root);
      var r' := MoveRoot(r, e, g, root);
      if env.init(g).InitOk? { CompletedVisit(c, r, r', todo, g); } else { AbortedVisit(c, r, r', todo, g, CreateFailed); }
    }
  }

  lemma FencedMigrateSound(c: Ctx, before: Run, r: Run, todo: set<GraphId>, g: GraphId, dg: DesiredGraph)
    requires CtxOk(c) && Fenced(c, before, r, todo, g, SchemaApply) && Target(c.d, g) == Open(dg.schemaDigest)
    requires Recorded(c.res, g) != Some(dg.schemaDigest) && RootOf(r.world.live, g).Open?
    ensures SoundVisit(c, r, FencedMigrate(r, g, dg, c.res, c.env), todo, g) && FencedMigrate(r, g, dg, c.res, c.env).removed == r.removed
  {
    var env, op := c.env, c.env.op(g);
    var e, root := SchemaApplyCalled(g, env.migrate(g).MigrateOk?), RootAfterMigrate(RootOf(r.world.live, g), env.migrate(g), dg.schemaDigest);
    MoveSound(c, r, todo, g, e, root);
    var r' := MoveRoot(r, e, g, root);
    if env.migrate(g).MigrateOk? {
      CompletedVisit(c, r, r', todo, g);
    } else {
      var dropped := NothingMoved(env, g, c.res, root) && env.drop(op);
      if dropped { DropSound(c, before, r', todo, g, true); }
      AbortedVisit(c, r, DropSidecar(r', op, dropped), todo, g, SchemaFailed);
    }
  }

  lemma FencedDeleteSound(c: Ctx, before: Run, r: Run, todo: set<GraphId>, g: GraphId, approval: Option<ApprovalId>)
    requires CtxOk(c) && Fenced(c, before, r, todo, g, GraphDelete) && Target(c.d, g) == Absent
    ensures var r' := FencedDelete(r, g, approval, c.env);
            && SoundVisit(c, r, r', todo, g)
            && r'.removed == r.removed + if c.env.op(g) in r'.completed then [(g, approval)] else []
  {
    var env := c.env;
    var gone := env.remove(g).RemoveOk? || env.remove(g).gone;
    var e, root := RemoveCalled(g, env.remove(g).RemoveOk?), if gone then Absent else RootOf(r.world.live, g);
    MoveSound(c, r, todo, g, e, root);
    var r1 := MoveRoot(r, e, g, root);
    if env.remove(g).RemoveOk? {
      var r2 := r1.(removed := r1.removed + [(g, approval)]);
      assert Kept(c, r2) == Kept(c, r1);
      forall h ensures Tracked(c, r2, h) { assert Tracked(c, r1, h); }
      forall h | h in todo ensures Unvisited(c, r2, h) { assert Unvisited(c, r1, h); }
      CompletedVisit(c, r, r2, todo, g);
    } else {
      AbortedVisit(c, r, r1, todo, g, DeleteFailed);
    }
  }

  lemma CreateVisit(c: Ctx, r: Run, todo: set<GraphId>, g: GraphId)
    requires CtxOk(c) && Sound(c, r, todo) && g in todo && Graph(g) in c.d.digests
    ensures SoundVisit(c, r, CreateOne(r, g, c.d, c.env), todo, g)
    ensures CreateOne(r, g, c.d, c.env).removed == r.removed
  {
    var dg := FindGraph(c.d.graphs, g).value;
    var s := Sidecar(GraphCreate, g, dg.schemaDigest, None, c.env.actor);
    var r' := PutSidecar(r, c.env.op(g), s);
    assert Unvisited(c, r, g) && dg in c.d.graphs;
    assert todo - {g} - {g} == todo - {g};
    if r.aborted || c.env.putSidecar(g) == Lost {
      FailSound(c, r, todo, g, CreateFailed);
    } else {
      FencePut(c, r, todo, g, s);
      if c.env.putSidecar(g) == Unacknowledged { FailSound(c, r', todo - {g}, g, CreateFailed); }
      else { FencedCreateSound(c, r, r', todo - {g}, g, dg); }
    }
  }

  lemma MigrateVisit(c: Ctx, r: Run, todo: set<GraphId>, g: GraphId)
    requires CtxOk(c) && Sound(c, r, todo) && g in todo && Graph(g) in c.d.digests
    requires Recorded(c.res, g) != Some(c.d.digests[Schema(g)])
    ensures SoundVisit(c, r, MigrateOne(r, g, c.res, c.d, c.env), todo, g)
    ensures MigrateOne(r, g, c.res, c.d, c.env).removed == r.removed
  {
    var dg := FindGraph(c.d.graphs, g).value;
    var s := Sidecar(SchemaApply, g, dg.schemaDigest, None, c.env.actor);
    var r' := PutSidecar(r, c.env.op(g), s);
    assert Unvisited(c, r, g) && dg in c.d.graphs;
    assert todo - {g} - {g} == todo - {g};
    if r.aborted || !RootOf(r.world.live, g).Open? || !c.env.ready(g) || !SourceIntact(c.env, dg) || c.env.putSidecar(g) == Lost {
      FailSound(c, r, todo, g, SchemaFailed);
    } else {
      FencePut(c, r, todo, g, s);
      if c.env.putSidecar(g) == Unacknowledged { FailSound(c, r', todo - {g}, g, SchemaFailed); }
      else { FencedMigrateSound(c, r, r', todo - {g}, g, dg); }
    }
  }

  lemma DeleteVisit(c: Ctx, r: Run, todo: set<GraphId>, g: GraphId)
    requires CtxOk(c) && Sound(c, r, todo) && g in todo && Schema(g) !in c.d.digests
    ensures var r' := DeleteOne(r, g, c.d, c.env);
            && SoundVisit(c, r, r', todo, g)
            && r'.removed == r.removed + if c.env.op(g) in r'.completed then [(g, Consumable(c.env.artifacts, g, c.d.configDigest))] else []
  {
    var approval := Consumable(c.env.artifacts, g, c.d.configDigest);
    var s := Sidecar(GraphDelete, g, Raw(""), approval, c.env.actor);
    var r' := PutSidecar(r, c.env.op(g), s);
    assert Unvisited(c, r, g);
    assert todo - {g} - {g} == todo - {g};
    if r.aborted || !c.env.exportFree(g) || c.env.putSidecar(g) == Lost {
      FailSound(c, r, todo, g, DeleteFailed);
    } else {
      FencePut(c, r, todo, g, s);
      if c.env.putSidecar(g) == Unacknowledged { FailSound(c, r', todo - {g}, g, DeleteFailed); }
      else { FencedDeleteSound(c, r, r', todo - {g}, g, approval); }
    }
  }
}
