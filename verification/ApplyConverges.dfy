/** A run in which nothing fails converges, and a second run has nothing to do. */
module ApplyConverges {
  import opened Addresses
  import opened Digests
  import opened Ledgers
  import opened Sweep
  import opened Coverage
  import opened Plan
  import opened Classify
  import opened Apply
  import opened ApplySafety
  import opened ApplyLedger
  import opened ApplyOutcome
  import opened CrashSafety
  import opened ApplyIsSafe
  import opened ApplyFences

  function DesiredQueries(d: Desired, g: GraphId): (q: map<Address, Digest>)
    ensures QueriesOf(g, q)
  {
    map a | a in d.digests && a.Query? && a.graph == g :: d.digests[a]
  }

  function DesiredProviderDigest(d: Desired, provider: Option<Address>): Option<Digest> {
    if provider.Some? then Lookup(d.digests, provider.value) else None
  }

  /** What `load_desired` guarantees of a configuration it accepts without errors. */
  ghost predicate Loaded(d: Desired) {
    && Declared(d)
    && (forall a :: a in d.digests ==> !a.Unknown? && (a.Query? ==> Graph(a.graph) in d.digests))
    && (forall dg :: dg in d.graphs ==> Graph(dg.id) in d.digests && d.digests[Graph(dg.id)] == DesiredComposite(d, dg))
  }

  function DesiredComposite(d: Desired, dg: DesiredGraph): Digest {
    GraphDigest(dg.id, Some(dg.schemaDigest), DesiredQueries(d, dg.id), dg.provider, DesiredProviderDigest(d, dg.provider), dg.policy)
  }

  /** No step of the run fails. */
  ghost predicate Smooth(env: Env, d: Desired) {
    && (forall g :: env.putSidecar(g) == Done && env.init(g) == InitOk && env.ready(g) && env.migrate(g) == MigrateOk
                    && env.exportFree(g) && env.remove(g) == RemoveOk)
    && (forall dg :: dg in d.graphs ==> SourceIntact(env, dg))
    && (forall a :: a in d.digests && HasPayload(a) ==>
          env.putBlob(a) && env.source(a).Some? && ContentDigest(env.source(a).value) == d.digests[a])
    && env.putState == Done && (forall op :: env.drop(op))
  }

  // ---- no phase fails ----

  /** Nothing failed so far, and every stored sidecar belongs to a finished operation. */
  ghost predicate Tidy(r: Run) {
    r.failed == map[] && !r.aborted && r.world.sidecars.Keys <= OpSet(r.completed)
  }

  ghost predicate AllFound(ids: seq<GraphId>, d: Desired) {
    forall g :: g in ids ==> FindGraph(d.graphs, g).Some?
  }

  lemma {:induction false} CreatesSmooth(r: Run, ids: seq<GraphId>, d: Desired, env: Env)
    requires Tidy(r) && Smooth(env, d) && AllFound(ids, d)
    ensures var r' := RunCreates(r, ids, d, env);
            Tidy(r') && r'.world.ledger == r.world.ledger && forall g :: g !in ids ==> RootOf(r'.world.live, g) == RootOf(r.world.live, g)
    decreases |ids|
  {
    if ids != [] {
      var g := ids[0];
      var dg := FindGraph(d.graphs, g).value;
      assert SourceIntact(env, dg) && env.putSidecar(g) == Done && env.init(g) == InitOk;
      var r1 := CreateOne(r, g, d, env);
      assert Tidy(r1);
      assert forall h :: h in ids[1..] ==> h in ids;
      CreatesSmooth(r1, ids[1..], d, env);
    }
  }

  lemma {:induction false} MigrationsSmooth(r: Run, ids: seq<GraphId>, res: Resources, d: Desired, env: Env)
    requires Tidy(r) && Smooth(env, d) && AllFound(ids, d) && forall g :: g in ids ==> RootOf(r.world.live, g).Open?
    ensures Tidy(RunMigrations(r, ids, res, d, env)) && RunMigrations(r, ids, res, d, env).world.ledger == r.world.ledger
    decreases |ids|
  {
    if ids != [] {
      var g := ids[0];
      var dg := FindGraph(d.graphs, g).value;
      assert SourceIntact(env, dg) && env.putSidecar(g) == Done && env.migrate(g) == MigrateOk && env.ready(g);
      var r1 := MigrateOne(r, g, res, d, env);
      assert Tidy(r1);
      assert forall h :: h in ids[1..] ==> h in ids;
      MigrationsSmooth(r1, ids[1..], res, d, env);
    }
  }

  lemma {:induction false} DeletesSmooth(r: Run, ids: seq<GraphId>, d: Desired, env: Env)
    requires Tidy(r) && Smooth(env, d)
    ensures Tidy(RunDeletes(r, ids, d, env)) && RunDeletes(r, ids, d, env).world.ledger == r.world.ledger
    decreases |ids|
  {
    if ids != [] {
      var g := ids[0];
      assert env.putSidecar(g) == Done && env.remove(g) == RemoveOk && env.exportFree(g);
      var r1 := DeleteOne(r, g, d, env);
      assert Tidy(r1);
      DeletesSmooth(r1, ids[1..], d, env);
    }
  }

  lemma {:induction false} PaymentsSmooth(p: Paid, cs: seq<Change>, d: Desired, env: Env)
    requires Tidy(p.run) && p.ok && Smooth(env, d) && Faithful(cs, d)
    ensures var p' := PayAll(p, cs, env); Tidy(p'.run) && p'.ok && p'.run.world.ledger == p.run.world.ledger
    decreases |cs|
  {
    if cs != [] {
      var p1 := PayOne(p, cs[0], env);
      assert NeedsPayload(cs[0]) ==> cs[0].resource in d.digests && OrEmpty(cs[0].after) == d.digests[cs[0].resource];
      assert Tidy(p1.run) && p1.ok;
      assert forall i :: 0 <= i < |cs| - 1 ==> cs[1..][i] == cs[i + 1];
      PaymentsSmooth(p1, cs[1..], d, env);
    }
  }

  lemma DemotedByNone(cs: seq<Change>, deps: set<Dependency>)
    ensures Demoted(cs, map[], deps) == cs
  {
  }

  // ---- everything is executed ----

  /** The starting point: a bound, paired ledger of known kinds, no sidecars, every graph delete approved. */
  ghost predicate Settled(w: World, l0: Ledger, d: Desired, env: Env) {
    && w.ledger == Some(l0) && Safe(w) && AllBound(l0.resources) && w.sidecars == map[] && env.probes == []
    && (forall a :: a in l0.resources ==> !a.Unknown?)
    && (forall g :: Graph(g) in l0.resources && Graph(g) !in d.digests ==> DeleteApproved(l0.resources, d, env.artifacts, g))
  }

  ghost predicate AllDeletesApproved(res: Resources, d: Desired, arts: Artifacts) {
    forall g :: Graph(g) in res && Graph(g) !in d.digests ==> DeleteApproved(res, d, arts, g)
  }

  /** Without pending recoveries and with all deletes approved, every change outside graph addresses is executed. */
  lemma EverythingExecuted(res: Resources, d: Desired, arts: Artifacts, a: Address)
    requires Loaded(d) && Paired(res) && AllDeletesApproved(res, d, arts) && !a.Graph?
    requires a in res ==> !a.Unknown?
    ensures ExecutedAt(ClassifiedPlan(res, d, arts, {}), res, d, a)
  {
    forall op ensures AppliedAt(ClassifiedPlan(res, d, arts, {}), a, op) <==> PlanAt(res, d, a).Some? && PlanAt(res, d, a).value.operation == op {
      PlanApplied(res, d, arts, {}, a, op);
      if PlanAt(res, d, a).Some? { ChangeAccepted(res, d, arts, a); }
    }
  }

  function CalmGate(res: Resources, d: Desired, arts: Artifacts): Gate {
    var cs := PlanOf(res, d);
    GateOf(cs, d.dependencies, {}, ApprovedResources(arts, cs, d.configDigest))
  }

  lemma CalmGateFacts(res: Resources, d: Desired, arts: Artifacts, g: GraphId)
    requires Declared(d) && Paired(res) && AllDeletesApproved(res, d, arts)
    ensures var gate := CalmGate(res, d, arts);
            && gate.pending == {}
            && (g in gate.graphDeletes <==> Graph(g) in res && Graph(g) !in d.digests)
            && (g in gate.graphDeletes ==> RidesApprovedDelete(gate, g))
            && (g in gate.graphCreates <==> Graph(g) !in res && Graph(g) in d.digests)
            && (g in gate.schemaPending ==> Graph(g) !in d.digests)
  {
    PlanSets(res, d, g);
    if Graph(g) in res && Graph(g) !in d.digests { ApprovalExact(res, d, arts, g); }
  }

  lemma SubtreeAccepted(res: Resources, d: Desired, arts: Artifacts, a: Address, op: Operation)
    requires Loaded(d) && Paired(res) && AllDeletesApproved(res, d, arts) && (a.Schema? || a.Query?)
    requires op == Delete <==> a !in d.digests
    requires op == Delete ==> a in res
    requires op == Create ==> a !in res
    ensures var gate := CalmGate(res, d, arts);
            (if a.Schema? then JudgeSchema(gate, a.graph, op) else JudgeQuery(gate, a.graph, op)).disposition == Applied
  {
    CalmGateFacts(res, d, arts, a.graph);
  }

  lemma ChangeAccepted(res: Resources, d: Desired, arts: Artifacts, a: Address)
    requires Loaded(d) && Paired(res) && AllDeletesApproved(res, d, arts) && !a.Graph?
    requires PlanAt(res, d, a).Some? && (a in res ==> !a.Unknown?)
    ensures Judge(CalmGate(res, d, arts), PlanAt(res, d, a).value).disposition == Applied
  {
    PlanAtDesired(res, d, a);
    if a.Schema? || a.Query? {
      PlanAtPlain(res, d, a);
      SubtreeAccepted(res, d, arts, a, PlanAt(res, d, a).value.operation);
    }
  }

  lemma RemovedIsUndeclared(c: Ctx, pending: set<GraphId>, r: Run, a: Address)
    requires Loaded(c.d) && RemovedFacts(c, pending, r) && RemovedHere(r.removed, a)
    ensures a !in c.d.digests
  {
    var i :| 0 <= i < |r.removed| && InSubtree(a, r.removed[i].0);
    assert r.removed[i] in r.removed;
    assert Deleting(c.res, c.d, c.env.artifacts, pending, r.removed[i].0);
  }

  /** Outside graph addresses the new ledger is exactly the desired one. */
  lemma NonGraphAgrees(c: Ctx, l1: Ledger, plan: seq<Change>, paid: Run, r: Run, a: Address)
    requires Loaded(c.d) && l1.resources == c.res && AllDeletesApproved(c.res, c.d, c.env.artifacts) && !a.Graph?
    requires RunFacts(c, {}, paid, r) && ChangeFacts(plan, plan, r.failed, c.d) && plan == ClassifiedPlan(c.res, c.d, c.env.artifacts, {})
    requires a in c.res ==> !a.Unknown?
    ensures var res' := NewLedger(l1, plan, r.removed, c.d, c.env.actor).resources;
            && DigestAt(res', a) == Lookup(c.d.digests, a)
            && (a in c.d.bindings ==> a in res' && res'[a].appliesTo == Some(c.d.bindings[a]))
            && (a in c.d.profiles ==> a in res' && res'[a].profile == Some(c.d.profiles[a]))
  {
    if RemovedHere(r.removed, a) {
      RemovedIsUndeclared(c, {}, r, a);
      EntryOf(l1, plan, r.removed, c.d, c.env.actor, a);
    } else {
      EverythingExecuted(c.res, c.d, c.env.artifacts, a);
      ExecutedReachesDesired(l1, plan, r.removed, c.d, c.env.actor, a);
    }
  }

  lemma GraphNotBlocked(res: Resources, d: Desired, arts: Artifacts, g: GraphId)
    requires Loaded(d) && Paired(res) && AllDeletesApproved(res, d, arts) && PlanAt(res, d, Graph(g)).Some?
    ensures Judge(CalmGate(res, d, arts), PlanAt(res, d, Graph(g)).value).disposition != Blocked
  {
    CalmGateFacts(res, d, arts, g);
    GraphDeleteIff(res, d, g);
    GraphVerdict(CalmGate(res, d, arts), PlanAt(res, d, Graph(g)).value, g);
  }

  lemma GraphVerdict(gate: Gate, c: Change, g: GraphId)
    requires c.resource == Graph(g) && g !in gate.pending && (c.operation == Delete ==> RidesApprovedDelete(gate, g))
    ensures Judge(gate, c).disposition != Blocked
  {
  }

  lemma GraphDeleteIff(res: Resources, d: Desired, g: GraphId)
    requires Declared(d) && PlanAt(res, d, Graph(g)).Some?
    ensures PlanAt(res, d, Graph(g)).value.operation == Delete <==> Graph(g) in res && Graph(g) !in d.digests
  {
    PlanAtPlain(res, d, Graph(g));
  }

  lemma BlockedInPlan(res: Resources, d: Desired, arts: Artifacts, a: Address)
    requires BlockedAt(ClassifiedPlan(res, d, arts, {}), a)
    ensures PlanAt(res, d, a).Some? && Judge(CalmGate(res, d, arts), PlanAt(res, d, a).value).disposition == Blocked
  {
    var plan, cs := ClassifiedPlan(res, d, arts, {}), PlanOf(res, d);
    var i :| 0 <= i < |plan| && plan[i].resource == a && plan[i].disposition == Some(Blocked);
    assert plan[i] == Stamp(cs[i], Judge(CalmGate(res, d, arts), cs[i]));
    PlannedAt(res, d, a);
  }

  /** No graph or schema change is blocked. */
  lemma NothingBlocked(res: Resources, d: Desired, arts: Artifacts, g: GraphId)
    requires Loaded(d) && Paired(res) && AllDeletesApproved(res, d, arts)
    ensures !GraphBlocked(ClassifiedPlan(res, d, arts, {}), g)
  {
    var plan := ClassifiedPlan(res, d, arts, {});
    if BlockedAt(plan, Graph(g)) {
      BlockedInPlan(res, d, arts, Graph(g));
      GraphNotBlocked(res, d, arts, g);
      assert false;
    }
    if BlockedAt(plan, Schema(g)) {
      BlockedInPlan(res, d, arts, Schema(g));
      ChangeAccepted(res, d, arts, Schema(g));
      assert false;
    }
  }

  /** Graph entries survive exactly when declared. */
  lemma GraphPresence(c: Ctx, l1: Ledger, plan: seq<Change>, r: Run, g: GraphId)
    requires Declared(c.d) && Paired(c.res) && l1.resources == c.res && AllDeletesApproved(c.res, c.d, c.env.artifacts) && r.failed == map[]
    requires RemovedFacts(c, {}, r) && ChangeFacts(plan, plan, r.failed, c.d) && plan == ClassifiedPlan(c.res, c.d, c.env.artifacts, {})
    ensures Graph(g) in NewLedger(l1, plan, r.removed, c.d, c.env.actor).resources <==> Graph(g) in c.d.digests
  {
    EntryAfter(c, l1, {}, plan, r, g, false);
    PresenceFacts(c, g);
  }

  lemma PresenceFacts(c: Ctx, g: GraphId)
    requires AllDeletesApproved(c.res, c.d, c.env.artifacts)
    ensures Moves(c, {}, g, Create, false) <==> Graph(g) !in c.res && Graph(g) in c.d.digests
    ensures !Moves(c, {}, g, Update, false)
    ensures Moves(c, {}, g, Delete, false) <==> Graph(g) in c.res && Graph(g) !in c.d.digests
  {
  }

  /** The recomputed composite of a declared graph is the desired one. */
  lemma CompositeIsDesired(res: Resources, d: Desired, dg: DesiredGraph)
    requires Loaded(d) && dg in d.graphs
    requires Recorded(res, dg.id) == Some(dg.schemaDigest)
    requires forall n :: DigestAt(res, Query(dg.id, n)) == Lookup(d.digests, Query(dg.id, n))
    requires dg.provider.Some? ==> DigestAt(res, dg.provider.value) == Lookup(d.digests, dg.provider.value)
    ensures Recomposed(res, dg.id, dg.provider, dg.policy).digest == d.digests[Graph(dg.id)]
  {
    SameQueryDigests(res, d, dg.id);
    assert Recomposed(res, dg.id, dg.provider, dg.policy).digest == DesiredComposite(d, dg);
  }

  lemma SameQueryDigests(res: Resources, d: Desired, g: GraphId)
    requires forall n :: DigestAt(res, Query(g, n)) == Lookup(d.digests, Query(g, n))
    ensures QueryDigests(res, g) == DesiredQueries(d, g)
  {
    forall a: Address | a.Query? && a.graph == g ensures DigestAt(res, a) == Lookup(d.digests, a) { assert a == Query(g, a.name); }
    assert forall a :: a in QueryDigests(res, g) <==> a in DesiredQueries(d, g);
  }

  /** The entry of a declared graph after the run, rebuilt from the final ledger itself. */
  lemma GraphEntry(l1: Ledger, cs: seq<Change>, removed: seq<(GraphId, Option<ApprovalId>)>, d: Desired, actor: Option<string>, dg: DesiredGraph)
    requires Declared(d) && dg in d.graphs && !GraphBlocked(cs, dg.id)
    ensures var res' := NewLedger(l1, cs, removed, d, actor).resources;
            Graph(dg.id) in res' ==> res'[Graph(dg.id)] == Recomposed(res', dg.id, dg.provider, dg.policy)
  {
    var lt := TombstoneAll(Mutate(l1, cs, d), removed, actor);
    var res' := NewLedger(l1, cs, removed, d, actor).resources;
    RecomputeAt(lt.resources, d.graphs, cs);
    var i :| 0 <= i < |d.graphs| && d.graphs[i] == dg;
    RecomposedFrame(lt.resources, res', dg.id, dg.provider, dg.policy);
  }

  /** The shape of a converged ledger: it agrees with the configuration and rebuilding its composites changes nothing. */
  ghost predicate Converged(res: Resources, d: Desired) {
    && Agrees(res, d)
    && (forall dg :: dg in d.graphs ==> Graph(dg.id) in res && res[Graph(dg.id)] == Recomposed(res, dg.id, dg.provider, dg.policy))
  }

  ghost predicate AgreesAt(res: Resources, d: Desired, a: Address) {
    && DigestAt(res, a) == Lookup(d.digests, a)
    && (a in d.bindings ==> a in res && res[a].appliesTo == Some(d.bindings[a]))
    && (a in d.profiles ==> a in res && res[a].profile == Some(d.profiles[a]))
  }

  lemma AgreesEverywhere(res: Resources, d: Desired)
    requires MetadataDeclared(d) && forall a: Address :: AgreesAt(res, d, a)
    ensures Agrees(res, d)
  {
    forall a: Address ensures DigestAt(res, a) == Lookup(d.digests, a) { assert AgreesAt(res, d, a); }
    DigestsAgree(res, d);
    forall a | a in d.bindings ensures a in res && res[a].appliesTo == Some(d.bindings[a]) { assert AgreesAt(res, d, a); }
    forall a | a in d.profiles ensures a in res && res[a].profile == Some(d.profiles[a]) { assert AgreesAt(res, d, a); }
  }

  lemma GraphAgreesAt(res: Resources, d: Desired, g: GraphId)
    requires Loaded(d)
    requires forall a: Address :: !a.Graph? ==> AgreesAt(res, d, a)
    requires Graph(g) in res <==> Graph(g) in d.digests
    requires forall dg :: dg in d.graphs && Graph(dg.id) in res ==> res[Graph(dg.id)] == Recomposed(res, dg.id, dg.provider, dg.policy)
    ensures AgreesAt(res, d, Graph(g))
  {
    if Graph(g) in d.digests {
      var dg := FindGraph(d.graphs, g).value;
      DeclaredComposite(res, d, dg);
    }
  }

  /** Pointwise agreement outside graphs, plus rebuilt entries for exactly the declared graphs, is convergence. */
  lemma ConvergedFrom(res: Resources, d: Desired)
    requires Loaded(d)
    requires forall a: Address :: !a.Graph? ==> AgreesAt(res, d, a)
    requires forall g: GraphId :: Graph(g) in res <==> Graph(g) in d.digests
    requires forall dg :: dg in d.graphs && Graph(dg.id) in res ==> res[Graph(dg.id)] == Recomposed(res, dg.id, dg.provider, dg.policy)
    ensures Converged(res, d)
  {
    forall a: Address ensures AgreesAt(res, d, a) {
      if a.Graph? { GraphAgreesAt(res, d, a.graph); assert a == Graph(a.graph); }
    }
    AgreesEverywhere(res, d);
  }

  lemma DeclaredComposite(res: Resources, d: Desired, dg: DesiredGraph)
    requires Loaded(d) && dg in d.graphs && Graph(dg.id) in res
    requires forall a: Address :: !a.Graph? ==> AgreesAt(res, d, a)
    requires res[Graph(dg.id)] == Recomposed(res, dg.id, dg.provider, dg.policy)
    ensures DigestAt(res, Graph(dg.id)) == Lookup(d.digests, Graph(dg.id))
  {
    assert AgreesAt(res, d, Schema(dg.id));
    forall n ensures DigestAt(res, Query(dg.id, n)) == Lookup(d.digests, Query(dg.id, n)) { assert AgreesAt(res, d, Query(dg.id, n)); }
    if dg.provider.Some? { assert AgreesAt(res, d, dg.provider.value); }
    CompositeIsDesired(res, d, dg);
  }

  lemma LedgerConverges(c: Ctx, l1: Ledger, plan: seq<Change>, paid: Run, r: Run)
    requires Loaded(c.d) && l1.resources == c.res && AllDeletesApproved(c.res, c.d, c.env.artifacts) && r.failed == map[]
    requires RunFacts(c, {}, paid, r) && ChangeFacts(plan, plan, r.failed, c.d) && plan == ClassifiedPlan(c.res, c.d, c.env.artifacts, {})
    requires forall a :: a in c.res ==> !a.Unknown?
    ensures Converged(NewLedger(l1, plan, r.removed, c.d, c.env.actor).resources, c.d)
  {
    var d, res' := c.d, NewLedger(l1, plan, r.removed, c.d, c.env.actor).resources;
    forall a: Address | !a.Graph? ensures AgreesAt(res', d, a) { NonGraphAgrees(c, l1, plan, paid, r, a); }
    forall g: GraphId ensures Graph(g) in res' <==> Graph(g) in d.digests { GraphPresence(c, l1, plan, r, g); }
    forall dg | dg in d.graphs && Graph(dg.id) in res' ensures res'[Graph(dg.id)] == Recomposed(res', dg.id, dg.provider, dg.policy) {
      NothingBlocked(c.res, d, c.env.artifacts, dg.id);
      GraphEntry(l1, plan, r.removed, d, c.env.actor, dg);
    }
    ConvergedFrom(res', d);
  }

  lemma DigestsAgree(res: Resources, d: Desired)
    requires forall a: Address :: DigestAt(res, a) == Lookup(d.digests, a)
    ensures ResourceDigests(res) == d.digests
  {
    forall a ensures a in ResourceDigests(res) <==> a in d.digests { assert DigestAt(res, a) == Lookup(d.digests, a); }
    forall a | a in d.digests ensures ResourceDigests(res)[a] == d.digests[a] { assert DigestAt(res, a) == Lookup(d.digests, a); }
  }
}
