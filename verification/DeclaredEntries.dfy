/** The entry every declared graph has in the ledger an apply writes. */
module DeclaredEntries {
  import opened Addresses
  import opened Digests
  import opened Ledgers
  import opened Sweep
  import opened Coverage
  import opened Plan
  import opened Classify
  import opened Dispositions
  import opened Apply
  import opened ApplySafety
  import opened ApplyLedger
  import opened ApplyOutcome
  import opened CrashSafety
  import opened ApplyFences
  import opened ApplyTheorems
  import opened AppliedRecords

  /** The run holds graph `g` back: its operation failed, or it has to move and its recovery is pending. */
  ghost predicate HeldBack(res: Resources, d: Desired, pending: set<GraphId>, failed: map<GraphId, Origin>, g: GraphId)
    requires Schema(g) in d.digests
  {
    g in failed || (g in pending && Recorded(res, g) != Some(d.digests[Schema(g)]))
  }

  /** A blocked change of a declared graph or its schema in the plan: recovery is pending and the schema is not yet recorded. */
  lemma PlannedBlock(res: Resources, d: Desired, arts: Artifacts, pending: set<GraphId>, g: GraphId, i: nat)
    requires Paired(res) && Declared(d) && Graph(g) in d.digests && i < |ClassifiedPlan(res, d, arts, pending)|
    requires var c := ClassifiedPlan(res, d, arts, pending)[i]; c.disposition == Some(Blocked) && (c.resource == Graph(g) || c.resource == Schema(g))
    ensures g in pending && Recorded(res, g) != Some(d.digests[Schema(g)])
  {
    var cs, c := PlanOf(res, d), ClassifiedPlan(res, d, arts, pending)[i];
    ClassifiedIsPlanned(res, d, arts, pending, i);
    assert cs[i] in cs;
    PlanRow(res, d, cs[i]);
    PlannedIff(res, d, Graph(g));
    if c.resource == Graph(g) { GraphVerdicts(res, d, arts, pending, i, g); }
    else { SchemaVerdicts(res, d, arts, pending, i, g); SchemaDiffers(res, d, cs[i], g); }
  }

  lemma SchemaDiffers(res: Resources, d: Desired, c: Change, g: GraphId)
    requires Declared(d) && c in PlanOf(res, d) && c.resource == Schema(g) && Schema(g) in d.digests
    ensures Recorded(res, g) != Some(d.digests[Schema(g)])
  {
    PlanFacts(res, d);
    PlanAtPlain(res, d, Schema(g));
  }

  lemma PendingBlocks(res: Resources, d: Desired, arts: Artifacts, pending: set<GraphId>, g: GraphId) returns (i: nat)
    requires Paired(res) && Declared(d) && Graph(g) in d.digests && g in pending && Recorded(res, g) != Some(d.digests[Schema(g)])
    ensures i < |ClassifiedPlan(res, d, arts, pending)|
    ensures var c := ClassifiedPlan(res, d, arts, pending)[i]; c.resource == Schema(g) && c.disposition == Some(Blocked)
  {
    var cs := PlanOf(res, d);
    PlanAtPlain(res, d, Schema(g));
    PlannedAt(res, d, Schema(g));
    var k :| 0 <= k < |cs| && cs[k].resource == Schema(g) && cs[k] == PlanAt(res, d, Schema(g)).value;
    i := k;
    ClassifiedIsPlanned(res, d, arts, pending, i);
    SchemaVerdicts(res, d, arts, pending, i, g);
  }

  /** Demotion as `FinalReport` states it, for one list of changes. */
  ghost predicate ReportOf(plan: seq<Change>, final: seq<Change>, failed: map<GraphId, Origin>, deps: set<Dependency>) {
    |final| == |plan| && forall i :: 0 <= i < |plan| ==>
      if plan[i].disposition == Some(Applied) && HitBy(plan[i].resource, failed.Keys, deps)
      then final[i] == plan[i].(disposition := Some(Blocked), reason := Some(Blame(plan[i].resource, failed)))
      else final[i] == plan[i]
  }

  lemma BlockedIff(c: Ctx, pending: set<GraphId>, final: seq<Change>, failed: map<GraphId, Origin>, g: GraphId)
    requires Paired(c.res) && Declared(c.d) && Graph(g) in c.d.digests
    requires var plan := ClassifiedPlan(c.res, c.d, c.env.artifacts, pending);
             ReportOf(plan, final, failed, c.d.dependencies) && ChangeFacts(plan, final, failed, c.d)
    requires g in failed ==> Moving(c.res, c.d, c.env.artifacts, pending, g)
    ensures GraphBlocked(final, g) <==> HeldBack(c.res, c.d, pending, failed, g)
  {
    var plan := ClassifiedPlan(c.res, c.d, c.env.artifacts, pending);
    if GraphBlocked(final, g) {
      var i :| 0 <= i < |final| && final[i].disposition == Some(Blocked) && (final[i].resource == Graph(g) || final[i].resource == Schema(g));
      HitByOwn(plan[i].resource, failed.Keys, c.d.dependencies);
      if g !in failed { PlannedBlock(c.res, c.d, c.env.artifacts, pending, g, i); }
    }
    if g in failed { FailedIsBlocked(c, pending, final, failed, g); }
    else if HeldBack(c.res, c.d, pending, failed, g) {
      var i := PendingBlocks(c.res, c.d, c.env.artifacts, pending, g);
      assert final[i] == plan[i];
    }
  }

  /** A held-back graph is neither executed nor removed, so its recorded policy stands until the entry is rebuilt. */
  lemma HeldUntouched(c: Ctx, pending: set<GraphId>, plan: seq<Change>, final: seq<Change>, paid: Run, r: Run, l1: Ledger, l2: Ledger, g: GraphId)
    requires Concluded(c, l1, pending, plan, final, paid, r, l2) && Graph(g) in c.d.digests && HeldBack(c.res, c.d, pending, r.failed, g)
    ensures !Touched(final, Graph(g)) && !RemovedHere(r.removed, Graph(g))
  {
    RemovedHereIff(c, pending, r, Graph(g), g);
    FinalMoves(c, pending, final, r.failed, g, Create, false);
    FinalMoves(c, pending, final, r.failed, g, Update, false);
    FinalMoves(c, pending, final, r.failed, g, Delete, false);
  }

  lemma RebuiltEntry(l: Ledger, cs: seq<Change>, removed: seq<(GraphId, Option<ApprovalId>)>, d: Desired, actor: Option<string>, dg: DesiredGraph)
    requires Declared(d) && UniqueResources(cs) && dg in d.graphs && Graph(dg.id) in NewLedger(l, cs, removed, d, actor).resources
    requires GraphBlocked(cs, dg.id) ==> !Touched(cs, Graph(dg.id)) && !RemovedHere(removed, Graph(dg.id))
    ensures var res' := NewLedger(l, cs, removed, d, actor).resources;
            res'[Graph(dg.id)] == Recomposed(res', dg.id, dg.provider, if GraphBlocked(cs, dg.id) then GraphPolicy(l.resources, dg.id) else dg.policy)
  {
    var lt, g := TombstoneAll(Mutate(l, cs, d), removed, actor), dg.id;
    var res' := NewLedger(l, cs, removed, d, actor).resources;
    RecomputeAt(lt.resources, d.graphs, cs);
    var i :| 0 <= i < |d.graphs| && d.graphs[i] == dg;
    RecomposedFrame(lt.resources, res', g, dg.provider, PolicyFor(lt.resources, dg, cs));
    if GraphBlocked(cs, g) {
      TombstoneAllAt(Mutate(l, cs, d), removed, actor, Graph(g));
      MutateElsewhere(l, cs, d, Graph(g));
    }
  }

  lemma ReportIsExact(w: World, l0: Ledger, d: Desired, env: Env)
    requires Runs(w, l0, d, env)
    ensures var x := Execute(w, l0, d, env); ReportOf(x.plan, x.final, x.deleted.failed, d.dependencies)
  {
    var x := Execute(w, l0, d, env);
    forall i | 0 <= i < |x.plan|
      ensures if x.plan[i].disposition == Some(Applied) && HitBy(x.plan[i].resource, x.deleted.failed.Keys, d.dependencies)
              then x.final[i] == x.plan[i].(disposition := Some(Blocked), reason := Some(Blame(x.plan[i].resource, x.deleted.failed)))
              else x.final[i] == x.plan[i]
    {
      FinalReport(w, l0, d, env, i);
    }
  }

  lemma EntryOver(c: Ctx, pending: set<GraphId>, plan: seq<Change>, final: seq<Change>, paid: Run, r: Run, l1: Ledger, l2: Ledger, dg: DesiredGraph)
    requires Concluded(c, l1, pending, plan, final, paid, r, l2) && ReportOf(plan, final, r.failed, c.d.dependencies)
    requires dg in c.d.graphs && Schema(dg.id) in c.d.digests && Graph(dg.id) in l2.resources
    ensures l2.resources[Graph(dg.id)] ==
            Recomposed(l2.resources, dg.id, dg.provider, if HeldBack(c.res, c.d, pending, r.failed, dg.id) then GraphPolicy(c.res, dg.id) else dg.policy)
  {
    assert Graph(dg.id) in c.d.digests;
    BlockedIff(c, pending, final, r.failed, dg.id);
    if GraphBlocked(final, dg.id) { HeldUntouched(c, pending, plan, final, paid, r, l1, l2, dg.id); }
    RebuiltEntry(l1, final, r.removed, c.d, c.env.actor, dg);
  }

  /**
   Every declared graph in the ledger an apply writes is rebuilt from that ledger's own schema, queries and provider digest,
   bound to the declared provider, and carries the declared Blob policy exactly unless the run holds the graph back, when it
   keeps the recorded one.
   */
  lemma DeclaredEntry(w: World, l0: Ledger, d: Desired, env: Env, dg: DesiredGraph)
    requires Runs(w, l0, d, env) && dg in d.graphs && Schema(dg.id) in d.digests && Graph(dg.id) in Execute(w, l0, d, env).ledger.resources
    ensures var x := Execute(w, l0, d, env);
            var res, pending := x.swept.ledger.resources, x.swept.outcome.pending;
            x.ledger.resources[Graph(dg.id)] ==
            Recomposed(x.ledger.resources, dg.id, dg.provider, if HeldBack(res, d, pending, x.deleted.failed, dg.id) then GraphPolicy(res, dg.id) else dg.policy)
  {
    var c, x := CtxOf(w, l0, d, env), Execute(w, l0, d, env);
    RunConcludes(w, l0, d, env);
    ReportIsExact(w, l0, d, env);
    EntryOver(c, x.swept.outcome.pending, x.plan, x.final, x.paid.run, x.deleted, x.swept.ledger, x.ledger, dg);
  }
}
