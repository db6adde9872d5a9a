/** What apply's ledger keeps for graphs that failed, and which composites it leaves bound. */
module ApplyFences {
  import opened Addresses
  import opened Digests
  import opened Ledgers
  import opened Sweep
  import opened Coverage
  import opened SweepFixpoint
  import opened Plan
  import opened Classify
  import opened Apply
  import opened ApplySafety
  import opened ApplyLedger
  import opened ApplyOutcome
  import opened CrashSafety

  // ---- the failure fence ----

  /** Nothing inside a failed graph's subtree is executed, and no tombstone touches it. */
  lemma FailedUntouched(c: Ctx, pending: set<GraphId>, plan: seq<Change>, final: seq<Change>, r: Run, a: Address, g: GraphId)
    requires ChangeFacts(plan, final, r.failed, c.d) && RemovedFacts(c, pending, r) && InSubtree(a, g) && g in r.failed
    ensures !Touched(final, a) && !RemovedHere(r.removed, a)
  {
    FinalAt(plan, final, r.failed, c.d, a, g, Create);
    FinalAt(plan, final, r.failed, c.d, a, g, Update);
    FinalAt(plan, final, r.failed, c.d, a, g, Delete);
    RemovedHereIff(c, pending, r, a, g);
  }

  /** A failed create or migration leaves a blocked graph or schema change behind. */
  lemma FailedIsBlocked(c: Ctx, pending: set<GraphId>, final: seq<Change>, failed: map<GraphId, Origin>, g: GraphId)
    requires Paired(c.res) && Declared(c.d)
    requires ChangeFacts(ClassifiedPlan(c.res, c.d, c.env.artifacts, pending), final, failed, c.d)
    requires g in failed && Moving(c.res, c.d, c.env.artifacts, pending, g)
    ensures GraphBlocked(final, g)
  {
    var plan := ClassifiedPlan(c.res, c.d, c.env.artifacts, pending);
    PlanMoves(c, pending, g, Create, false);
    PlanMoves(c, pending, g, Update, true);
    PlanMoves(c, pending, g, Delete, false);
    BlockedWhere(plan, final, failed, c.d, g);
  }

  lemma BlockedWhere(plan: seq<Change>, final: seq<Change>, failed: map<GraphId, Origin>, d: Desired, g: GraphId)
    requires ChangeFacts(plan, final, failed, d) && g in failed
    requires AppliedAt(plan, Graph(g), Create) || AppliedAt(plan, Schema(g), Update) || AppliedAt(plan, Graph(g), Delete)
    ensures GraphBlocked(final, g)
  {
    assert InSubtree(Graph(g), g) && InSubtree(Schema(g), g);
    assert BlockedAt(final, Graph(g)) || BlockedAt(final, Schema(g));
  }

  /**
   The failure fence: a graph whose create, schema apply or delete failed or was skipped keeps its swept schema digest,
   query entries and external-blob policy in the ledger this run writes.
   */
  lemma FailureFence(c: Ctx, l1: Ledger, pending: set<GraphId>, plan: seq<Change>, final: seq<Change>, paid: Run, r: Run, l2: Ledger, g: GraphId)
    requires Concluded(c, l1, pending, plan, final, paid, r, l2) && g in r.failed
    ensures Recorded(l2.resources, g) == Recorded(c.res, g)
    ensures forall n :: var a := Query(g, n); (a in l2.resources <==> a in c.res) && (a in c.res ==> l2.resources[a] == c.res[a])
    ensures GraphPolicy(l2.resources, g) == GraphPolicy(c.res, g)
  {
    forall n
      ensures var a := Query(g, n); (a in l2.resources <==> a in c.res) && (a in c.res ==> l2.resources[a] == c.res[a])
    {
      FailedUntouched(c, pending, plan, final, r, Query(g, n), g);
      EntryOf(l1, final, r.removed, c.d, c.env.actor, Query(g, n));
    }
    FailedUntouched(c, pending, plan, final, r, Schema(g), g);
    EntryOf(l1, final, r.removed, c.d, c.env.actor, Schema(g));
    FailedIsBlocked(c, pending, final, r.failed, g);
    FailedUntouched(c, pending, plan, final, r, Graph(g), g);
    PolicyKept(l1, final, r.removed, c.d, c.env.actor, g);
  }

  /** An untouched graph with a blocked change keeps its policy through recomputation. */
  lemma PolicyKept(l: Ledger, cs: seq<Change>, removed: seq<(GraphId, Option<ApprovalId>)>, d: Desired, actor: Option<string>, g: GraphId)
    requires Declared(d) && UniqueResources(cs) && !Touched(cs, Graph(g)) && !RemovedHere(removed, Graph(g)) && GraphBlocked(cs, g)
    ensures GraphPolicy(NewLedger(l, cs, removed, d, actor).resources, g) == GraphPolicy(l.resources, g)
  {
    UntouchedPolicy(l, cs, removed, d, actor, g);
    RecomputedPolicy(TombstoneAll(Mutate(l, cs, d), removed, actor).resources, d.graphs, cs, g);
  }

  lemma UntouchedPolicy(l: Ledger, cs: seq<Change>, removed: seq<(GraphId, Option<ApprovalId>)>, d: Desired, actor: Option<string>, g: GraphId)
    requires UniqueResources(cs) && !Touched(cs, Graph(g)) && !RemovedHere(removed, Graph(g))
    ensures GraphPolicy(TombstoneAll(Mutate(l, cs, d), removed, actor).resources, g) == GraphPolicy(l.resources, g)
  {
    TombstoneAllAt(Mutate(l, cs, d), removed, actor, Graph(g));
    MutateElsewhere(l, cs, d, Graph(g));
  }

  lemma RecomputedPolicy(res: Resources, graphs: seq<DesiredGraph>, cs: seq<Change>, g: GraphId)
    requires ProvidersOnly(graphs) && DistinctIds(graphs) && GraphBlocked(cs, g)
    ensures GraphPolicy(Recompute(res, graphs, cs), g) == GraphPolicy(res, g)
  {
    RecomputeAt(res, graphs, cs);
    var dg := FindGraph(graphs, g);
    if dg.Some? {
      var i :| 0 <= i < |graphs| && graphs[i] == dg.value;
    } else {
      assert forall i :: 0 <= i < |graphs| ==> graphs[i] in graphs;
    }
  }

  /** The fence does not cover the embedding provider: a failed graph's entry is rebuilt with the desired binding. */
  lemma ProviderIsNotFenced(c: Ctx, l1: Ledger, pending: set<GraphId>, plan: seq<Change>, final: seq<Change>, paid: Run, r: Run, l2: Ledger, g: GraphId)
    requires Concluded(c, l1, pending, plan, final, paid, r, l2) && g in r.failed
    requires Graph(g) in l2.resources && FindGraph(c.d.graphs, g).Some?
    ensures l2.resources[Graph(g)].provider == FindGraph(c.d.graphs, g).value.provider
  {
    NewGraphProvider(l1, final, r.removed, c.d, c.env.actor, g);
  }

  // ---- composites after apply ----

  lemma RecomposedIsBound(res: Resources, g: GraphId, provider: Option<Address>, policy: BlobPolicy)
    requires Graph(g) in res && res[Graph(g)] == Recomposed(res, g, provider, policy)
    ensures Bound(res, g)
  {
  }

  /** Apply leaves every declared graph in the ledger bound to its composite, whatever failed. */
  lemma ApplyBindsDeclared(l: Ledger, cs: seq<Change>, removed: seq<(GraphId, Option<ApprovalId>)>, d: Desired, actor: Option<string>, g: GraphId)
    requires Declared(d) && FindGraph(d.graphs, g).Some?
    ensures Bound(NewLedger(l, cs, removed, d, actor).resources, g)
  {
    var lt := TombstoneAll(Mutate(l, cs, d), removed, actor);
    var res' := NewLedger(l, cs, removed, d, actor).resources;
    RecomputeAt(lt.resources, d.graphs, cs);
    var dg := FindGraph(d.graphs, g).value;
    var i :| 0 <= i < |d.graphs| && d.graphs[i] == dg;
    if Graph(g) in res' {
      RecomposedFrame(lt.resources, res', g, dg.provider, PolicyFor(lt.resources, dg, cs));
      RecomposedIsBound(res', g, dg.provider, PolicyFor(lt.resources, dg, cs));
    }
  }

  /** The plan's change at `a`, if there is one, is executed. */
  ghost predicate ExecutedAt(cs: seq<Change>, res: Resources, d: Desired, a: Address) {
    forall op :: AppliedAt(cs, a, op) <==> PlanAt(res, d, a).Some? && PlanAt(res, d, a).value.operation == op
  }

  /** Where the plan's change is executed, the ledger ends at the desired digest, binding and profile. */
  lemma ExecutedReachesDesired(l: Ledger, cs: seq<Change>, removed: seq<(GraphId, Option<ApprovalId>)>, d: Desired, actor: Option<string>, a: Address)
    requires Declared(d) && UniqueResources(cs) && Faithful(cs, d) && !a.Graph?
    requires ExecutedAt(cs, l.resources, d, a) && !RemovedHere(removed, a)
    ensures var res' := NewLedger(l, cs, removed, d, actor).resources;
            && DigestAt(res', a) == Lookup(d.digests, a)
            && (a in d.bindings ==> a in res' && res'[a].appliesTo == Some(d.bindings[a]))
            && (a in d.profiles ==> a in res' && res'[a].profile == Some(d.profiles[a]))
  {
    EntryOf(l, cs, removed, d, actor, a);
    PlanAtDesired(l.resources, d, a);
  }

  /** Provider changes are always executed, so the ledger ends at the desired provider digest. */
  lemma ProviderExecuted(res: Resources, d: Desired, arts: Artifacts, pending: set<GraphId>, p: Address,
                         failed: map<GraphId, Origin>, failed': map<GraphId, Origin>)
    requires p.EmbeddingProvider?
    ensures ExecutedAt(Demoted(Demoted(ClassifiedPlan(res, d, arts, pending), failed, d.dependencies), failed', d.dependencies), res, d, p)
  {
    var plan := ClassifiedPlan(res, d, arts, pending);
    forall op
      ensures AppliedAt(Demoted(Demoted(plan, failed, d.dependencies), failed', d.dependencies), p, op) <==>
              PlanAt(res, d, p).Some? && PlanAt(res, d, p).value.operation == op
    {
      ProviderApplied(res, d, arts, pending, p, op);
      ProviderKept(plan, failed, d.dependencies, p, op);
      ProviderKept(Demoted(plan, failed, d.dependencies), failed', d.dependencies, p, op);
    }
  }

  lemma ProviderApplied(res: Resources, d: Desired, arts: Artifacts, pending: set<GraphId>, p: Address, op: Operation)
    requires p.EmbeddingProvider?
    ensures AppliedAt(ClassifiedPlan(res, d, arts, pending), p, op) <==> PlanAt(res, d, p).Some? && PlanAt(res, d, p).value.operation == op
  {
    var cs := PlanOf(res, d);
    var gate := GateOf(cs, d.dependencies, pending, ApprovedResources(arts, cs, d.configDigest));
    PlanApplied(res, d, arts, pending, p, op);
    if PlanAt(res, d, p).Some? { ProviderAccepted(gate, PlanAt(res, d, p).value); }
  }

  lemma ProviderAccepted(gate: Gate, c: Change)
    requires c.resource.EmbeddingProvider?
    ensures Judge(gate, c).disposition == Applied
  {
  }

  lemma ProviderKept(cs: seq<Change>, failed: map<GraphId, Origin>, deps: set<Dependency>, p: Address, op: Operation)
    requires p.EmbeddingProvider?
    ensures AppliedAt(Demoted(cs, failed, deps), p, op) <==> AppliedAt(cs, p, op)
  {
    var cs' := Demoted(cs, failed, deps);
    assert forall i :: 0 <= i < |cs| && cs[i].resource == p ==> cs'[i] == cs[i];
    assert forall i :: 0 <= i < |cs| ==> cs'[i].resource == cs[i].resource;
  }

  /**
   An undeclared graph that survives the run keeps its entry, so it stays bound exactly if the configuration leaves the
   digest of its embedding provider alone. A provider edited or dropped while the graph's delete awaits approval severs
   the ledger, and the next command refuses it.
   */
  lemma UndeclaredBoundIff(res: Resources, res': Resources, d: Desired, h: GraphId)
    requires Graph(h) in res && Graph(h) in res' && res'[Graph(h)] == res[Graph(h)]
    requires Recorded(res', h) == Recorded(res, h) && QueryDigests(res', h) == QueryDigests(res, h) && Bound(res, h)
    requires res[Graph(h)].provider.Some? && DigestAt(res', res[Graph(h)].provider.value) == Lookup(d.digests, res[Graph(h)].provider.value)
    ensures Bound(res', h) <==>
            OrEmpty(Lookup(d.digests, res[Graph(h)].provider.value)) == OrEmpty(DigestAt(res, res[Graph(h)].provider.value))
  {
    var e := res[Graph(h)];
    if Bound(res', h) {
      GraphDigestBinds(h, Recorded(res', h), QueryDigests(res', h), e.provider, ProviderDigest(res', e.provider), PolicyOf(e),
                       h, Recorded(res, h), QueryDigests(res, h), e.provider, ProviderDigest(res, e.provider), PolicyOf(e));
    }
  }

  lemma SameQueries(res: Resources, res': Resources, h: GraphId)
    requires forall n :: DigestAt(res', Query(h, n)) == DigestAt(res, Query(h, n))
    ensures QueryDigests(res', h) == QueryDigests(res, h)
  {
    forall a: Address | a.Query? && a.graph == h ensures DigestAt(res', a) == DigestAt(res, a) { assert a == Query(h, a.name); }
    assert forall a :: a in QueryDigests(res', h) <==> a in QueryDigests(res, h);
  }

  /** The entries of an undeclared graph whose delete did not run are exactly the swept ones. */
  lemma UndeclaredKept(c: Ctx, l1: Ledger, pending: set<GraphId>, plan: seq<Change>, final: seq<Change>, paid: Run, r: Run, l2: Ledger, h: GraphId)
    requires Concluded(c, l1, pending, plan, final, paid, r, l2) && Graph(h) in c.res && Graph(h) !in c.d.digests
    requires c.env.op(h) !in r.completed
    requires forall n :: Query(h, n) !in c.d.digests
    ensures Graph(h) in l2.resources && l2.resources[Graph(h)] == c.res[Graph(h)]
    ensures Recorded(l2.resources, h) == Recorded(c.res, h) && QueryDigests(l2.resources, h) == QueryDigests(c.res, h)
  {
    assert !Deleting(c.res, c.d, c.env.artifacts, pending, h) || h in r.failed;
    forall n ensures DigestAt(l2.resources, Query(h, n)) == DigestAt(c.res, Query(h, n)) {
      UndeclaredQueryKept(c, l1, pending, final, r, h, n);
    }
    SameQueries(c.res, l2.resources, h);
    LedgerTellsTruth(c, l1, pending, plan, final, paid, r, l2, h);
    assert Schema(h) in c.res;
    NewGraphProvider(l1, final, r.removed, c.d, c.env.actor, h);
  }

  lemma UndeclaredQueryKept(c: Ctx, l1: Ledger, pending: set<GraphId>, final: seq<Change>, r: Run, h: GraphId, n: string)
    requires Declared(c.d) && l1.resources == c.res && RemovedFacts(c, pending, r)
    requires ChangeFacts(ClassifiedPlan(c.res, c.d, c.env.artifacts, pending), final, r.failed, c.d)
    requires Graph(h) in c.res && Graph(h) !in c.d.digests && Query(h, n) !in c.d.digests
    requires !Deleting(c.res, c.d, c.env.artifacts, pending, h) || h in r.failed
    ensures DigestAt(NewLedger(l1, final, r.removed, c.d, c.env.actor).resources, Query(h, n)) == DigestAt(c.res, Query(h, n))
  {
    var a := Query(h, n);
    forall op ensures !AppliedAt(final, a, op) {
      FinalAt(ClassifiedPlan(c.res, c.d, c.env.artifacts, pending), final, r.failed, c.d, a, h, op);
      UndeclaredQueryHeld(c, pending, h, n, op);
    }
    RemovedHereIff(c, pending, r, a, h);
    EntryOf(l1, final, r.removed, c.d, c.env.actor, a);
  }

  /** A query of a dropped graph is executable only together with the graph's own delete. */
  lemma UndeclaredQueryHeld(c: Ctx, pending: set<GraphId>, h: GraphId, n: string, op: Operation)
    requires Declared(c.d) && Graph(h) in c.res && Graph(h) !in c.d.digests && Query(h, n) !in c.d.digests
    ensures AppliedAt(ClassifiedPlan(c.res, c.d, c.env.artifacts, pending), Query(h, n), op) ==> Deleting(c.res, c.d, c.env.artifacts, pending, h)
  {
    PlanApplied(c.res, c.d, c.env.artifacts, pending, Query(h, n), op);
    PlanAtPlain(c.res, c.d, Query(h, n));
    PlanSets(c.res, c.d, h);
    ApprovalExact(c.res, c.d, c.env.artifacts, h);
  }
}
