/** What one apply run promises about the ledger it is about to write, stated on the run itself. */
module ApplyTheorems {
  import opened Addresses
  import opened Digests
  import opened Ledgers
  import opened Sweep
  import opened Coverage
  import opened SweepFixpoint
  import opened Plan
  import opened Classify
  import opened Apply
  import opened ApplySafety
  import opened ApplyLedger
  import opened ApplyOutcome
  import opened ApplyReport
  import opened CrashSafety
  import opened ApplyIsSafe
  import opened ApplyFences
  import opened ApplyConverges

  /** A run that passed its gates, from a world of the right shape; nothing is assumed of coverage. */
  ghost predicate Runs(w: World, l0: Ledger, d: Desired, env: Env) {
    w.ledger == Some(l0) && Shaped(w) && AllBound(l0.resources) && Admissible(w, d, env)
  }

  lemma RunConcludes(w: World, l0: Ledger, d: Desired, env: Env)
    requires Runs(w, l0, d, env)
    ensures var c, x := CtxOf(w, l0, d, env), Execute(w, l0, d, env);
            Concluded(c, x.swept.ledger, x.swept.outcome.pending, x.plan, x.final, x.paid.run, x.deleted, x.ledger)
  {
    ExecuteFacts(w, l0, d, env);
  }

  /** Reported as Applied exactly when the operation completed. */
  lemma AppliedIffCompleted(c: Ctx, pending: set<GraphId>, final: seq<Change>, paid: Run, r: Run, g: GraphId)
    requires RunFacts(c, pending, paid, r) && Declared(c.d)
    requires ChangeFacts(ClassifiedPlan(c.res, c.d, c.env.artifacts, pending), final, r.failed, c.d)
    ensures AppliedAt(final, Graph(g), Create) || AppliedAt(final, Schema(g), Update) || AppliedAt(final, Graph(g), Delete)
            <==> c.env.op(g) in r.completed
  {
    FinalMoves(c, pending, final, r.failed, g, Create, false);
    FinalMoves(c, pending, final, r.failed, g, Update, true);
    FinalMoves(c, pending, final, r.failed, g, Delete, false);
    CompletedIffMoving(c, pending, paid, r, g);
  }

  lemma CompletedIffMoving(c: Ctx, pending: set<GraphId>, paid: Run, r: Run, g: GraphId)
    requires RunFacts(c, pending, paid, r)
    ensures c.env.op(g) in r.completed <==> Moving(c.res, c.d, c.env.artifacts, pending, g) && g !in r.failed
  {
  }

  /**
   At the state write a graph create, schema update or graph delete is still reported Applied exactly when its engine
   call succeeded in this run, and exactly then the new ledger leaves the swept entry of that graph behind.
   */
  lemma ReportIsTruthful(w: World, l0: Ledger, d: Desired, env: Env, g: GraphId)
    requires Runs(w, l0, d, env)
    ensures var x := Execute(w, l0, d, env);
            && (AppliedAt(x.final, Graph(g), Create) || AppliedAt(x.final, Schema(g), Update) || AppliedAt(x.final, Graph(g), Delete)
                <==> Succeeded(x.deleted.log, g))
            && Recorded(x.ledger.resources, g) ==
               if Succeeded(x.deleted.log, g) then DigestOf(Target(d, g)) else Recorded(x.swept.ledger.resources, g)
  {
    var c, x := CtxOf(w, l0, d, env), Execute(w, l0, d, env);
    RunConcludes(w, l0, d, env);
    ExecutionReported(w, l0, d, env);
    AppliedIffCompleted(c, x.swept.outcome.pending, x.final, x.paid.run, x.deleted, g);
    LedgerTellsTruth(c, x.swept.ledger, x.swept.outcome.pending, x.plan, x.final, x.paid.run, x.deleted, x.ledger, g);
    CompletedIffSucceeded(x.deleted, env, g);
  }

  lemma CompletedIffSucceeded(r: Run, env: Env, g: GraphId)
    requires Truthful(r, env)
    ensures env.op(g) in r.completed <==> Succeeded(r.log, g)
  {
  }

  /** The failure fence, for every graph whose operation failed or was skipped in the run. */
  lemma FailedGraphIsFenced(w: World, l0: Ledger, d: Desired, env: Env, g: GraphId)
    requires Runs(w, l0, d, env) && g in Execute(w, l0, d, env).deleted.failed
    ensures var res, res' := Execute(w, l0, d, env).swept.ledger.resources, Execute(w, l0, d, env).ledger.resources;
            && Recorded(res', g) == Recorded(res, g)
            && (forall n :: (Query(g, n) in res' <==> Query(g, n) in res) && (Query(g, n) in res ==> res'[Query(g, n)] == res[Query(g, n)]))
            && GraphPolicy(res', g) == GraphPolicy(res, g)
  {
    var c, x := CtxOf(w, l0, d, env), Execute(w, l0, d, env);
    RunConcludes(w, l0, d, env);
    FailureFence(c, x.swept.ledger, x.swept.outcome.pending, x.plan, x.final, x.paid.run, x.deleted, x.ledger, g);
  }

  /** The provider binding of a declared graph is taken from the configuration even when the graph failed. */
  lemma FailedGraphTakesDesiredProvider(w: World, l0: Ledger, d: Desired, env: Env, g: GraphId)
    requires Runs(w, l0, d, env) && g in Execute(w, l0, d, env).deleted.failed && FindGraph(d.graphs, g).Some?
    requires Graph(g) in Execute(w, l0, d, env).ledger.resources
    ensures Execute(w, l0, d, env).ledger.resources[Graph(g)].provider == FindGraph(d.graphs, g).value.provider
  {
    var c, x := CtxOf(w, l0, d, env), Execute(w, l0, d, env);
    RunConcludes(w, l0, d, env);
    ProviderIsNotFenced(c, x.swept.ledger, x.swept.outcome.pending, x.plan, x.final, x.paid.run, x.deleted, x.ledger, g);
  }

  /** The configuration changes the digest of the provider this graph entry binds. */
  predicate ProviderDisturbed(res: Resources, d: Desired, h: GraphId)
    requires Graph(h) in res
  {
    var p := res[Graph(h)].provider;
    p.Some? && OrEmpty(Lookup(d.digests, p.value)) != OrEmpty(DigestAt(res, p.value))
  }

  /**
   Which graph entries the written ledger leaves bound to their composite: every declared one, and an undeclared one
   exactly if the configuration does not disturb the embedding provider it binds.
   */
  lemma ApplyBindingExact(w: World, l0: Ledger, d: Desired, env: Env, h: GraphId)
    requires Runs(w, l0, d, env) && Loaded(d) && Graph(h) in Execute(w, l0, d, env).ledger.resources
    ensures var res, res' := Execute(w, l0, d, env).swept.ledger.resources, Execute(w, l0, d, env).ledger.resources;
            if Graph(h) in d.digests then Bound(res', h)
            else Graph(h) in res && (Bound(res', h) <==> !ProviderDisturbed(res, d, h))
  {
    var c, x := CtxOf(w, l0, d, env), Execute(w, l0, d, env);
    if Graph(h) in d.digests {
      ApplyBindsDeclared(x.swept.ledger, x.final, x.deleted.removed, d, env.actor, h);
    } else {
      RunConcludes(w, l0, d, env);
      SweepKeepsBound(Swept(l0, NoOutcome), env.probes);
      UndeclaredBinding(c, x.swept.ledger, x.swept.outcome.pending, x.plan, x.final, x.paid.run, x.deleted, x.ledger, h, x.migrated.failed);
    }
  }

  lemma UndeclaredSurvivor(c: Ctx, l1: Ledger, pending: set<GraphId>, plan: seq<Change>, final: seq<Change>, paid: Run, r: Run, l2: Ledger, h: GraphId)
    requires Concluded(c, l1, pending, plan, final, paid, r, l2) && Graph(h) in l2.resources && Graph(h) !in c.d.digests
    ensures Graph(h) in c.res && c.env.op(h) !in r.completed
  {
    LedgerTellsTruth(c, l1, pending, plan, final, paid, r, l2, h);
    SurvivorStood(c.res, l2.resources, c.d, h, c.env.op(h) in r.completed);
  }

  lemma SurvivorStood(res: Resources, res': Resources, d: Desired, h: GraphId, done: bool)
    requires Declared(d) && Paired(res) && Graph(h) in res' && Schema(h) in res' && Graph(h) !in d.digests
    requires Recorded(res', h) == if done then DigestOf(Target(d, h)) else Recorded(res, h)
    ensures Graph(h) in res && !done
  {
    assert Recorded(res', h).Some? && Schema(h) !in d.digests;
  }

  lemma UndeclaredBinding(c: Ctx, l1: Ledger, pending: set<GraphId>, plan: seq<Change>, final: seq<Change>, paid: Run, r: Run, l2: Ledger,
                          h: GraphId, failed: map<GraphId, Origin>)
    requires Concluded(c, l1, pending, plan, final, paid, r, l2) && Loaded(c.d)
    requires final == Demoted(Demoted(plan, failed, c.d.dependencies), r.failed, c.d.dependencies)
    requires WellKinded(c.res) && AllBound(c.res) && Graph(h) in l2.resources && Graph(h) !in c.d.digests
    ensures Graph(h) in c.res && (Bound(l2.resources, h) <==> !ProviderDisturbed(c.res, c.d, h))
  {
    UndeclaredSurvivor(c, l1, pending, plan, final, paid, r, l2, h);
    UndeclaredKept(c, l1, pending, plan, final, paid, r, l2, h);
    assert Bound(c.res, h);
    var p := c.res[Graph(h)].provider;
    if p.Some? {
      ProviderReached(c, l1, pending, plan, final, r, failed, p.value);
      UndeclaredBoundIff(c.res, l2.resources, c.d, h);
    }
  }

  lemma ProviderReached(c: Ctx, l1: Ledger, pending: set<GraphId>, plan: seq<Change>, final: seq<Change>, r: Run, failed: map<GraphId, Origin>, p: Address)
    requires Declared(c.d) && l1.resources == c.res && p.EmbeddingProvider? && plan == ClassifiedPlan(c.res, c.d, c.env.artifacts, pending)
    requires final == Demoted(Demoted(plan, failed, c.d.dependencies), r.failed, c.d.dependencies)
    requires UniqueResources(final) && Faithful(final, c.d)
    ensures DigestAt(NewLedger(l1, final, r.removed, c.d, c.env.actor).resources, p) == Lookup(c.d.digests, p)
  {
    ProviderExecuted(c.res, c.d, c.env.artifacts, pending, p, failed, r.failed);
    assert !RemovedHere(r.removed, p);
    ExecutedReachesDesired(l1, final, r.removed, c.d, c.env.actor, p);
  }
}
