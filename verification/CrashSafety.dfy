/** The invariant every stored world satisfies, and that no step of apply breaks it. */
module CrashSafety {
  import opened Addresses
  import opened Digests
  import opened Ledgers
  import opened Sweep
  import opened Coverage
  import opened SweepFixpoint
  import opened Plan
  import opened Classify
  import opened Apply
  import opened ApplySafety
  import opened ApplyLedger
  import opened ApplyOutcome

  function ResourcesOf(w: World): Resources {
    if w.ledger.Some? then w.ledger.value.resources else map[]
  }

  /** A tombstone naming an approval stands in a ledger that records the approval as consumed. */
  ghost predicate TombstonesAudited(l: Ledger) {
    forall a :: a in l.observations && l.observations[a].Tombstone? && l.observations[a].approval.Some? ==>
      l.observations[a].approval.value in l.approvalRecords
  }

  /** An approval file marked consumed is already recorded in the committed ledger. */
  ghost predicate FilesAudited(w: World) {
    forall id :: id in w.approvals && w.approvals[id].consumed ==> w.ledger.Some? && id in w.ledger.value.approvalRecords
  }

  /** The invariant, with coverage claimed of the graphs outside `lost` only. */
  ghost predicate SafeBut(w: World, lost: iset<GraphId>) {
    Shaped(w) && forall g :: g !in lost ==> Covered(ResourcesOf(w), w.live, w.sidecars, g)
  }

  /** The invariant without coverage. */
  ghost predicate Shaped(w: World) {
    && Paired(ResourcesOf(w)) && WellKinded(ResourcesOf(w))
    && (w.ledger.Some? ==> TombstonesAudited(w.ledger.value))
    && FilesAudited(w)
  }

  ghost predicate Safe(w: World) {
    SafeBut(w, iset{})
  }

  // ---- the audit trail ----

  ghost predicate AuditedOutcome(st: Swept) {
    TombstonesAudited(st.ledger) && forall id :: id in st.outcome.consumed ==> id in st.ledger.approvalRecords
  }

  lemma SweepOneAudited(st: Swept, p: Probe)
    requires AuditedOutcome(st)
    ensures AuditedOutcome(SweepOne(st, p)) && st.ledger.approvalRecords.Keys <= SweepOne(st, p).ledger.approvalRecords.Keys
  {
    if p.sidecar.kind == GraphDelete && p.seen.Absent? && Graph(p.sidecar.graph) in st.ledger.resources {
      var l' := TombstoneForward(st, p).ledger;
      assert TombstonesAudited(l');
    }
  }

  lemma {:induction false} SweepAudited(st: Swept, ps: seq<Probe>)
    requires AuditedOutcome(st)
    ensures AuditedOutcome(SweepAll(st, ps)) && st.ledger.approvalRecords.Keys <= SweepAll(st, ps).ledger.approvalRecords.Keys
    decreases |ps|
  {
    if ps != [] {
      SweepOneAudited(st, ps[0]);
      SweepAudited(SweepOne(st, ps[0]), ps[1..]);
    }
  }

  lemma {:induction false} MutateKeepsAudit(l: Ledger, cs: seq<Change>, d: Desired)
    ensures Mutate(l, cs, d).observations == l.observations && Mutate(l, cs, d).approvalRecords == l.approvalRecords
    decreases |cs|
  {
    if cs != [] { MutateKeepsAudit(MutateOne(l, cs[0], d), cs[1..], d); }
  }

  lemma {:induction false} TombstoneAllAudited(l: Ledger, removed: seq<(GraphId, Option<ApprovalId>)>, actor: Option<string>)
    requires TombstonesAudited(l)
    ensures var l' := TombstoneAll(l, removed, actor);
            && TombstonesAudited(l') && l.approvalRecords.Keys <= l'.approvalRecords.Keys
            && forall id :: id in ConsumedIds(removed) ==> id in l'.approvalRecords
    decreases |removed|
  {
    if removed != [] {
      var l1 := TombstoneOne(l, removed[0], actor);
      assert TombstonesAudited(l1);
      TombstoneAllAudited(l1, removed[1..], actor);
    }
  }

  lemma NewLedgerAudited(l: Ledger, cs: seq<Change>, removed: seq<(GraphId, Option<ApprovalId>)>, d: Desired, actor: Option<string>)
    requires TombstonesAudited(l)
    ensures var l' := NewLedger(l, cs, removed, d, actor);
            && TombstonesAudited(l') && l.approvalRecords.Keys <= l'.approvalRecords.Keys
            && forall id :: id in ConsumedIds(removed) ==> id in l'.approvalRecords
  {
    MutateKeepsAudit(l, cs, d);
    TombstoneAllAudited(Mutate(l, cs, d), removed, actor);
  }

  // ---- the ledger apply writes tells the truth ----

  lemma NewLedgerAt(l: Ledger, cs: seq<Change>, removed: seq<(GraphId, Option<ApprovalId>)>, d: Desired, actor: Option<string>, a: Address)
    requires Declared(d)
    ensures var res', res1 := NewLedger(l, cs, removed, d, actor).resources, Mutate(l, cs, d).resources;
            && (a in res' <==> a in res1 && !RemovedHere(removed, a))
            && (a in res' && !a.Graph? ==> res'[a] == res1[a])
  {
    var l1 := TombstoneAll(Mutate(l, cs, d), removed, actor);
    TombstoneAllAt(Mutate(l, cs, d), removed, actor, a);
    RecomputeAt(l1.resources, d.graphs, cs);
  }

  /** The removed list prunes exactly the subtrees of the graphs whose deletion finished. */
  lemma RemovedHereIff(c: Ctx, pending: set<GraphId>, r: Run, a: Address, g: GraphId)
    requires RemovedFacts(c, pending, r) && InSubtree(a, g)
    ensures RemovedHere(r.removed, a) <==> Deleting(c.res, c.d, c.env.artifacts, pending, g) && g !in r.failed
  {
    var y := (g, Consumable(c.env.artifacts, g, c.d.configDigest));
    assert y in r.removed <==> Deleting(c.res, c.d, c.env.artifacts, pending, g) && g !in r.failed;
    assert forall i :: 0 <= i < |r.removed| && r.removed[i] == y ==> InSubtree(a, r.removed[i].0);
    if RemovedHere(r.removed, a) {
      var i :| 0 <= i < |r.removed| && InSubtree(a, r.removed[i].0);
      SameSubtree(a, g, r.removed[i].0);
      assert r.removed[i] in r.removed;
    }
  }

  lemma SameSubtree(a: Address, g: GraphId, h: GraphId)
    requires InSubtree(a, g) && InSubtree(a, h)
    ensures g == h
  {
  }

  /** The graph operation that a change of `graph.g` or `schema.g` stands for. */
  ghost predicate Moves(c: Ctx, pending: set<GraphId>, g: GraphId, op: Operation, schema: bool) {
    match op
    case Create => Creating(c.res, c.d, pending, g)
    case Update => schema && Migrating(c.res, c.d, pending, g)
    case Delete => Deleting(c.res, c.d, c.env.artifacts, pending, g)
  }

  lemma PlanMoves(c: Ctx, pending: set<GraphId>, g: GraphId, op: Operation, schema: bool)
    requires Paired(c.res) && Declared(c.d)
    ensures AppliedAt(ClassifiedPlan(c.res, c.d, c.env.artifacts, pending), Visited(g, schema), op) <==> Moves(c, pending, g, op, schema)
  {
    if schema { SchemaAddressDispositions(c.res, c.d, c.env.artifacts, pending, g, op); }
    else { GraphAddressDispositions(c.res, c.d, c.env.artifacts, pending, g, op); }
  }

  lemma FinalAt(plan: seq<Change>, final: seq<Change>, failed: map<GraphId, Origin>, d: Desired, a: Address, g: GraphId, op: Operation)
    requires ChangeFacts(plan, final, failed, d) && InSubtree(a, g)
    ensures AppliedAt(final, a, op) <==> AppliedAt(plan, a, op) && g !in failed
  {
  }

  lemma FinalMoves(c: Ctx, pending: set<GraphId>, final: seq<Change>, failed: map<GraphId, Origin>, g: GraphId, op: Operation, schema: bool)
    requires Paired(c.res) && Declared(c.d)
    requires ChangeFacts(ClassifiedPlan(c.res, c.d, c.env.artifacts, pending), final, failed, c.d)
    ensures AppliedAt(final, Visited(g, schema), op) <==> Moves(c, pending, g, op, schema) && g !in failed
  {
    FinalAt(ClassifiedPlan(c.res, c.d, c.env.artifacts, pending), final, failed, c.d, Visited(g, schema), g, op);
    PlanMoves(c, pending, g, op, schema);
  }

  /** A run's context together with everything proved about its phases. */
  ghost predicate Concluded(c: Ctx, l1: Ledger, pending: set<GraphId>, plan: seq<Change>, final: seq<Change>, paid: Run, r: Run, l2: Ledger) {
    && l1.resources == c.res && plan == ClassifiedPlan(c.res, c.d, c.env.artifacts, pending)
    && RunFacts(c, pending, paid, r) && ChangeFacts(plan, final, r.failed, c.d)
    && l2 == NewLedger(l1, final, r.removed, c.d, c.env.actor)
  }

  /** Any entry of the new ledger, from the executed change at its address and the removed subtrees. */
  lemma EntryOf(l: Ledger, cs: seq<Change>, removed: seq<(GraphId, Option<ApprovalId>)>, d: Desired, actor: Option<string>, a: Address)
    requires Declared(d) && UniqueResources(cs) && Faithful(cs, d)
    ensures var res, res' := l.resources, NewLedger(l, cs, removed, d, actor).resources;
            && (RemovedHere(removed, a) || AppliedAt(cs, a, Delete) ==> a !in res')
            && (!RemovedHere(removed, a) && (AppliedAt(cs, a, Create) || AppliedAt(cs, a, Update)) ==>
                  a in d.digests && a in res' && (!a.Graph? ==> res'[a] == Published(d, a)))
            && (!RemovedHere(removed, a) && !Touched(cs, a) ==>
                  (a in res' <==> a in res) && (a in res && !a.Graph? ==> res'[a] == res[a]))
  {
    NewLedgerAt(l, cs, removed, d, actor, a);
    MutatedEntry(l, cs, d, a);
  }

  /** The entry at `graph.g` or `schema.g` after the run. */
  lemma EntryAfter(c: Ctx, l1: Ledger, pending: set<GraphId>, final: seq<Change>, r: Run, g: GraphId, schema: bool)
    requires Paired(c.res) && Declared(c.d) && l1.resources == c.res && RemovedFacts(c, pending, r)
    requires ChangeFacts(ClassifiedPlan(c.res, c.d, c.env.artifacts, pending), final, r.failed, c.d)
    ensures var a, res' := Visited(g, schema), NewLedger(l1, final, r.removed, c.d, c.env.actor).resources;
            var moved := (Moves(c, pending, g, Create, schema) || Moves(c, pending, g, Update, schema)) && g !in r.failed;
            var gone := Moves(c, pending, g, Delete, schema) && g !in r.failed;
            && (gone ==> a !in res')
            && (moved && !gone ==> a in c.d.digests && a in res' && (schema ==> res'[a].digest == c.d.digests[a]))
            && (!moved && !gone ==> (a in res' <==> a in c.res) && (schema && a in c.res ==> res'[a] == c.res[a]))
  {
    var a := Visited(g, schema);
    RemovedHereIff(c, pending, r, a, g);
    FinalMoves(c, pending, final, r.failed, g, Create, schema);
    FinalMoves(c, pending, final, r.failed, g, Update, schema);
    FinalMoves(c, pending, final, r.failed, g, Delete, schema);
    EntryOf(l1, final, r.removed, c.d, c.env.actor, a);
  }

  /**
   The ledger apply writes records, for every graph, the digest at which its operation finished, and keeps the swept
   entry of every graph whose operation failed, was skipped, or was not planned.
   */
  lemma LedgerTellsTruth(c: Ctx, l1: Ledger, pending: set<GraphId>, plan: seq<Change>, final: seq<Change>, paid: Run, r: Run, l2: Ledger, g: GraphId)
    requires Concluded(c, l1, pending, plan, final, paid, r, l2)
    ensures Recorded(l2.resources, g) ==
            if c.env.op(g) in r.completed then DigestOf(Target(c.d, g)) else Recorded(c.res, g)
    ensures Graph(g) in l2.resources <==> Schema(g) in l2.resources
  {
    assert c.env.op(g) in r.completed <==> Moving(c.res, c.d, c.env.artifacts, pending, g) && g !in r.failed;
    EntriesTellTruth(c, l1, pending, final, r, g, c.env.op(g) in r.completed);
  }

  lemma EntriesTellTruth(c: Ctx, l1: Ledger, pending: set<GraphId>, final: seq<Change>, r: Run, g: GraphId, done: bool)
    requires Paired(c.res) && Declared(c.d) && l1.resources == c.res && RemovedFacts(c, pending, r)
    requires ChangeFacts(ClassifiedPlan(c.res, c.d, c.env.artifacts, pending), final, r.failed, c.d)
    requires done <==> Moving(c.res, c.d, c.env.artifacts, pending, g) && g !in r.failed
    ensures var res' := NewLedger(l1, final, r.removed, c.d, c.env.actor).resources;
            && Recorded(res', g) == (if done then DigestOf(Target(c.d, g)) else Recorded(c.res, g))
            && (Graph(g) in res' <==> Schema(g) in res')
  {
    EntryAfter(c, l1, pending, final, r, g, true);
    EntryAfter(c, l1, pending, final, r, g, false);
    DisjointMoves(c.res, c.d, c.env.artifacts, pending);
  }

  function DigestOf(root: Root): Option<Digest> {
    if root.Open? then Some(root.schema) else None
  }

  lemma MutatedEntry(l: Ledger, cs: seq<Change>, d: Desired, a: Address)
    requires UniqueResources(cs) && Faithful(cs, d)
    ensures var res, res' := l.resources, Mutate(l, cs, d).resources;
            && (AppliedAt(cs, a, Delete) ==> a !in res')
            && (AppliedAt(cs, a, Create) || AppliedAt(cs, a, Update) ==> a in d.digests && a in res' && res'[a] == Published(d, a))
            && (!Touched(cs, a) ==> (a in res' <==> a in res) && (a in res ==> res'[a] == res[a]))
  {
    if AppliedAt(cs, a, Create) { MutateHere(l, cs, d, a, Create); }
    if AppliedAt(cs, a, Update) { MutateHere(l, cs, d, a, Update); }
    if AppliedAt(cs, a, Delete) { MutateHere(l, cs, d, a, Delete); }
    if !Touched(cs, a) { MutateElsewhere(l, cs, d, a); }
  }

  /** Once the new ledger is on storage, the sidecars that outlive the run cover every graph it does not settle, unless lost. */
  lemma CommitCovers(c: Ctx, l1: Ledger, pending: set<GraphId>, plan: seq<Change>, final: seq<Change>, paid: Run, r: Run, l2: Ledger)
    requires Concluded(c, l1, pending, plan, final, paid, r, l2)
    ensures Paired(l2.resources) && forall g :: g !in c.lost ==> Covered(l2.resources, r.world.live, Kept(c, r), g)
  {
    forall g
      ensures Graph(g) in l2.resources <==> Schema(g) in l2.resources
      ensures g !in c.lost ==> Covered(l2.resources, r.world.live, Kept(c, r), g)
    {
      LedgerTellsTruth(c, l1, pending, plan, final, paid, r, l2, g);
      assert Tracked(c, r, g);
      if c.env.op(g) !in r.completed && g !in c.lost {
        CoveredFrame(c.res, r.world.live, Kept(c, r), l2.resources, r.world.live, Kept(c, r), g);
      }
    }
  }

  lemma NewLedgerKinded(l: Ledger, cs: seq<Change>, removed: seq<(GraphId, Option<ApprovalId>)>, d: Desired, actor: Option<string>)
    requires Declared(d) && WellKinded(l.resources) && UniqueResources(cs) && Faithful(cs, d)
    ensures WellKinded(NewLedger(l, cs, removed, d, actor).resources)
  {
    var res' := NewLedger(l, cs, removed, d, actor).resources;
    forall g: GraphId | Graph(g) in res' && res'[Graph(g)].provider.Some? ensures res'[Graph(g)].provider.value.EmbeddingProvider? {
      NewGraphProvider(l, cs, removed, d, actor, g);
    }
  }

  lemma RecomputedProvider(res: Resources, graphs: seq<DesiredGraph>, cs: seq<Change>, g: GraphId)
    requires ProvidersOnly(graphs) && DistinctIds(graphs)
    requires Graph(g) in Recompute(res, graphs, cs)
    ensures Graph(g) in res
    ensures var entry, dg := Recompute(res, graphs, cs)[Graph(g)], FindGraph(graphs, g);
            if dg.Some? then entry.provider == dg.value.provider else entry == res[Graph(g)]
  {
    RecomputeAt(res, graphs, cs);
    var dg := FindGraph(graphs, g);
    if dg.Some? {
      var i :| 0 <= i < |graphs| && graphs[i] == dg.value;
    } else {
      assert forall i :: 0 <= i < |graphs| ==> graphs[i] in graphs;
    }
  }

  /** A declared graph is rebuilt with its declared provider; any other keeps the entry it had. */
  lemma NewGraphProvider(l: Ledger, cs: seq<Change>, removed: seq<(GraphId, Option<ApprovalId>)>, d: Desired, actor: Option<string>, g: GraphId)
    requires Declared(d) && UniqueResources(cs) && Faithful(cs, d)
    requires Graph(g) in NewLedger(l, cs, removed, d, actor).resources
    ensures var entry := NewLedger(l, cs, removed, d, actor).resources[Graph(g)];
            var dg := FindGraph(d.graphs, g);
            if dg.Some? then entry.provider == dg.value.provider
            else Graph(g) in l.resources && entry == l.resources[Graph(g)]
  {
    var res := TombstoneAll(Mutate(l, cs, d), removed, actor).resources;
    RecomputedProvider(res, d.graphs, cs, g);
    if FindGraph(d.graphs, g).None? { UndeclaredUntouched(l, cs, removed, d, actor, g); }
  }

  lemma UndeclaredUntouched(l: Ledger, cs: seq<Change>, removed: seq<(GraphId, Option<ApprovalId>)>, d: Desired, actor: Option<string>, g: GraphId)
    requires UniqueResources(cs) && Faithful(cs, d) && Graph(g) !in d.digests
    requires Graph(g) in TombstoneAll(Mutate(l, cs, d), removed, actor).resources
    ensures Graph(g) in l.resources && TombstoneAll(Mutate(l, cs, d), removed, actor).resources[Graph(g)] == l.resources[Graph(g)]
  {
    TombstoneAllAt(Mutate(l, cs, d), removed, actor, Graph(g));
    MutatedEntry(l, cs, d, Graph(g));
  }
}
