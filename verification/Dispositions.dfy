/** What classification and demotion answer for every change, read off the plan, the dependencies and what is pending or failed. */
module Dispositions {
  import opened Addresses
  import opened Digests
  import opened Ledgers
  import opened Plan
  import opened Classify

  ghost predicate Decided(c: Change, disposition: Disposition, reason: Option<Reason>) {
    c.disposition == Some(disposition) && c.reason == reason
  }

  /** The schema of `g` goes, or comes without its graph: a query of `g` would have nothing to run against. */
  ghost predicate Schemaless(cs: seq<Change>, g: GraphId) {
    Planned(cs, Schema(g), Delete) || (Planned(cs, Schema(g), Create) && !Planned(cs, Graph(g), Create))
  }

  /** Some dependency of `a` names a graph in `graphs`. */
  ghost predicate WaitsFor(dependencies: set<Dependency>, a: Address, graphs: set<GraphId>) {
    exists g :: g in graphs && Dependency(a, Graph(g)) in dependencies
  }

  lemma WaitsForIff(dependencies: set<Dependency>, a: Address, graphs: set<GraphId>)
    ensures DependsOn(dependencies, a, graphs) <==> WaitsFor(dependencies, a, graphs)
  {
    if DependsOn(dependencies, a, graphs) {
      var dep :| dep in dependencies && dep.from == a && dep.to.Graph? && dep.to.graph in graphs;
      assert dep == Dependency(a, Graph(dep.to.graph));
    }
    if WaitsFor(dependencies, a, graphs) {
      var g :| g in graphs && Dependency(a, Graph(g)) in dependencies;
      assert Dependency(a, Graph(g)).to.graph in graphs;
    }
  }

  lemma GateIff(res: Resources, d: Desired, arts: Artifacts, pending: set<GraphId>, g: GraphId)
    ensures var cs := PlanOf(res, d);
            var gate := GateOf(cs, d.dependencies, pending, ApprovedResources(arts, cs, d.configDigest));
            && (g in gate.graphCreates <==> Planned(cs, Graph(g), Create))
            && (g in gate.graphDeletes <==> Planned(cs, Graph(g), Delete))
            && (g in gate.schemaPending <==> Schemaless(cs, g))
            && (RidesApprovedDelete(gate, g) <==> Planned(cs, Graph(g), Delete) && DeleteApproved(res, d, arts, g) && g !in pending)
  {
    var cs := PlanOf(res, d);
    GraphsWithIff(cs, Create, g);
    GraphsWithIff(cs, Delete, g);
    PlannedIff(res, d, Graph(g));
    if Planned(cs, Graph(g), Delete) { ApprovalExact(res, d, arts, g); }
  }

  // ---- classification ----

  /** A change of the plan, as classification leaves it, differs from the planned one in its verdict only. */
  lemma ClassifiedIsPlanned(res: Resources, d: Desired, arts: Artifacts, pending: set<GraphId>, i: nat)
    requires i < |ClassifiedPlan(res, d, arts, pending)|
    ensures i < |PlanOf(res, d)|
    ensures var cs, c := PlanOf(res, d), ClassifiedPlan(res, d, arts, pending)[i];
            c == cs[i].(disposition := c.disposition, reason := c.reason)
  {
  }

  /**
   A query is created or updated exactly if no recovery of its graph is pending and its schema is neither going nor
   coming without its graph; its delete waits only for the approval of its graph's own delete.
   */
  lemma QueryDispositions(res: Resources, d: Desired, arts: Artifacts, pending: set<GraphId>, i: nat, g: GraphId, n: string)
    requires i < |ClassifiedPlan(res, d, arts, pending)| && ClassifiedPlan(res, d, arts, pending)[i].resource == Query(g, n)
    ensures var cs, c := PlanOf(res, d), ClassifiedPlan(res, d, arts, pending)[i];
            if c.operation == Delete then
              if Planned(cs, Graph(g), Delete) && (g in pending || !DeleteApproved(res, d, arts, g)) then Decided(c, Blocked, Some(ApprovalRequired))
              else Decided(c, Applied, None)
            else if g in pending then Decided(c, Blocked, Some(RecoveryPending))
            else if Schemaless(cs, g) then Decided(c, Blocked, Some(DependencyNotApplied))
            else Decided(c, Applied, None)
  {
    GateIff(res, d, arts, pending, g);
  }

  /** A policy is created or updated exactly if none of its dependencies names a graph with a pending recovery. */
  lemma PolicyDispositions(res: Resources, d: Desired, arts: Artifacts, pending: set<GraphId>, i: nat, n: string)
    requires i < |ClassifiedPlan(res, d, arts, pending)| && ClassifiedPlan(res, d, arts, pending)[i].resource == Policy(n)
    ensures var c := ClassifiedPlan(res, d, arts, pending)[i];
            if c.operation != Delete && WaitsFor(d.dependencies, Policy(n), pending) then Decided(c, Blocked, Some(RecoveryPending))
            else Decided(c, Applied, None)
  {
    WaitsForIff(d.dependencies, Policy(n), pending);
  }

  /** A graph create waits for recovery, a graph delete for recovery and approval; a graph update is never executed itself. */
  lemma GraphVerdicts(res: Resources, d: Desired, arts: Artifacts, pending: set<GraphId>, i: nat, g: GraphId)
    requires i < |ClassifiedPlan(res, d, arts, pending)| && ClassifiedPlan(res, d, arts, pending)[i].resource == Graph(g)
    ensures var cs, c := PlanOf(res, d), ClassifiedPlan(res, d, arts, pending)[i];
            match c.operation
            case Update => if Schemaless(cs, g) then Decided(c, Deferred, Some(UnsupportedKind)) else Decided(c, Derived, None)
            case _ =>
              if g in pending then Decided(c, Blocked, Some(RecoveryPending))
              else if c.operation == Delete && !DeleteApproved(res, d, arts, g) then Decided(c, Blocked, Some(ApprovalRequired))
              else Decided(c, Applied, None)
  {
    var cs := PlanOf(res, d);
    GateIff(res, d, arts, pending, g);
    ClassifiedIsPlanned(res, d, arts, pending, i);
    if cs[i].operation == Delete { assert Planned(cs, Graph(g), Delete); }
  }

  /** A schema is created with its graph only, updated unless recovery is pending, and deleted only with its graph. */
  lemma SchemaVerdicts(res: Resources, d: Desired, arts: Artifacts, pending: set<GraphId>, i: nat, g: GraphId)
    requires i < |ClassifiedPlan(res, d, arts, pending)| && ClassifiedPlan(res, d, arts, pending)[i].resource == Schema(g)
    ensures var cs, c := PlanOf(res, d), ClassifiedPlan(res, d, arts, pending)[i];
            if c.operation == Delete && !Planned(cs, Graph(g), Delete) then Decided(c, Deferred, Some(UnsupportedKind))
            else if g in pending || (c.operation == Create && !Planned(cs, Graph(g), Create)) then Decided(c, Blocked, Some(RecoveryPending))
            else if c.operation == Delete && !DeleteApproved(res, d, arts, g) then Decided(c, Blocked, Some(ApprovalRequired))
            else Decided(c, Applied, None)
  {
    GateIff(res, d, arts, pending, g);
  }

  lemma OtherJudged(cs: seq<Change>, gate: Gate, i: nat)
    requires i < |cs| && (cs[i].resource.EmbeddingProvider? || cs[i].resource.Unknown?)
    ensures var c := Classified(cs, gate)[i];
            if c.resource.EmbeddingProvider? then Decided(c, Applied, None) else Decided(c, Deferred, Some(UnsupportedKind))
  {
  }

  /** Embedding providers are always executed, addresses of no known kind never. */
  lemma OtherVerdicts(res: Resources, d: Desired, arts: Artifacts, pending: set<GraphId>, i: nat, a: Address)
    requires i < |ClassifiedPlan(res, d, arts, pending)| && ClassifiedPlan(res, d, arts, pending)[i].resource == a
    requires a.EmbeddingProvider? || a.Unknown?
    ensures var c := ClassifiedPlan(res, d, arts, pending)[i];
            if a.EmbeddingProvider? then Decided(c, Applied, None) else Decided(c, Deferred, Some(UnsupportedKind))
  {
    var cs := PlanOf(res, d);
    OtherJudged(cs, GateOf(cs, d.dependencies, pending, ApprovedResources(arts, cs, d.configDigest)), i);
  }

  /** Against a paired ledger and configuration, the one thing a query of a declared graph ever waits for is recovery. */
  lemma QueriesWaitForRecoveryOnly(res: Resources, d: Desired, arts: Artifacts, pending: set<GraphId>, i: nat, g: GraphId, n: string)
    requires i < |ClassifiedPlan(res, d, arts, pending)| && ClassifiedPlan(res, d, arts, pending)[i].resource == Query(g, n)
    requires ClassifiedPlan(res, d, arts, pending)[i].operation != Delete
    requires Paired(res) && Graph(g) in d.digests && Schema(g) in d.digests
    ensures ClassifiedPlan(res, d, arts, pending)[i].disposition == Some(Applied) <==> g !in pending
  {
    QueryDispositions(res, d, arts, pending, i, g, n);
    PlannedIff(res, d, Graph(g));
    PlannedIff(res, d, Schema(g));
  }

  // ---- demotion ----

  /** The change belongs to a graph that failed, or is of a policy that waits for one. */
  ghost predicate HitBy(a: Address, failed: set<GraphId>, dependencies: set<Dependency>) {
    (exists g :: g in failed && InSubtree(a, g)) || (a.Policy? && WaitsFor(dependencies, a, failed))
  }

  /** Why: the graph's own failure where the change is the operation that failed, a missing dependency anywhere else. */
  ghost function Blame(a: Address, failed: map<GraphId, Origin>): Reason {
    if a.Graph? && a.graph in failed && failed[a.graph] == CreateFailed then GraphCreateFailed
    else if a.Graph? && a.graph in failed && failed[a.graph] == DeleteFailed then GraphDeleteFailed
    else if a.Schema? && a.graph in failed && failed[a.graph] == SchemaFailed then SchemaApplyFailed
    else DependencyNotApplied
  }

  lemma HitByOwn(a: Address, failed: set<GraphId>, dependencies: set<Dependency>)
    ensures HitBy(a, failed, dependencies) <==>
            match a
            case Graph(g) => g in failed
            case Schema(g) => g in failed
            case Query(g, _) => g in failed
            case Policy(_) => WaitsFor(dependencies, a, failed)
            case _ => false
  {
    forall g | g in failed && InSubtree(a, g) ensures (a.Graph? || a.Schema? || a.Query?) && a.graph == g { }
    if (a.Graph? || a.Schema? || a.Query?) && a.graph in failed { assert InSubtree(a, a.graph); }
  }

  /** Demotion blocks exactly the executable changes hit by a failure, each with its reason, and leaves the rest as it is. */
  lemma DemotionExact(cs: seq<Change>, failed: map<GraphId, Origin>, dependencies: set<Dependency>, i: nat)
    requires i < |cs|
    ensures var c, c' := cs[i], Demoted(cs, failed, dependencies)[i];
            if c.disposition == Some(Applied) && HitBy(c.resource, failed.Keys, dependencies)
            then c' == c.(disposition := Some(Blocked), reason := Some(Blame(c.resource, failed)))
            else c' == c
  {
    WaitsForIff(dependencies, cs[i].resource, failed.Keys);
    HitByOwn(cs[i].resource, failed.Keys, dependencies);
  }

  /** Two demotions, the second with more failures, block what the failures of either hit. */
  lemma DemotedTwice(cs: seq<Change>, early: map<GraphId, Origin>, late: map<GraphId, Origin>, dependencies: set<Dependency>, i: nat)
    requires i < |cs| && forall g :: g in early ==> g in late && late[g] == early[g]
    ensures var c, c' := cs[i], Demoted(Demoted(cs, early, dependencies), late, dependencies)[i];
            if c.disposition == Some(Applied) && HitBy(c.resource, late.Keys, dependencies)
            then c' == c.(disposition := Some(Blocked), reason := Some(Blame(c.resource, late)))
            else c' == c
  {
    DemotionExact(cs, early, dependencies, i);
    DemotionExact(Demoted(cs, early, dependencies), late, dependencies, i);
    if HitBy(cs[i].resource, early.Keys, dependencies) {
      HitByMore(cs[i].resource, early.Keys, late.Keys, dependencies);
      HitByOwn(cs[i].resource, early.Keys, dependencies);
    }
  }

  lemma HitByMore(a: Address, early: set<GraphId>, late: set<GraphId>, dependencies: set<Dependency>)
    requires early <= late && HitBy(a, early, dependencies)
    ensures HitBy(a, late, dependencies)
  {
    if g :| g in early && InSubtree(a, g) {
      assert g in late;
    } else {
      var g :| g in early && Dependency(a, Graph(g)) in dependencies;
      assert g in late;
    }
  }
}
