/** Pointwise reading of the ledger apply writes: what each address holds after mutation, tombstones and recomputation. */
module ApplyLedger {
  import opened Addresses
  import opened Digests
  import opened Ledgers
  import opened Plan
  import opened Classify
  import opened Apply
  import opened ApplySafety
  import Coverage

  // ---- dispositions at an address ----

  ghost predicate AppliedAt(cs: seq<Change>, a: Address, op: Operation) {
    exists i :: 0 <= i < |cs| && cs[i].resource == a && cs[i].operation == op && cs[i].disposition == Some(Applied)
  }

  ghost predicate NoDup(ids: seq<GraphId>) {
    forall i, j :: 0 <= i < j < |ids| ==> ids[i] != ids[j]
  }

  function Visited(g: GraphId, schema: bool): Address {
    if schema then Schema(g) else Graph(g)
  }

  lemma {:induction false} ToRunFacts(cs: seq<Change>, op: Operation, schema: bool)
    requires UniqueResources(cs)
    ensures NoDup(ToRun(cs, op, schema))
    ensures forall g :: g in ToRun(cs, op, schema) <==> AppliedAt(cs, Visited(g, schema), op)
    decreases |cs|
  {
    if cs != [] {
      var rest := cs[1..];
      assert forall i :: 0 <= i < |rest| ==> rest[i] == cs[i + 1];
      ToRunFacts(rest, op, schema);
      forall g ensures g in ToRun(cs, op, schema) <==> AppliedAt(cs, Visited(g, schema), op) {
        if AppliedAt(cs, Visited(g, schema), op) {
          var i :| 0 <= i < |cs| && cs[i].resource == Visited(g, schema) && cs[i].operation == op && cs[i].disposition == Some(Applied);
          if i > 0 { assert rest[i - 1] == cs[i]; }
        }
      }
      if Visits(cs[0], op, schema) {
        var g := cs[0].resource.graph;
        assert cs[0].resource == Visited(g, schema);
        assert !AppliedAt(rest, Visited(g, schema), op);
      }
    }
  }

  lemma DemotedUnique(cs: seq<Change>, failed: map<GraphId, Origin>, deps: set<Dependency>)
    requires UniqueResources(cs)
    ensures UniqueResources(Demoted(cs, failed, deps))
  {
  }

  /** Demotion takes exactly the failed graphs' subtrees out of the executable changes. */
  lemma DemotedAt(cs: seq<Change>, failed: map<GraphId, Origin>, deps: set<Dependency>, a: Address, g: GraphId, op: Operation)
    requires InSubtree(a, g)
    ensures AppliedAt(Demoted(cs, failed, deps), a, op) <==> AppliedAt(cs, a, op) && g !in failed
  {
    var cs' := Demoted(cs, failed, deps);
    if AppliedAt(cs', a, op) {
      var i :| 0 <= i < |cs'| && cs'[i].resource == a && cs'[i].operation == op && cs'[i].disposition == Some(Applied);
      assert cs'[i] == DemoteOne(cs[i], failed, deps);
    }
    if AppliedAt(cs, a, op) && g !in failed {
      var i :| 0 <= i < |cs| && cs[i].resource == a && cs[i].operation == op && cs[i].disposition == Some(Applied);
      assert cs'[i] == cs[i];
    }
  }

  /** Dispositions of the classified plan, read off the ledger and the configuration. */
  lemma PlanApplied(res: Resources, d: Desired, arts: Artifacts, pending: set<GraphId>, a: Address, op: Operation)
    ensures var cs := PlanOf(res, d);
            var gate := GateOf(cs, d.dependencies, pending, ApprovedResources(arts, cs, d.configDigest));
            AppliedAt(ClassifiedPlan(res, d, arts, pending), a, op) <==>
            && PlanAt(res, d, a).Some? && PlanAt(res, d, a).value.operation == op
            && Judge(gate, PlanAt(res, d, a).value).disposition == Applied
  {
    var cs := PlanOf(res, d);
    var gate := GateOf(cs, d.dependencies, pending, ApprovedResources(arts, cs, d.configDigest));
    var plan := ClassifiedPlan(res, d, arts, pending);
    PlannedAt(res, d, a);
    if AppliedAt(plan, a, op) {
      var i :| 0 <= i < |plan| && plan[i].resource == a && plan[i].operation == op && plan[i].disposition == Some(Applied);
      assert plan[i] == Stamp(cs[i], Judge(gate, cs[i]));
    }
    if PlanAt(res, d, a).Some? {
      var i :| 0 <= i < |cs| && cs[i].resource == a && cs[i] == PlanAt(res, d, a).value;
      assert plan[i] == Stamp(cs[i], Judge(gate, cs[i]));
    }
  }

  ghost predicate Creating(res: Resources, d: Desired, pending: set<GraphId>, g: GraphId) {
    Graph(g) !in res && Graph(g) in d.digests && g !in pending
  }

  ghost predicate Migrating(res: Resources, d: Desired, pending: set<GraphId>, g: GraphId) {
    Schema(g) in res && Schema(g) in d.digests && res[Schema(g)].digest != d.digests[Schema(g)] && g !in pending
  }

  ghost predicate Deleting(res: Resources, d: Desired, arts: Artifacts, pending: set<GraphId>, g: GraphId) {
    Graph(g) in res && Graph(g) !in d.digests && DeleteApproved(res, d, arts, g) && g !in pending
  }

  lemma GraphAddressDispositions(res: Resources, d: Desired, arts: Artifacts, pending: set<GraphId>, g: GraphId, op: Operation)
    requires Declared(d)
    ensures var plan := ClassifiedPlan(res, d, arts, pending);
            AppliedAt(plan, Graph(g), op) <==>
            match op
            case Create => Creating(res, d, pending, g)
            case Update => false
            case Delete => Deleting(res, d, arts, pending, g)
  {
    PlanApplied(res, d, arts, pending, Graph(g), op);
    PlanAtPlain(res, d, Graph(g));
    PlanSets(res, d, g);
    if Graph(g) in res && Graph(g) !in d.digests { ApprovalExact(res, d, arts, g); }
  }

  lemma SchemaAddressDispositions(res: Resources, d: Desired, arts: Artifacts, pending: set<GraphId>, g: GraphId, op: Operation)
    requires Paired(res) && Declared(d)
    ensures var plan := ClassifiedPlan(res, d, arts, pending);
            AppliedAt(plan, Schema(g), op) <==>
            match op
            case Create => Creating(res, d, pending, g)
            case Update => Migrating(res, d, pending, g)
            case Delete => Deleting(res, d, arts, pending, g)
  {
    PlanApplied(res, d, arts, pending, Schema(g), op);
    PlanAtPlain(res, d, Schema(g));
    PlanSets(res, d, g);
    if Graph(g) in res && Graph(g) !in d.digests { ApprovalExact(res, d, arts, g); }
  }

  /** Which graph and schema changes are executable. Pairing makes a schema move exactly with its graph. */
  lemma GraphDispositions(res: Resources, d: Desired, arts: Artifacts, pending: set<GraphId>, g: GraphId)
    requires Paired(res) && Declared(d)
    ensures var plan := ClassifiedPlan(res, d, arts, pending);
            && (AppliedAt(plan, Graph(g), Create) <==> Creating(res, d, pending, g))
            && (AppliedAt(plan, Schema(g), Create) <==> Creating(res, d, pending, g))
            && (AppliedAt(plan, Schema(g), Update) <==> Migrating(res, d, pending, g))
            && (AppliedAt(plan, Graph(g), Delete) <==> Deleting(res, d, arts, pending, g))
            && (AppliedAt(plan, Schema(g), Delete) <==> Deleting(res, d, arts, pending, g))
            && !AppliedAt(plan, Graph(g), Update)
  {
    GraphAddressDispositions(res, d, arts, pending, g, Create);
    GraphAddressDispositions(res, d, arts, pending, g, Update);
    GraphAddressDispositions(res, d, arts, pending, g, Delete);
    SchemaAddressDispositions(res, d, arts, pending, g, Create);
    SchemaAddressDispositions(res, d, arts, pending, g, Update);
    SchemaAddressDispositions(res, d, arts, pending, g, Delete);
  }

  // ---- mutation ----

  /** What apply records for an executed create or update. */
  function Published(d: Desired, a: Address): Resource
    requires a in d.digests
  {
    Resource(d.digests[a], Lookup(d.bindings, a), None, Lookup(d.profiles, a), None)
  }

  /** Creates and updates carry the desired digest. */
  ghost predicate Faithful(cs: seq<Change>, d: Desired) {
    forall i :: 0 <= i < |cs| && cs[i].operation != Delete ==> cs[i].resource in d.digests && cs[i].after == Some(d.digests[cs[i].resource])
  }

  lemma PlanFaithful(res: Resources, d: Desired)
    requires MetadataDeclared(d)
    ensures Faithful(PlanOf(res, d), d)
  {
    var cs := PlanOf(res, d);
    PlanFacts(res, d);
    forall i | 0 <= i < |cs| && cs[i].operation != Delete
      ensures cs[i].resource in d.digests && cs[i].after == Some(d.digests[cs[i].resource])
    {
      assert cs[i] in cs;
      AfterIsDesired(res, d, cs[i].resource);
    }
  }

  lemma AppliedAtCons(cs: seq<Change>, a: Address, op: Operation)
    requires cs != []
    ensures AppliedAt(cs, a, op) <==>
            AppliedAt(cs[1..], a, op) || (cs[0].resource == a && cs[0].operation == op && cs[0].disposition == Some(Applied))
  {
    assert forall i :: 0 < i < |cs| ==> cs[i] == cs[1..][i - 1];
    if AppliedAt(cs[1..], a, op) {
      var i :| 0 <= i < |cs| - 1 && cs[1..][i].resource == a && cs[1..][i].operation == op && cs[1..][i].disposition == Some(Applied);
      assert cs[i + 1] == cs[1..][i];
    }
  }

  ghost predicate Touched(cs: seq<Change>, a: Address) {
    AppliedAt(cs, a, Create) || AppliedAt(cs, a, Update) || AppliedAt(cs, a, Delete)
  }

  lemma TouchedCons(cs: seq<Change>, a: Address)
    requires cs != [] && UniqueResources(cs)
    ensures Touched(cs, a) <==> Touched(cs[1..], a) || (cs[0].resource == a && cs[0].disposition == Some(Applied))
    ensures cs[0].resource == a ==> !Touched(cs[1..], a)
  {
    AppliedAtCons(cs, a, Create);
    AppliedAtCons(cs, a, Update);
    AppliedAtCons(cs, a, Delete);
    assert forall i :: 0 < i < |cs| ==> cs[i] == cs[1..][i - 1];
  }

  lemma {:induction false} MutateElsewhere(l: Ledger, cs: seq<Change>, d: Desired, a: Address)
    requires UniqueResources(cs) && !Touched(cs, a)
    ensures var res, res' := l.resources, Mutate(l, cs, d).resources;
            (a in res' <==> a in res) && (a in res ==> res'[a] == res[a])
    decreases |cs|
  {
    if cs != [] {
      TouchedCons(cs, a);
      MutateElsewhere(MutateOne(l, cs[0], d), cs[1..], d, a);
    }
  }

  /** An executed change decides its address alone: published as desired, or gone. */
  lemma {:induction false} MutateHere(l: Ledger, cs: seq<Change>, d: Desired, a: Address, op: Operation)
    requires UniqueResources(cs) && Faithful(cs, d) && AppliedAt(cs, a, op)
    ensures var res' := Mutate(l, cs, d).resources;
            if op == Delete then a !in res' else a in d.digests && a in res' && res'[a] == Published(d, a)
    decreases |cs|
  {
    var l1 := MutateOne(l, cs[0], d);
    TouchedCons(cs, a);
    AppliedAtCons(cs, a, op);
    assert forall i :: 0 < i < |cs| ==> cs[i] == cs[1..][i - 1];
    if cs[0].resource == a {
      MutateElsewhere(l1, cs[1..], d, a);
    } else {
      MutateHere(l1, cs[1..], d, a, op);
    }
  }

  // ---- tombstones ----

  ghost predicate RemovedHere(removed: seq<(GraphId, Option<ApprovalId>)>, a: Address) {
    exists i :: 0 <= i < |removed| && InSubtree(a, removed[i].0)
  }

  lemma {:induction false} TombstoneAllAt(l: Ledger, removed: seq<(GraphId, Option<ApprovalId>)>, actor: Option<string>, a: Address)
    ensures var res, res' := l.resources, TombstoneAll(l, removed, actor).resources;
            if RemovedHere(removed, a) then a !in res' else (a in res' <==> a in res) && (a in res ==> res'[a] == res[a])
    decreases |removed|
  {
    if removed != [] {
      var rest := removed[1..];
      assert forall i :: 0 <= i < |rest| ==> rest[i] == removed[i + 1];
      Coverage.PrunedFacts(l.resources, removed[0].0);
      TombstoneAllAt(TombstoneOne(l, removed[0], actor), rest, actor, a);
      if RemovedHere(removed, a) {
        var i :| 0 <= i < |removed| && InSubtree(a, removed[i].0);
        if i > 0 { assert rest[i - 1] == removed[i]; }
      }
    }
  }

  // ---- recomputation ----

  function PolicyFor(res: Resources, dg: DesiredGraph, cs: seq<Change>): BlobPolicy {
    if GraphBlocked(cs, dg.id) then GraphPolicy(res, dg.id) else dg.policy
  }

  ghost predicate ProvidersOnly(graphs: seq<DesiredGraph>) {
    forall i :: 0 <= i < |graphs| && graphs[i].provider.Some? ==> graphs[i].provider.value.EmbeddingProvider?
  }

  ghost predicate DistinctIds(graphs: seq<DesiredGraph>) {
    forall i, j :: 0 <= i < j < |graphs| ==> graphs[i].id != graphs[j].id
  }

  lemma RecomputeOneElsewhere(res: Resources, dg: DesiredGraph, cs: seq<Change>)
    ensures var res' := RecomputeOne(res, dg, cs);
            && res'.Keys == res.Keys
            && forall a :: a in res && a != Graph(dg.id) ==> res'[a] == res[a]
  {
  }

  /** Rebuilding one graph's entry leaves every other graph's rebuilt entry the same. */
  lemma RecomposedFrame(res: Resources, res': Resources, g: GraphId, provider: Option<Address>, policy: BlobPolicy)
    requires res'.Keys == res.Keys && forall a :: a in res && !a.Graph? ==> res'[a] == res[a]
    requires provider.Some? ==> provider.value.EmbeddingProvider?
    ensures Recomposed(res', g, provider, policy) == Recomposed(res, g, provider, policy)
  {
    assert QueryDigests(res', g) == QueryDigests(res, g);
  }

  lemma {:induction false} RecomputeAt(res: Resources, graphs: seq<DesiredGraph>, cs: seq<Change>)
    requires ProvidersOnly(graphs) && DistinctIds(graphs)
    ensures var res' := Recompute(res, graphs, cs);
            && res'.Keys == res.Keys
            && (forall a :: a in res && (forall i :: 0 <= i < |graphs| ==> a != Graph(graphs[i].id)) ==> res'[a] == res[a])
            && (forall i :: 0 <= i < |graphs| && Graph(graphs[i].id) in res ==>
                  res'[Graph(graphs[i].id)] == Recomposed(res, graphs[i].id, graphs[i].provider, PolicyFor(res, graphs[i], cs)))
    decreases |graphs|
  {
    if graphs != [] {
      var dg, rest, res1 := graphs[0], graphs[1..], RecomputeOne(res, graphs[0], cs);
      assert forall i :: 0 <= i < |rest| ==> rest[i] == graphs[i + 1];
      RecomputeOneElsewhere(res, dg, cs);
      RecomputeAt(res1, rest, cs);
      forall i | 0 <= i < |graphs| && Graph(graphs[i].id) in res
        ensures Recompute(res, graphs, cs)[Graph(graphs[i].id)] == Recomposed(res, graphs[i].id, graphs[i].provider, PolicyFor(res, graphs[i], cs))
      {
        if i > 0 {
          assert rest[i - 1] == graphs[i];
          RecomposedFrame(res, res1, graphs[i].id, graphs[i].provider, PolicyFor(res, graphs[i], cs));
        }
      }
    }
  }
}
