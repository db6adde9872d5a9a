/** The mutable ledger a command holds in memory, and the sweep of `sweep.rs` as it updates it sidecar by sidecar. */
module ClusterStates {
  import opened Addresses
  import opened Digests
  import opened Ledgers
  import opened Sweep

  /** `retain` of everything that does not start with `query.<g>.`. */
  function WithoutQueries<V>(m: map<Address, V>, g: GraphId): map<Address, V> {
    map a | a in m && !(a.Query? && a.graph == g) :: m[a]
  }

  lemma RetainPrunes<V>(m: map<Address, V>, g: GraphId)
    ensures WithoutQueries(m - {Graph(g), Schema(g)}, g) == map a | a in m && !InSubtree(a, g) :: m[a]
  {
  }

  class ClusterState {
    var revision: nat
    var configDigest: Option<Digest>
    var resources: Resources
    var statuses: map<Address, Status>
    var approvalRecords: map<ApprovalId, string>
    var recoveryRecords: map<OpId, Recovery>
    var observations: map<Address, Observation>

    /** The ledger this object stands for. */
    function Value(): Ledger
      reads this
    {
      Ledger(revision, configDigest, resources, statuses, approvalRecords, recoveryRecords, observations)
    }

    constructor (l: Ledger)
      ensures Value() == l
    {
      revision, configDigest, resources, statuses := l.revision, l.configDigest, l.resources, l.statuses;
      approvalRecords, recoveryRecords, observations := l.approvalRecords, l.recoveryRecords, l.observations;
    }

    /** `set_resource_status` on a graph and its schema. */
    method SetGraphStatus(g: GraphId, s: Status)
      modifies this`statuses
      ensures Value() == MarkGraph(old(Value()), g, s)
    {
      statuses := statuses[Graph(g) := s];
      statuses := statuses[Schema(g) := s];
    }

    /** The schema entry first, then the composite over what the ledger now holds; both entries replaced whole. */
    method RecordLiveSchema(g: GraphId, live: Digest)
      modifies this`resources
      ensures Value() == old(Value()).(resources := RecordLive(old(resources), g, live))
    {
      resources := resources[Schema(g) := Plain(live)];
      var queries := QueryDigests(resources, g);
      var provider := GraphProvider(resources, g);
      var providerDigest := ProviderDigest(resources, provider);
      var policy := GraphPolicy(resources, g);
      var composite := GraphDigest(g, Some(live), queries, provider, providerDigest, policy);
      resources := resources[Graph(g) := Resource(composite, None, provider, None, PersistedPolicy(policy))];
    }

    /** `tombstone_graph_subtree`: two removals and a retain on each map, then the tombstone observation. */
    method TombstoneGraphSubtree(g: GraphId, approval: Option<ApprovalId>, actor: Option<string>)
      modifies this`resources, this`statuses, this`observations
      ensures Value() == TombstoneSubtree(old(Value()), g, approval, actor)
    {
      RetainPrunes(resources, g);
      RetainPrunes(statuses, g);
      resources := resources - {Graph(g), Schema(g)};
      resources := WithoutQueries(resources, g);
      statuses := statuses - {Graph(g), Schema(g)};
      statuses := WithoutQueries(statuses, g);
      observations := observations[Graph(g) := Tombstone(approval, actor)];
    }

    /** `record_approval_consumed`. */
    method RecordApprovalConsumed(id: ApprovalId, operation: string)
      modifies this`approvalRecords
      ensures Value() == RecordConsumed(old(Value()), id, operation)
    {
      approvalRecords := approvalRecords[id := operation];
    }
  }

  class SweepResult {
    var pending: set<GraphId>
    var completed: seq<OpId>
    var consumed: seq<ApprovalId>

    function Value(): SweepOutcome
      reads this
    {
      SweepOutcome(pending, completed, consumed)
    }

    constructor ()
      ensures Value() == NoOutcome
    {
      pending, completed, consumed := {}, [], [];
    }
  }

  ghost function Both(state: ClusterState, outcome: SweepResult): Swept
    reads state, outcome
  {
    Swept(state.Value(), outcome.Value())
  }

  /** The part the create and schema-apply classifiers share once the graph opened. */
  method SweepOpenedGraph(state: ClusterState, outcome: SweepResult, p: Probe, live: Digest)
    modifies state, outcome
    ensures Both(state, outcome) == SweepOpened(old(Both(state, outcome)), p, live)
  {
    var g := p.sidecar.graph;
    if Recorded(state.resources, g) == Some(live) {
      outcome.completed := outcome.completed + [p.op];
    } else if live == p.sidecar.desiredSchema {
      state.RecordLiveSchema(g, live);
      state.SetGraphStatus(g, StatusApplied);
      state.recoveryRecords := state.recoveryRecords[p.op := RolledForward(p.sidecar.kind, g, p.sidecar.actor)];
      outcome.completed := outcome.completed + [p.op];
    } else {
      state.SetGraphStatus(g, StatusDrifted(AppliedStatePending));
      outcome.pending := outcome.pending + {g};
    }
  }

  /** `sweep_graph_create_sidecar`. */
  method SweepGraphCreateSidecar(state: ClusterState, outcome: SweepResult, p: Probe)
    modifies state, outcome
    ensures Both(state, outcome) == SweepCreate(old(Both(state, outcome)), p)
  {
    match p.seen {
      case Absent => outcome.completed := outcome.completed + [p.op];
      case Open(live) => SweepOpenedGraph(state, outcome, p, live);
      case Partial =>
        state.SetGraphStatus(p.sidecar.graph, StatusError(GraphCreateIncomplete));
        outcome.pending := outcome.pending + {p.sidecar.graph};
    }
  }

  /** `sweep_schema_apply_sidecar`. */
  method SweepSchemaApplySidecar(state: ClusterState, outcome: SweepResult, p: Probe)
    modifies state, outcome
    ensures Both(state, outcome) == SweepSchema(old(Both(state, outcome)), p)
  {
    match p.seen {
      case Open(live) => SweepOpenedGraph(state, outcome, p, live);
      case _ => outcome.pending := outcome.pending + {p.sidecar.graph};
    }
  }

  /** `sweep_graph_delete_sidecar`. */
  method SweepGraphDeleteSidecar(state: ClusterState, outcome: SweepResult, p: Probe)
    modifies state, outcome
    ensures Both(state, outcome) == SweepDelete(old(Both(state, outcome)), p)
  {
    var s := p.sidecar;
    if !p.seen.Absent? || Graph(s.graph) !in state.resources {
      outcome.completed := outcome.completed + [p.op];
      return;
    }
    state.TombstoneGraphSubtree(s.graph, s.approval, s.actor);
    state.recoveryRecords := state.recoveryRecords[p.op := RolledForward(GraphDelete, s.graph, s.actor)];
    if s.approval.Some? {
      state.RecordApprovalConsumed(s.approval.value, p.op);
      outcome.consumed := outcome.consumed + [s.approval.value];
    }
    outcome.completed := outcome.completed + [p.op];
  }

  /** `sweep_recovery_sidecars`: one pass over the listed sidecars, each classified against what the earlier ones left. */
  method SweepRecoverySidecars(state: ClusterState, ps: seq<Probe>) returns (outcome: SweepResult)
    modifies state
    ensures fresh(outcome) && Both(state, outcome) == SweepLedger(old(state.Value()), ps)
  {
    outcome := new SweepResult();
    for n := 0 to |ps|
      invariant fresh(outcome)
      invariant SweepAll(Both(state, outcome), ps[n..]) == SweepLedger(old(state.Value()), ps)
    {
      assert ps[n..][0] == ps[n] && ps[n..][1..] == ps[n + 1..];
      match ps[n].sidecar.kind {
        case GraphCreate => SweepGraphCreateSidecar(state, outcome, ps[n]);
        case SchemaApply => SweepSchemaApplySidecar(state, outcome, ps[n]);
        case GraphDelete => SweepGraphDeleteSidecar(state, outcome, ps[n]);
      }
    }
  }
}
