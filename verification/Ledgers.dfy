/** The stored records of `types.rs`, the world the commands act on, and the pure ledger lookups of `lib.rs`. */
module Ledgers {
  import opened Addresses
  import opened Digests

  type GraphId = string
  type OpId = string
  type ApprovalId = string

  // ---- state.json ----

  datatype Resource = Resource(
    digest: Digest,
    appliesTo: Option<seq<Address>>,   // policies only; the cluster scope is Unknown("cluster")
    provider: Option<Address>,         // graphs only
    profile: Option<Profile>,          // embedding providers only
    blobPolicy: Option<BlobPolicy>)    // graphs only

  type Resources = map<Address, Resource>

  datatype Reason =
    | RecoveryPending | ApprovalRequired | DependencyNotApplied | UnsupportedKind
    | GraphCreateFailed | SchemaApplyFailed | GraphDeleteFailed

  datatype Condition =
    | AppliedStatePending | GraphCreateIncomplete | GraphMissing | SchemaMismatch | GraphObservationError
    | PayloadMissing | PayloadMismatch | PayloadReadError

  datatype Status = StatusApplied | StatusDrifted(condition: Condition) | StatusError(condition: Condition) | StatusBlocked(reason: Reason)

  datatype SidecarKind = GraphCreate | SchemaApply | GraphDelete

  datatype Recovery = RolledForward(kind: SidecarKind, graph: GraphId, actor: Option<string>)

  datatype Observation =
    | Tombstone(approval: Option<ApprovalId>, deletedBy: Option<string>)
    | Observed(found: bool, schema: Option<Digest>, desired: Digest, matches: Option<bool>)

  /** `ClusterState` without its timestamps and messages. */
  datatype Ledger = Ledger(
    revision: nat,
    configDigest: Option<Digest>,
    resources: Resources,
    statuses: map<Address, Status>,
    approvalRecords: map<ApprovalId, string>,
    recoveryRecords: map<OpId, Recovery>,
    observations: map<Address, Observation>)

  const U64_MAX: nat := 0xFFFF_FFFF_FFFF_FFFF

  /** `u64::saturating_add(1)`. */
  function NextRevision(revision: nat): nat {
    if revision < U64_MAX then revision + 1 else revision
  }

  // ---- the other stores ----

  /** What stands at a graph's derived root. `Partial` exists but does not open. */
  datatype Root = Absent | Partial | Open(schema: Digest)

  datatype Sidecar = Sidecar(kind: SidecarKind, graph: GraphId, desiredSchema: Digest,
                             approval: Option<ApprovalId>, actor: Option<string>)

  datatype Approval = Approval(resource: Address, config: Digest, before: Option<Digest>, after: Option<Digest>, consumed: bool)

  type BlobKey = (Address, Digest)

  datatype World = World(
    live: map<GraphId, Root>,
    ledger: Option<Ledger>,
    sidecars: map<OpId, Sidecar>,
    approvals: map<ApprovalId, Approval>,
    blobs: map<BlobKey, string>)

  function RootOf(live: map<GraphId, Root>, g: GraphId): Root {
    if g in live then live[g] else Absent
  }

  // ---- lookups ----

  function Plain(d: Digest): Resource {
    Resource(d, None, None, None, None)
  }

  function DigestAt(res: Resources, a: Address): Option<Digest> {
    if a in res then Some(res[a].digest) else None
  }

  /** `state_resource_digests`. */
  function ResourceDigests(res: Resources): map<Address, Digest> {
    map a | a in res :: res[a].digest
  }

  /** The schema digest the ledger records for a graph. */
  function Recorded(res: Resources, g: GraphId): Option<Digest> {
    DigestAt(res, Schema(g))
  }

  /** `state_query_digests_for_graph`, keyed by address instead of bare name. */
  function QueryDigests(res: Resources, g: GraphId): (q: map<Address, Digest>)
    ensures QueriesOf(g, q)
  {
    map a | a in res && a.Query? && a.graph == g :: res[a].digest
  }

  function GraphProvider(res: Resources, g: GraphId): Option<Address> {
    if Graph(g) in res then res[Graph(g)].provider else None
  }

  /** Absence of a recorded policy means the historical default, Deny. */
  function PolicyOf(entry: Resource): BlobPolicy {
    if entry.blobPolicy.Some? then entry.blobPolicy.value else Deny
  }

  function GraphPolicy(res: Resources, g: GraphId): BlobPolicy {
    if Graph(g) in res then PolicyOf(res[Graph(g)]) else Deny
  }

  function PersistedPolicy(policy: BlobPolicy): Option<BlobPolicy> {
    if policy.Deny? then None else Some(policy)
  }

  function ProviderDigest(res: Resources, provider: Option<Address>): Option<Digest> {
    if provider.Some? then DigestAt(res, provider.value) else None
  }

  /** `expected_state_graph_resource_digest`. */
  function ExpectedGraphDigest(res: Resources, g: GraphId, entry: Resource): Digest {
    GraphDigest(g, Recorded(res, g), QueryDigests(res, g), entry.provider, ProviderDigest(res, entry.provider), PolicyOf(entry))
  }

  /** The graph entry, if any, carries the composite of its own ledger components. */
  predicate Bound(res: Resources, g: GraphId) {
    Graph(g) in res ==> res[Graph(g)].digest == ExpectedGraphDigest(res, g, res[Graph(g)])
  }

  /** `validate_state_graph_resource_digests`: the gate every mutating command passes before its sweep. */
  predicate AllBound(res: Resources) {
    forall a :: a in res && a.Graph? ==> Bound(res, a.graph)
  }

  // ---- ledger updates shared by the sweep, refresh and apply ----

  function SetStatus(l: Ledger, a: Address, s: Status): Ledger {
    l.(statuses := l.statuses[a := s])
  }

  function MarkGraph(l: Ledger, g: GraphId, s: Status): Ledger {
    SetStatus(SetStatus(l, Graph(g), s), Schema(g), s)
  }

  /** The graph entry `graph.<id>` rebuilt from the ledger's own components. */
  function Recomposed(res: Resources, g: GraphId, provider: Option<Address>, policy: BlobPolicy): Resource {
    Resource(GraphDigest(g, Recorded(res, g), QueryDigests(res, g), provider, ProviderDigest(res, provider), policy),
             None, provider, None, PersistedPolicy(policy))
  }

  /** Record the live schema of `g` and rebuild its composite; provider and policy stay as recorded. */
  function RecordLive(res: Resources, g: GraphId, live: Digest): Resources {
    var res1 := res[Schema(g) := Plain(live)];
    res1[Graph(g) := Recomposed(res1, g, GraphProvider(res1, g), GraphPolicy(res1, g))]
  }

  predicate InSubtree(a: Address, g: GraphId) {
    a == Graph(g) || a == Schema(g) || (a.Query? && a.graph == g)
  }

  function Pruned(res: Resources, g: GraphId): Resources {
    map a | a in res && !InSubtree(a, g) :: res[a]
  }

  /** `tombstone_graph_subtree`. */
  function TombstoneSubtree(l: Ledger, g: GraphId, approval: Option<ApprovalId>, actor: Option<string>): Ledger {
    l.(resources := Pruned(l.resources, g),
       statuses := map a | a in l.statuses && !InSubtree(a, g) :: l.statuses[a],
       observations := l.observations[Graph(g) := Tombstone(approval, actor)])
  }

  /** `record_approval_consumed`. */
  function RecordConsumed(l: Ledger, approval: ApprovalId, operation: string): Ledger {
    l.(approvalRecords := l.approvalRecords[approval := operation])
  }

  // ---- shape invariants of the ledger ----

  /** `graph.g` is recorded exactly when `schema.g` is. */
  ghost predicate Paired(res: Resources) {
    forall g: GraphId :: Graph(g) in res <==> Schema(g) in res
  }

  /** Graph entries bind embedding providers and nothing else. */
  ghost predicate WellKinded(res: Resources) {
    forall g: GraphId :: Graph(g) in res && res[Graph(g)].provider.Some? ==> res[Graph(g)].provider.value.EmbeddingProvider?
  }
}
