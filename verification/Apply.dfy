/**
 `cluster apply` as a function of the stored world and of every outcome the run does not control. Each storage or
 engine step appends the world it leaves to a log, so a crash between two steps is a prefix of the log.
 */
module Apply {
  import opened Addresses
  import opened Digests
  import opened Ledgers
  import opened Sweep
  import opened Plan
  import opened Classify

  // ---- the log ----

  datatype Event =
    | WroteSidecar(op: OpId)
    | DroppedSidecar(op: OpId)
    | InitCalled(graph: GraphId, ok: bool)
    | SchemaApplyCalled(graph: GraphId, ok: bool)
    | WroteBlob(key: BlobKey)
    | RemoveCalled(graph: GraphId, ok: bool)
    | WroteState
    | MarkedApproval(id: ApprovalId)

  datatype Entry = Entry(event: Event, world: World)

  // ---- outcomes of the steps ----

  /** A put lands, is lost, or lands although the caller is told it failed. */
  datatype PutResult = Done | Lost | Unacknowledged

  /** What a failed init leaves at the root. */
  datatype Leftover = Untouched | PartialRoot | FullRoot
  datatype InitResult = InitOk | InitErr(left: Leftover)

  /** A failed schema apply may have moved the schema; `pinned` is the manifest-version comparison succeeding. */
  datatype MigrateResult = MigrateOk | MigrateErr(moved: bool, pinned: bool)

  /** A failed removal may have removed the root; partial removals are outside the model. */
  datatype RemoveResult = RemoveOk | RemoveErr(gone: bool)

  datatype Env = Env(
    actor: Option<string>,
    probes: seq<Probe>,
    artifacts: Artifacts,
    source: Address -> Option<string>,
    op: GraphId -> OpId,
    putSidecar: GraphId -> PutResult,
    init: GraphId -> InitResult,
    ready: GraphId -> bool,              // the graph opens read-write and the engine's preview accepts the schema
    migrate: GraphId -> MigrateResult,
    exportFree: GraphId -> bool,
    remove: GraphId -> RemoveResult,
    putBlob: Address -> bool,
    putState: PutResult,
    drop: OpId -> bool,
    files: seq<ApprovalId>,              // the approval files as the post-write listing finds them
    mark: ApprovalId -> bool)

  // ---- the run ----

  datatype Run = Run(
    world: World,
    log: seq<Entry>,
    failed: map<GraphId, Origin>,
    aborted: bool,
    completed: seq<OpId>,
    removed: seq<(GraphId, Option<ApprovalId>)>)

  function Start(w: World): Run {
    Run(w, [], map[], false, [], [])
  }

  function Step(r: Run, e: Event, w: World): Run {
    r.(world := w, log := r.log + [Entry(e, w)])
  }

  function PutSidecar(r: Run, op: OpId, s: Sidecar): Run {
    Step(r, WroteSidecar(op), r.world.(sidecars := r.world.sidecars[op := s]))
  }

  function DropSidecar(r: Run, op: OpId, dropped: bool): Run {
    if dropped then Step(r, DroppedSidecar(op), r.world.(sidecars := r.world.sidecars - {op})) else r
  }

  function MoveRoot(r: Run, e: Event, g: GraphId, root: Root): Run {
    Step(r, e, r.world.(live := r.world.live[g := root]))
  }

  /** The graph failed, and nothing graph-moving follows in this run. */
  function Abort(r: Run, g: GraphId, origin: Origin): Run {
    r.(failed := r.failed[g := origin], aborted := true)
  }

  function Skip(r: Run, g: GraphId, origin: Origin): Run {
    r.(failed := r.failed[g := origin])
  }

  function Complete(r: Run, op: OpId): Run {
    r.(completed := r.completed + [op])
  }

  function FindGraph(graphs: seq<DesiredGraph>, g: GraphId): (r: Option<DesiredGraph>)
    ensures r.Some? ==> r.value in graphs && r.value.id == g
    ensures r.None? ==> forall dg :: dg in graphs ==> dg.id != g
  {
    if graphs == [] then None else if graphs[0].id == g then Some(graphs[0]) else FindGraph(graphs[1..], g)
  }

  /** The schema source re-read under the lock still has the planned digest. */
  predicate SourceIntact(env: Env, dg: DesiredGraph) {
    env.source(Schema(dg.id)).Some? && ContentDigest(env.source(Schema(dg.id)).value) == dg.schemaDigest
  }

  // ---- graph creates ----

  function RootAfterInit(root: Root, result: InitResult, desired: Digest): Root {
    match result
    case InitOk => Open(desired)
    case InitErr(Untouched) => root
    case InitErr(PartialRoot) => Partial
    case InitErr(FullRoot) => Open(desired)
  }

  /** The create once its sidecar is on storage. */
  function FencedCreate(r: Run, g: GraphId, dg: DesiredGraph, env: Env): Run {
    var op := env.op(g);
    if !SourceIntact(env, dg) then Abort(DropSidecar(r, op, env.drop(op)), g, CreateFailed)
    else
      var root := RootAfterInit(RootOf(r.world.live, g), env.init(g), dg.schemaDigest);
      var r' := MoveRoot(r, InitCalled(g, env.init(g).InitOk?), g, root);
      if env.init(g).InitOk? then Complete(r', op) else Abort(r', g, CreateFailed)
  }

  function CreateOne(r: Run, g: GraphId, d: Desired, env: Env): Run {
    var dg := FindGraph(d.graphs, g);
    if r.aborted then Skip(r, g, CreateFailed)
    else if dg.None? then r
    else
      var r' := PutSidecar(r, env.op(g), Sidecar(GraphCreate, g, dg.value.schemaDigest, None, env.actor));
      match env.putSidecar(g)
      case Lost => Abort(r, g, CreateFailed)
      case Unacknowledged => Abort(r', g, CreateFailed)
      case Done => FencedCreate(r', g, dg.value, env)
  }

  function RunCreates(r: Run, ids: seq<GraphId>, d: Desired, env: Env): Run
    decreases |ids|
  {
    if ids == [] then r else RunCreates(CreateOne(r, ids[0], d, env), ids[1..], d, env)
  }

  // ---- schema applies ----

  function RootAfterMigrate(root: Root, result: MigrateResult, desired: Digest): Root {
    if result.MigrateOk? || result.moved then Open(desired) else root
  }

  /** `live_schema_matches_recorded_digest`: the rejection moved nothing, so the sidecar may go at once. */
  predicate NothingMoved(env: Env, g: GraphId, res: Resources, root: Root) {
    env.migrate(g).MigrateErr? && env.migrate(g).pinned && root.Open? && Recorded(res, g) == Some(root.schema)
  }

  /** The schema apply once its sidecar is on storage. */
  function FencedMigrate(r: Run, g: GraphId, dg: DesiredGraph, res: Resources, env: Env): Run {
    var op := env.op(g);
    var root := RootAfterMigrate(RootOf(r.world.live, g), env.migrate(g), dg.schemaDigest);
    var r' := MoveRoot(r, SchemaApplyCalled(g, env.migrate(g).MigrateOk?), g, root);
    if env.migrate(g).MigrateOk? then Complete(r', op)
    else Abort(DropSidecar(r', op, NothingMoved(env, g, res, root) && env.drop(op)), g, SchemaFailed)
  }

  function MigrateOne(r: Run, g: GraphId, res: Resources, d: Desired, env: Env): Run {
    var dg := FindGraph(d.graphs, g);
    if r.aborted then Skip(r, g, SchemaFailed)
    else if dg.None? then r
    else if !RootOf(r.world.live, g).Open? || !env.ready(g) || !SourceIntact(env, dg.value) then Abort(r, g, SchemaFailed)
    else
      var r' := PutSidecar(r, env.op(g), Sidecar(SchemaApply, g, dg.value.schemaDigest, None, env.actor));
      match env.putSidecar(g)
      case Lost => Abort(r, g, SchemaFailed)
      case Unacknowledged => Abort(r', g, SchemaFailed)
      case Done => FencedMigrate(r', g, dg.value, res, env)
  }

  function RunMigrations(r: Run, ids: seq<GraphId>, res: Resources, d: Desired, env: Env): Run
    decreases |ids|
  {
    if ids == [] then r else RunMigrations(MigrateOne(r, ids[0], res, d, env), ids[1..], res, d, env)
  }

  // ---- payloads ----

  /** `payload_relative`: only queries and policies have catalog blobs. */
  predicate HasPayload(a: Address) {
    a.Query? || a.Policy?
  }

  predicate NeedsPayload(c: Change) {
    c.disposition == Some(Applied) && c.operation != Delete && HasPayload(c.resource)
  }

  datatype Paid = Paid(run: Run, ok: bool)

  /** `write_resource_payload`: an existing digest-named blob is trusted; a changed source is refused. */
  function PayOne(p: Paid, c: Change, env: Env): Paid {
    if !NeedsPayload(c) then p
    else
      var key := (c.resource, OrEmpty(c.after));
      if key in p.run.world.blobs then p
      else
        var source := env.source(c.resource);
        if source.None? || ContentDigest(source.value) != key.1 || !env.putBlob(c.resource) then p.(ok := false)
        else
          p.(run := Step(p.run, WroteBlob(key), p.run.world.(blobs := p.run.world.blobs[key := source.value])))
  }

  function PayAll(p: Paid, cs: seq<Change>, env: Env): Paid
    decreases |cs|
  {
    if cs == [] then p else PayAll(PayOne(p, cs[0], env), cs[1..], env)
  }

  // ---- graph deletes ----

  /** The delete once its sidecar is on storage. */
  function FencedDelete(r: Run, g: GraphId, approval: Option<ApprovalId>, env: Env): Run {
    var gone := env.remove(g).RemoveOk? || env.remove(g).gone;
    var r' := MoveRoot(r, RemoveCalled(g, env.remove(g).RemoveOk?), g, if gone then Absent else RootOf(r.world.live, g));
    if env.remove(g).RemoveOk? then Complete(r'.(removed := r'.removed + [(g, approval)]), env.op(g))
    else Abort(r', g, DeleteFailed)
  }

  function DeleteOne(r: Run, g: GraphId, d: Desired, env: Env): Run {
    var approval := Consumable(env.artifacts, g, d.configDigest);
    if r.aborted then Skip(r, g, DeleteFailed)
    else if !env.exportFree(g) then Abort(r, g, DeleteFailed)
    else
      var r' := PutSidecar(r, env.op(g), Sidecar(GraphDelete, g, Raw(""), approval, env.actor));
      match env.putSidecar(g)
      case Lost => Abort(r, g, DeleteFailed)
      case Unacknowledged => Abort(r', g, DeleteFailed)
      case Done => FencedDelete(r', g, approval, env)
  }

  function RunDeletes(r: Run, ids: seq<GraphId>, d: Desired, env: Env): Run
    decreases |ids|
  {
    if ids == [] then r else RunDeletes(DeleteOne(r, ids[0], d, env), ids[1..], d, env)
  }

  // ---- which graphs each phase visits ----

  predicate Visits(c: Change, op: Operation, schema: bool) {
    c.disposition == Some(Applied) && c.operation == op && (if schema then c.resource.Schema? else c.resource.Graph?)
  }

  function ToRun(cs: seq<Change>, op: Operation, schema: bool): seq<GraphId> {
    if cs == [] then []
    else (if Visits(cs[0], op, schema) then [cs[0].resource.graph] else []) + ToRun(cs[1..], op, schema)
  }

  // ---- the new ledger ----

  function MutateOne(l: Ledger, c: Change, d: Desired): Ledger {
    if c.disposition == Some(Applied) then
      var l1 := l.(resources := ApplyChange(l.resources, c, d));
      if c.operation == Delete then l1.(statuses := l1.statuses - {c.resource})
      else SetStatus(l1, c.resource, StatusApplied)
    else if c.disposition == Some(Blocked) && c.reason != Some(RecoveryPending) then
      SetStatus(l, c.resource, StatusBlocked(if c.reason.Some? then c.reason.value else DependencyNotApplied))
    else l
  }

  function Mutate(l: Ledger, cs: seq<Change>, d: Desired): Ledger
    decreases |cs|
  {
    if cs == [] then l else Mutate(MutateOne(l, cs[0], d), cs[1..], d)
  }

  function TombstoneOne(l: Ledger, x: (GraphId, Option<ApprovalId>), actor: Option<string>): Ledger {
    var l1 := TombstoneSubtree(l, x.0, x.1, actor);
    if x.1.Some? then RecordConsumed(l1, x.1.value, "apply") else l1
  }

  function TombstoneAll(l: Ledger, removed: seq<(GraphId, Option<ApprovalId>)>, actor: Option<string>): Ledger
    decreases |removed|
  {
    if removed == [] then l else TombstoneAll(TombstoneOne(l, removed[0], actor), removed[1..], actor)
  }

  /** A blocked graph or schema change keeps the recorded Blob policy. */
  predicate GraphBlocked(cs: seq<Change>, g: GraphId) {
    exists i :: 0 <= i < |cs| && cs[i].disposition == Some(Blocked) && (cs[i].resource == Graph(g) || cs[i].resource == Schema(g))
  }

  function RecomputeOne(res: Resources, dg: DesiredGraph, cs: seq<Change>): Resources {
    if Graph(dg.id) !in res then res
    else res[Graph(dg.id) := Recomposed(res, dg.id, dg.provider, if GraphBlocked(cs, dg.id) then GraphPolicy(res, dg.id) else dg.policy)]
  }

  /** `recompute_state_graph_digests`: declared graphs only. */
  function Recompute(res: Resources, graphs: seq<DesiredGraph>, cs: seq<Change>): Resources
    decreases |graphs|
  {
    if graphs == [] then res else Recompute(RecomputeOne(res, graphs[0], cs), graphs[1..], cs)
  }

  function NewLedger(l: Ledger, cs: seq<Change>, removed: seq<(GraphId, Option<ApprovalId>)>, d: Desired, actor: Option<string>): Ledger {
    var l1 := TombstoneAll(Mutate(l, cs, d), removed, actor);
    var l2 := l1.(resources := Recompute(l1.resources, d.graphs, cs));
    if PlanOf(l2.resources, d) == [] then l2.(configDigest := Some(d.configDigest)) else l2
  }

  // ---- retirement ----

  function DropAll(r: Run, ops: seq<OpId>, drop: OpId -> bool): Run
    decreases |ops|
  {
    if ops == [] then r else DropAll(DropSidecar(r, ops[0], drop(ops[0])), ops[1..], drop)
  }

  /** The listed approval files among `ids`. */
  function Listed(files: seq<ApprovalId>, ids: seq<ApprovalId>): (r: seq<ApprovalId>)
    ensures forall id :: id in r <==> id in files && id in ids
  {
    if files == [] then [] else (if files[0] in ids then [files[0]] else []) + Listed(files[1..], ids)
  }

  /** `mark_approvals_consumed`: best effort, one artifact file at a time. */
  function MarkOne(r: Run, id: ApprovalId, mark: bool): Run {
    var arts := r.world.approvals;
    if id in arts && !arts[id].consumed && mark
    then Step(r, MarkedApproval(id), r.world.(approvals := arts[id := arts[id].(consumed := true)]))
    else r
  }

  function MarkAll(r: Run, ids: seq<ApprovalId>, mark: ApprovalId -> bool): Run
    decreases |ids|
  {
    if ids == [] then r else MarkAll(MarkOne(r, ids[0], mark(ids[0])), ids[1..], mark)
  }

  function ConsumedIds(removed: seq<(GraphId, Option<ApprovalId>)>): seq<ApprovalId> {
    if removed == [] then []
    else (if removed[0].1.Some? then [removed[0].1.value] else []) + ConsumedIds(removed[1..])
  }

  // ---- the whole command ----

  /** Everything apply computes up to the state write. */
  datatype Execution = Execution(swept: Swept, plan: seq<Change>, created: Run, migrated: Run, demoted: seq<Change>,
                                 paid: Paid, deleted: Run, final: seq<Change>, ledger: Ledger)

  function Execute(w: World, l0: Ledger, d: Desired, env: Env): Execution {
    var swept := SweepLedger(l0, env.probes);
    var res := swept.ledger.resources;
    var plan := ClassifiedPlan(res, d, env.artifacts, swept.outcome.pending);
    var created := RunCreates(Start(w), ToRun(plan, Create, false), d, env);
    var migrated := RunMigrations(created, ToRun(plan, Update, true), res, d, env);
    var demoted := Demoted(plan, migrated.failed, d.dependencies);
    var paid := PayAll(Paid(migrated, true), demoted, env);
    var deleted := RunDeletes(paid.run, ToRun(demoted, Delete, false), d, env);
    var final := Demoted(demoted, deleted.failed, d.dependencies);
    Execution(swept, plan, created, migrated, demoted, paid, deleted, final,
              NewLedger(swept.ledger, final, deleted.removed, d, env.actor))
  }

  datatype Outcome = NoState | Severed | ApprovalViolation | PayloadFailed | StateWriteFailed | Finished(converged: bool, written: bool)

  datatype Report = Report(run: Run, changes: seq<Change>, outcome: Outcome)

  function Committed(l: Ledger): Ledger {
    l.(revision := NextRevision(l.revision))
  }

  function Commit(l0: Ledger, x: Execution, d: Desired, env: Env): Report {
    var dirty := x.ledger != l0;
    var r1 :=
      if dirty && env.putState != Lost
      then Step(x.deleted, WroteState, x.deleted.world.(ledger := Some(Committed(x.ledger))))
      else x.deleted;
    if dirty && env.putState != Done then Report(r1, x.final, StateWriteFailed)
    else
      var r2 := DropAll(r1, x.swept.outcome.completed + x.deleted.completed, env.drop);
      var r3 := MarkAll(r2, Listed(env.files, x.swept.outcome.consumed + ConsumedIds(x.deleted.removed)), env.mark);
      Report(r3, x.final, Finished(PlanOf(x.ledger.resources, d) == [], dirty))
  }

  predicate ApprovalViolated(cs: seq<Change>, approved: set<Address>) {
    exists i :: 0 <= i < |cs| && cs[i].disposition == Some(Applied) && Gated(cs, cs[i]) && cs[i].resource !in approved
  }

  /** Where an execution stops: at the defensive approval check, at a failed payload, or after the state write. */
  function Conclude(w: World, l0: Ledger, x: Execution, d: Desired, env: Env): Report {
    if ApprovalViolated(x.plan, ApprovedResources(env.artifacts, PlanOf(x.swept.ledger.resources, d), d.configDigest))
    then Report(Start(w), x.plan, ApprovalViolation)
    else if !x.paid.ok then Report(x.paid.run, x.demoted, PayloadFailed)
    else Commit(l0, x, d, env)
  }

  /** `apply_config_dir_with_options` on a loaded configuration, the lock held. */
  function ApplyCommand(w: World, d: Desired, env: Env): Report {
    if w.ledger.None? then Report(Start(w), [], NoState)
    else
      var l0 := w.ledger.value;
      if !AllBound(l0.resources) then Report(Start(w), [], Severed)
      else Conclude(w, l0, Execute(w, l0, d, env), d, env)
  }
}
