/** Concrete histories in which a plain property fails, each reached by admissible commands from a world in step. */
module Scenarios {
  import opened Addresses
  import opened Digests
  import opened Ledgers
  import opened Sweep
  import opened Coverage
  import opened SweepFixpoint
  import opened Plan
  import opened Classify
  import opened Apply
  import opened ApplySafety
  import opened ApplyLedger
  import opened ApplyOutcome
  import opened CrashSafety
  import opened ApplyIsSafe
  import opened ApplyConverges
  import opened Configs
  import opened Refresh
  import Sorting
  import opened Convergence
  import opened ApplyStops
  import opened Servability
  import opened Serve
  import opened Protocol

  // ---- configurations and ledgers ----

  const V0 := ContentDigest("v0")
  const V1 := ContentDigest("v1")

  const PROFILE := Profile("p")

  /** One embedding provider and no graph. */
  function NoGraphs(): RawConfig {
    RawConfig(map["p" := PROFILE], map[], map[])
  }

  function OneGraph(schema: Digest): RawConfig {
    RawConfig(map["p" := PROFILE], map["g" := RawGraph(schema, map[], None, Deny)], map[])
  }

  /** What is known of a loaded configuration. */
  ghost predicate Configured(raw: RawConfig, d: Desired) {
    Loaded(d) && BuiltFrom(raw, d)
  }

  lemma Configure(raw: RawConfig, digest: Digest) returns (d: Desired)
    requires Valid(raw)
    ensures Configured(raw, d) && d.configDigest == digest
  {
    d := Build(raw, digest);
    LoadedConfigIsSound(raw, digest);
    BuildIsBuilt(raw, digest);
  }

  lemma ValidNoGraphs(raw: RawConfig)
    requires raw == NoGraphs()
    ensures Valid(raw)
  {
    assert ValidId("p");
    assert raw.graphs == map[] && raw.policies == map[] && raw.providers.Keys == {"p"};
  }

  lemma ValidOneGraph(raw: RawConfig, schema: Digest)
    requires raw == OneGraph(schema)
    ensures Valid(raw)
  {
    assert ValidId("p") && ValidGraph(raw, "g");
    assert raw.graphs.Keys == {"g"} && raw.policies == map[] && raw.providers.Keys == {"p"};
  }

  /** The applied provider. */
  function Base(): Resources {
    map[EmbeddingProvider("p") := Resource(ProfileDigest(PROFILE), None, None, Some(PROFILE), None)]
  }

  /** The recorded entries of the scenarios, known only by what they need. */
  ghost predicate Entries(res: Resources) {
    && res.Keys == {Graph("g"), Schema("g"), EmbeddingProvider("p")} && AllBound(res) && Paired(res) && WellKinded(res)
    && res[Schema("g")].digest == V0 && res[Graph("g")].provider == None
  }

  /** Graph `g` recorded at V0, composed as the program composes it. */
  lemma SomeEntries() returns (res: Resources)
    ensures Entries(res)
  {
    RecordLiveBound(Base(), "g", V0);
    RecordLiveFacts(Base(), "g", V0);
    assert forall g: GraphId :: Graph(g) !in Base() && Schema(g) !in Base();
    res := RecordLive(Base(), "g", V0);
    assert res.Keys == Base().Keys + {Schema("g")} + {Graph("g")};
  }

  function LedgerOf(res: Resources): Ledger {
    Ledger(1, None, res, map[], map[], map[], map[])
  }

  function WorldOf(res: Resources, live: map<GraphId, Root>): World {
    World(live, Some(LedgerOf(res)), map[], map[], map[])
  }

  lemma RecordedIsGenesis(res: Resources, w: World)
    requires Entries(res) && w == WorldOf(res, map["g" := Open(V0)])
    ensures Genesis(w)
  {
    forall h: GraphId ensures InStep(res, w.live, h) { }
  }

  // ---- a failed probe during refresh ----

  /** A refresh with nothing to sweep that reports an existing declared graph absent drops it from the ledger, unfenced. */
  lemma BlindRefreshStrands(w: World, d: Desired, e: SyncEnv, g: GraphId)
    requires Shaped(w) && SyncAdmissible(w, e) && SyncProceeds(w, RefreshState, d, e) && e.putState == Done && e.files == []
    requires w.sidecars == map[] && e.probes == [] && Observable(d.graphs, e.seen, g) && Blind(e.seen(g), RootOf(w.live, g))
    ensures var w' := SyncCommand(w, RefreshState, d, e).world; !InStep(ResourcesOf(w'), w'.live, g) && !HasSidecar(w', g)
    ensures CommandStrands(w, SyncWith(RefreshState, d, e), g)
  {
    var l0 := w.ledger.value;
    assert !CoverLeft(SyncKept(l0, w, e), RootOf(w.live, g), g);
    ObserveAllRecords(Verified(SweepLedger(l0, e.probes).ledger, w, e), d.graphs, e.seen, g);
    var l := SyncLedger(l0, w, d, e).(revision := NextRevision(SyncLedger(l0, w, d, e).revision));
    IdleRetirement(w, l, e);
  }

  lemma IdleRetirement(w: World, l: Ledger, e: SyncEnv)
    requires e.putState == Done && e.files == []
    ensures SyncWrite(w, l, NoOutcome, e).world == w.(ledger := Some(l))
  {
  }

  function Quietly(seen: GraphId -> Root, probes: seq<Probe>): SyncEnv {
    SyncEnv(probes, _ => false, seen, Done, _ => true, [], _ => true)
  }

  lemma RecordedWorld() returns (w: World, res: Resources)
    ensures Genesis(w) && w.ledger == Some(LedgerOf(res)) && Entries(res)
    ensures w.live == map["g" := Open(V0)] && w.sidecars == map[] && w.approvals == map[]
  {
    res := SomeEntries();
    w := WorldOf(res, map["g" := Open(V0)]);
    RecordedIsGenesis(res, w);
  }

  lemma GraphConfig(schema: Digest) returns (d: Desired)
    ensures Configured(OneGraph(schema), d) && exists i :: 0 <= i < |d.graphs| && d.graphs[i].id == "g"
  {
    ValidOneGraph(OneGraph(schema), schema);
    d := Configure(OneGraph(schema), Raw("config"));
    assert "g" in OneGraph(schema).graphs;
    var dg := FindGraph(d.graphs, "g").value;
    var i :| 0 <= i < |d.graphs| && d.graphs[i] == dg;
  }

  lemma OneCommand(w: World, cmd: Command, w': World)
    requires CommandAdmissible(w, cmd) && Leaves(w, cmd, w')
    ensures History([w, w'], [cmd])
  {
  }

  lemma BlindRefreshFrom(w: World, d: Desired, e: SyncEnv)
    requires Genesis(w) && w.ledger.Some? && AllBound(ResourcesOf(w)) && w.sidecars == map[] && RootOf(w.live, "g").Open?
    requires (exists i :: 0 <= i < |d.graphs| && d.graphs[i].id == "g") && e == Quietly(_ => Absent, [])
    ensures CommandAdmissible(w, SyncWith(RefreshState, d, e))
    ensures var w' := SyncCommand(w, RefreshState, d, e).world;
            && Leaves(w, SyncWith(RefreshState, d, e), w') && !InStep(ResourcesOf(w'), w'.live, "g") && !HasSidecar(w', "g")
  {
    BlindRefreshStrands(w, d, e, "g");
    SyncIsLeft(w, RefreshState, d, e);
  }

  /** Such a refresh from a world in step: one admissible command, and a healthy graph is lost. */
  lemma BlindRefresh() returns (w: World, cmd: Command, w': World)
    ensures Genesis(w) && History([w, w'], [cmd]) && !InStep(ResourcesOf(w'), w'.live, "g") && !HasSidecar(w', "g")
  {
    var res;
    w, res := RecordedWorld();
    var d := GraphConfig(V0);
    var e := Quietly(_ => Absent, []);
    BlindRefreshFrom(w, d, e);
    cmd, w' := SyncWith(RefreshState, d, e), SyncCommand(w, RefreshState, d, e).world;
    OneCommand(w, cmd, w');
  }

  // ---- where a command finished ----

  /** Where a sync finished is one of the worlds it may leave. */
  lemma SyncIsLeft(w: World, op: SyncOperation, d: Desired, e: SyncEnv)
    ensures Leaves(w, SyncWith(op, d, e), SyncCommand(w, op, d, e).world)
  {
    SyncEndsInLog(w, op, d, e);
    LastIsLeft(w, SyncWith(op, d, e), SyncCommand(w, op, d, e));
  }

  lemma LastIsLeft(w: World, cmd: Command, r: Run)
    requires EndsInLog(w, r) && StepsOf(w, cmd) == r.log
    ensures Leaves(w, cmd, r.world)
  {
    if r.world != w {
      var i := |r.log| - 1;
      assert 0 <= i < |StepsOf(w, cmd)| && StepsOf(w, cmd)[i].world == r.world;
    }
  }

  ghost predicate EndsInLog(w: World, r: Run) {
    r.world == w || (r.log != [] && r.log[|r.log| - 1].world == r.world)
  }

  lemma SyncEndsInLog(w: World, op: SyncOperation, d: Desired, e: SyncEnv)
    ensures EndsInLog(w, SyncCommand(w, op, d, e))
  {
    if SyncProceeds(w, op, d, e) {
      var l0 := SyncBase(w, op, d);
      var l := SyncLedger(l0, w, d, e).(revision := if op == ImportState then 1 else NextRevision(SyncLedger(l0, w, d, e).revision));
      var outcome := SweepLedger(l0, e.probes).outcome;
      var r1 := Step(Start(w), WroteState, w.(ledger := Some(l)));
      DropEndsInLog(w, r1, outcome.completed, e.drop);
      MarkEndsInLog(w, DropAll(r1, outcome.completed, e.drop), Listed(e.files, outcome.consumed), e.mark);
    }
  }

  lemma {:induction false} DropEndsInLog(w: World, r: Run, ops: seq<OpId>, drop: OpId -> bool)
    requires EndsInLog(w, r)
    ensures EndsInLog(w, DropAll(r, ops, drop))
    decreases |ops|
  {
    if ops != [] { DropEndsInLog(w, DropSidecar(r, ops[0], drop(ops[0])), ops[1..], drop); }
  }

  lemma {:induction false} MarkEndsInLog(w: World, r: Run, ids: seq<ApprovalId>, mark: ApprovalId -> bool)
    requires EndsInLog(w, r)
    ensures EndsInLog(w, MarkAll(r, ids, mark))
    decreases |ids|
  {
    if ids != [] { MarkEndsInLog(w, MarkOne(r, ids[0], mark(ids[0])), ids[1..], mark); }
  }

  // ---- runs that move one graph ----

  /** Later steps only add to the log. */
  lemma {:induction false} MigrationsKeepLog(r: Run, ids: seq<GraphId>, res: Resources, d: Desired, env: Env)
    ensures r.log <= RunMigrations(r, ids, res, d, env).log
    decreases |ids|
  {
    if ids != [] { MigrationsKeepLog(MigrateOne(r, ids[0], res, d, env), ids[1..], res, d, env); }
  }

  lemma {:induction false} PaymentsKeepLog(p: Paid, cs: seq<Change>, env: Env)
    ensures p.run.log <= PayAll(p, cs, env).run.log
    decreases |cs|
  {
    if cs != [] { PaymentsKeepLog(PayOne(p, cs[0], env), cs[1..], env); }
  }

  lemma {:induction false} DeletesKeepLog(r: Run, ids: seq<GraphId>, d: Desired, env: Env)
    ensures r.log <= RunDeletes(r, ids, d, env).log
    decreases |ids|
  {
    if ids != [] { DeletesKeepLog(DeleteOne(r, ids[0], d, env), ids[1..], d, env); }
  }

  lemma {:induction false} DropsKeepLog(r: Run, ops: seq<OpId>, drop: OpId -> bool)
    ensures r.log <= DropAll(r, ops, drop).log
    decreases |ops|
  {
    if ops != [] { DropsKeepLog(DropSidecar(r, ops[0], drop(ops[0])), ops[1..], drop); }
  }

  lemma {:induction false} MarksKeepLog(r: Run, ids: seq<ApprovalId>, mark: ApprovalId -> bool)
    ensures r.log <= MarkAll(r, ids, mark).log
    decreases |ids|
  {
    if ids != [] { MarksKeepLog(MarkOne(r, ids[0], mark(ids[0])), ids[1..], mark); }
  }

  lemma CommitKeepsLog(l0: Ledger, x: Execution, d: Desired, env: Env)
    ensures x.deleted.log <= Commit(l0, x, d, env).run.log
  {
    var w := x.deleted.world.(ledger := Some(Committed(x.ledger)));
    var r1 := if x.ledger != l0 && env.putState != Lost then Step(x.deleted, WroteState, w) else x.deleted;
    var ops, ids := x.swept.outcome.completed + x.deleted.completed, x.swept.outcome.consumed + ConsumedIds(x.deleted.removed);
    DropsKeepLog(r1, ops, env.drop);
    MarksKeepLog(DropAll(r1, ops, env.drop), Listed(env.files, ids), env.mark);
  }

  /** Every world of the graph-moving phases is one an apply may leave when it crashes there. */
  lemma PhasesAreLeft(w: World, l0: Ledger, d: Desired, env: Env, e: Entry)
    requires w.ledger == Some(l0) && AllBound(l0.resources)
    requires var x := Execute(w, l0, d, env); e in x.created.log || (x.paid.ok && e in x.deleted.log)
    ensures Leaves(w, ApplyWith(d, env), e.world)
  {
    var x := Execute(w, l0, d, env);
    ExecutionIsNotRefused(w, l0, d, env);
    MigrationsKeepLog(x.created, ToRun(x.plan, Update, true), x.swept.ledger.resources, d, env);
    PaymentsKeepLog(Paid(x.migrated, true), x.demoted, env);
    DeletesKeepLog(x.paid.run, ToRun(x.demoted, Delete, false), d, env);
    CommitKeepsLog(l0, x, d, env);
    EntryIsLeft(w, ApplyWith(d, env), e);
  }

  lemma EntryIsLeft(w: World, cmd: Command, e: Entry)
    requires e in StepsOf(w, cmd)
    ensures Leaves(w, cmd, e.world)
  {
    var i :| 0 <= i < |StepsOf(w, cmd)| && StepsOf(w, cmd)[i] == e;
    assert StepsOf(w, cmd)[i].world == e.world;
  }

  lemma SomebodyListed(ids: seq<GraphId>)
    ensures ids == [] || exists g :: g in ids
  {
    if ids != [] { assert ids[0] in ids; }
  }

  lemma SomebodyDeclared(graphs: seq<DesiredGraph>)
    ensures graphs == [] || exists dg :: dg in graphs
  {
    if graphs != [] { assert graphs[0] in graphs; }
  }

  lemma OneListed(ids: seq<GraphId>, g: GraphId)
    requires NoDup(ids) && forall h :: h in ids <==> h == g
    ensures ids == [g]
  {
    assert g in ids;
    var k :| 0 <= k < |ids| && ids[k] == g;
    forall i | 0 <= i < |ids| ensures ids[i] == g && i == k { assert ids[i] in ids; }
    assert ids[0] == g && ids[|ids| - 1] == g;
  }

  /** No address of the ledger or of the configuration has a payload. */
  ghost predicate NoPayloads(res: Resources, d: Desired) {
    forall a :: a in res || a in d.digests ==> !HasPayload(a)
  }

  lemma {:induction false} NothingToPay(p: Paid, cs: seq<Change>, env: Env)
    requires forall c :: c in cs ==> !NeedsPayload(c)
    ensures PayAll(p, cs, env) == p
    decreases |cs|
  {
    if cs != [] {
      assert cs[0] in cs;
      NothingToPay(p, cs[1..], env);
    }
  }

  lemma PlanNeedsNoPayload(res: Resources, d: Desired, arts: Artifacts, pending: set<GraphId>, failed: map<GraphId, Origin>)
    requires NoPayloads(res, d)
    ensures forall c :: c in Demoted(ClassifiedPlan(res, d, arts, pending), failed, d.dependencies) ==> !NeedsPayload(c)
  {
    var cs, plan := PlanOf(res, d), ClassifiedPlan(res, d, arts, pending);
    var demoted := Demoted(plan, failed, d.dependencies);
    PlanFacts(res, d);
    forall c | c in demoted ensures !HasPayload(c.resource) {
      var i :| 0 <= i < |demoted| && demoted[i] == c;
      assert c.resource == cs[i].resource && cs[i] in cs;
    }
  }

  /** A run whose only movement is the delete of `g`. */
  lemma OnlyDeletes(w: World, l0: Ledger, d: Desired, env: Env, g: GraphId)
    requires Paired(l0.resources) && Declared(d) && env.probes == [] && NoPayloads(l0.resources, d)
    requires forall h :: Graph(h) !in d.digests
    requires forall h :: Deleting(l0.resources, d, env.artifacts, {}, h) <==> h == g
    ensures var x := Execute(w, l0, d, env); x.paid == Paid(Start(w), true) && x.deleted == DeleteOne(Start(w), g, d, env)
  {
    var x := Execute(w, l0, d, env);
    var res, arts := l0.resources, env.artifacts;
    assert x.swept == Swept(l0, NoOutcome);
    CreateList(res, d, arts, {});
    SomebodyListed(ToRun(x.plan, Create, false));
    MigrateList(res, d, arts, {});
    SomebodyListed(ToRun(x.plan, Update, true));
    PlanNeedsNoPayload(res, d, arts, {}, map[]);
    NothingToPay(Paid(Start(w), true), x.demoted, env);
    DeleteList(res, d, arts, {}, map[]);
    OneListed(ToRun(x.demoted, Delete, false), g);
    OneDelete(Start(w), g, d, env);
  }

  lemma OneDelete(r: Run, g: GraphId, d: Desired, env: Env)
    ensures RunDeletes(r, [g], d, env) == DeleteOne(r, g, d, env)
  {
    assert [g][1..] == [];
    assert RunDeletes(DeleteOne(r, g, d, env), [], d, env) == DeleteOne(r, g, d, env);
  }

  lemma OneCreate(r: Run, g: GraphId, d: Desired, env: Env)
    ensures RunCreates(r, [g], d, env) == CreateOne(r, g, d, env)
  {
    assert [g][1..] == [];
    assert RunCreates(CreateOne(r, g, d, env), [], d, env) == CreateOne(r, g, d, env);
  }

  /** A run that creates `g` first. */
  lemma OnlyCreates(w: World, l0: Ledger, d: Desired, env: Env, g: GraphId)
    requires var swept := SweepLedger(l0, env.probes);
             && Paired(swept.ledger.resources) && Declared(d)
             && forall h :: Creating(swept.ledger.resources, d, swept.outcome.pending, h) <==> h == g
    ensures Execute(w, l0, d, env).created == CreateOne(Start(w), g, d, env)
  {
    var swept := SweepLedger(l0, env.probes);
    CreateList(swept.ledger.resources, d, env.artifacts, swept.outcome.pending);
    OneListed(ToRun(ClassifiedPlan(swept.ledger.resources, d, env.artifacts, swept.outcome.pending), Create, false), g);
    OneCreate(Start(w), g, d, env);
  }

  // ---- a create intent retired unseen ----

  /** Everything succeeds; a graph's operation id is its name behind `prefix`. */
  function Env0(probes: seq<Probe>, artifacts: Artifacts, source: string, prefix: string): Env {
    Env(None, probes, artifacts, _ => Some(source), g => prefix + g, _ => Done, _ => InitOk, _ => true, _ => MigrateOk, _ => true,
        _ => RemoveOk, _ => true, Done, _ => true, [], _ => true)
  }

  lemma OpsAreFresh(env: Env, prefix: string, w: World)
    requires (forall g :: env.op(g) == prefix + g) && forall g :: prefix + g !in w.sidecars
    ensures FreshOps(env, w)
  {
    forall g, h | env.op(g) == env.op(h) ensures g == h { assert (prefix + g)[|prefix|..] == g && (prefix + h)[|prefix|..] == h; }
  }

  const DeleteIntent := Sidecar(GraphDelete, "g", Raw(""), Some("a"), None)
  const CreateIntent := Sidecar(GraphCreate, "g", V1, None, None)

  function Approved(digest: Digest): Artifacts {
    [("a", Approval(Graph("g"), Raw("none"), Some(digest), None, false))]
  }

  lemma EmptyConfig() returns (d: Desired)
    ensures Configured(NoGraphs(), d) && d.configDigest == Raw("none") && d.graphs == []
  {
    ValidNoGraphs(NoGraphs());
    d := Configure(NoGraphs(), Raw("none"));
    forall dg ensures dg !in d.graphs { assert dg in d.graphs ==> FromRaw(NoGraphs(), dg); }
    SomebodyDeclared(d.graphs);
  }

  lemma DeleteIsApproved(res: Resources, d: Desired)
    requires Graph("g") in res && d.configDigest == Raw("none")
    ensures DeleteApproved(res, d, Approved(res[Graph("g")].digest), "g")
  {
    var art := Approved(res[Graph("g")].digest)[0].1;
    assert !art.consumed && art.resource == Graph("g") && art.config == d.configDigest
      && art.before == Some(res[Graph("g")].digest) && art.after == None;
  }

  /** The world the story starts in, known by what it needs. */
  ghost predicate Begun(w: World, res: Resources) {
    Genesis(w) && w.ledger == Some(LedgerOf(res)) && Entries(res) && w.sidecars == map[] && w.live == map["g" := Open(V0)]
  }

  /** The run of the first command: everything succeeds, and the delete of `g` is approved. */
  ghost predicate DeletingEnv(env: Env, res: Resources) {
    Graph("g") in res && env == Env0([], Approved(res[Graph("g")].digest), "", "")
  }

  function Removed(w: World): World {
    w.(live := map["g" := Absent], sidecars := map["g" := DeleteIntent])
  }

  function Recreated(w: World): World {
    w.(live := map["g" := Open(V1)], sidecars := map["g" := DeleteIntent, "cg" := CreateIntent])
  }

  lemma DeleteWorld(w: World, d: Desired, env: Env, res: Resources)
    requires w.sidecars == map[] && w.live == map["g" := Open(V0)] && d.configDigest == Raw("none") && DeletingEnv(env, res)
    ensures exists e :: e in DeleteOne(Start(w), "g", d, env).log && e.world == Removed(w)
  {
    assert "" + "g" == "g";
    assert Consumable(Approved(res[Graph("g")].digest), "g", Raw("none")) == Some("a");
    var r1 := PutSidecar(Start(w), "g", DeleteIntent);
    var r2 := MoveRoot(r1, RemoveCalled("g", true), "g", Absent);
    assert w.live["g" := Absent] == map["g" := Absent] && w.sidecars["g" := DeleteIntent] == map["g" := DeleteIntent];
    assert r2.world == Removed(w);
    assert Entry(RemoveCalled("g", true), Removed(w)) in r2.log;
    assert DeleteOne(Start(w), "g", d, env).log == r2.log;
  }

  lemma DeclaredIff(raw: RawConfig, d: Desired, a: Address)
    requires BuiltFrom(raw, d)
    ensures a in d.digests <==> IsDeclared(raw, a)
  {
  }

  lemma DeclaresNone(d: Desired)
    requires Configured(NoGraphs(), d)
    ensures forall a :: a in d.digests <==> a == EmbeddingProvider("p")
  {
    forall a ensures a in d.digests <==> a == EmbeddingProvider("p") { DeclaredIff(NoGraphs(), d, a); }
  }

  lemma DeletesG(res: Resources, d: Desired, env: Env)
    requires Configured(NoGraphs(), d) && Entries(res) && d.configDigest == Raw("none") && DeletingEnv(env, res)
    ensures NoPayloads(res, d) && (forall h :: Graph(h) !in d.digests)
    ensures forall h :: Deleting(res, d, env.artifacts, {}, h) <==> h == "g"
  {
    DeclaresNone(d);
    DeleteIsApproved(res, d);
  }

  /** First command: the approved delete removes the root and crashes there. */
  lemma RemovalCrashes(w: World, res: Resources, d: Desired, env: Env)
    requires Begun(w, res) && Configured(NoGraphs(), d) && d.configDigest == Raw("none") && DeletingEnv(env, res)
    ensures CommandAdmissible(w, ApplyWith(d, env)) && Leaves(w, ApplyWith(d, env), Removed(w))
  {
    BeginsAdmissibly(w, d, env, res);
    DeletesG(res, d, env);
    DeleteWorld(w, d, env, res);
    var e :| e in DeleteOne(Start(w), "g", d, env).log && e.world == Removed(w);
    DeleteIsLeft(w, LedgerOf(res), d, env, "g", e);
  }

  lemma BeginsAdmissibly(w: World, d: Desired, env: Env, res: Resources)
    requires w.sidecars == map[] && Declared(d) && DeletingEnv(env, res)
    ensures Admissible(w, d, env)
  {
    OpsAreFresh(env, "", w);
  }

  lemma DeleteIsLeft(w: World, l0: Ledger, d: Desired, env: Env, g: GraphId, e: Entry)
    requires w.ledger == Some(l0) && AllBound(l0.resources)
    requires Paired(l0.resources) && Declared(d) && env.probes == [] && NoPayloads(l0.resources, d)
    requires forall h :: Graph(h) !in d.digests
    requires forall h :: Deleting(l0.resources, d, env.artifacts, {}, h) <==> h == g
    requires e in DeleteOne(Start(w), g, d, env).log
    ensures Leaves(w, ApplyWith(d, env), e.world)
  {
    OnlyDeletes(w, l0, d, env, g);
    PhasesAreLeft(w, l0, d, env, e);
  }

  function GoneProbe(): Probe {
    Probe("g", DeleteIntent, Absent)
  }

  /** Sweeping the delete intent over the removed root tombstones `g`, in memory. */
  lemma SweptAway(l0: Ledger, ps: seq<Probe>)
    requires Graph("g") in l0.resources && ps == [GoneProbe()]
    ensures var st := SweepLedger(l0, ps); st.ledger.resources == Pruned(l0.resources, "g") && st.outcome.pending == {}
  {
    var st := Swept(l0, NoOutcome);
    assert ps[1..] == [];
    assert SweepAll(st, ps) == SweepAll(SweepOne(st, ps[0]), ps[1..]);
    SweepOneSummary(st, ps[0]);
  }

  lemma NoGraphLeft(res: Resources)
    requires Entries(res)
    ensures forall h: GraphId :: Graph(h) !in Pruned(res, "g")
    ensures Paired(Pruned(res, "g"))
  {
    PrunedFacts(res, "g");
  }

  /** The steps of a create in which nothing fails. */
  lemma CreateSteps(r: Run, g: GraphId, d: Desired, env: Env, dg: DesiredGraph)
    requires !r.aborted && FindGraph(d.graphs, g) == Some(dg) && SourceIntact(env, dg) && env.putSidecar(g) == Done && env.init(g) == InitOk
    ensures var w := r.world.(sidecars := r.world.sidecars[env.op(g) := Sidecar(GraphCreate, g, dg.schemaDigest, None, env.actor)],
                              live := r.world.live[g := Open(dg.schemaDigest)]);
            Entry(InitCalled(g, true), w) in CreateOne(r, g, d, env).log
  {
  }

  lemma DeclaresG(d: Desired, schema: Digest) returns (dg: DesiredGraph)
    requires Configured(OneGraph(schema), d)
    ensures FindGraph(d.graphs, "g") == Some(dg) && dg.schemaDigest == schema && dg.id == "g"
  {
    assert "g" in OneGraph(schema).graphs;
    dg := FindGraph(d.graphs, "g").value;
    assert FromRaw(OneGraph(schema), dg);
  }

  lemma CreateWorld(w: World, d: Desired, env: Env)
    requires Configured(OneGraph(V1), d) && env == Env0([GoneProbe()], [], "v1", "c")
    ensures exists e :: e in CreateOne(Start(Removed(w)), "g", d, env).log && e.world == Recreated(w)
  {
    var dg := DeclaresG(d, V1);
    CreateSteps(Start(Removed(w)), "g", d, env, dg);
    SameRecreated(w, env);
    assert Entry(InitCalled("g", true), Recreated(w)) in CreateOne(Start(Removed(w)), "g", d, env).log;
  }

  lemma SameRecreated(w: World, env: Env)
    requires env.op("g") == "c" + "g"
    ensures var w1 := Removed(w); w1.(sidecars := w1.sidecars[env.op("g") := CreateIntent], live := w1.live["g" := Open(V1)]) == Recreated(w)
  {
    assert "c" + "g" == "cg";
    assert map["g" := Absent]["g" := Open(V1)] == map["g" := Open(V1)];
    assert map["g" := DeleteIntent]["cg" := CreateIntent] == map["g" := DeleteIntent, "cg" := CreateIntent];
  }

  lemma GraphDeclaredIff(d: Desired, schema: Digest, h: GraphId)
    requires BuiltFrom(OneGraph(schema), d)
    ensures Graph(h) in d.digests <==> h == "g"
  {
    DeclaredIff(OneGraph(schema), d, Graph(h));
  }

  lemma CreatesG(d: Desired, res: Resources)
    requires BuiltFrom(OneGraph(V1), d) && forall h: GraphId :: Graph(h) !in res
    ensures forall h :: Creating(res, d, {}, h) <==> h == "g"
  {
    forall h ensures Creating(res, d, {}, h) <==> h == "g" { GraphDeclaredIff(d, V1, h); }
  }

  lemma ResumesAdmissibly(w: World, d: Desired, env: Env)
    requires Declared(d) && env == Env0([GoneProbe()], [], "v1", "c")
    ensures Admissible(Removed(w), d, env)
  {
    NotPrefixed(Removed(w));
    OpsAreFresh(env, "c", Removed(w));
    GoneIsListed(w, env.probes);
  }

  lemma NotPrefixed(w: World)
    requires w.sidecars.Keys == {"g"}
    ensures forall g: GraphId :: "c" + g !in w.sidecars
  {
    forall g: GraphId ensures "c" + g !in w.sidecars { assert ("c" + g)[0] == 'c'; }
  }

  lemma GoneIsListed(w: World, ps: seq<Probe>)
    requires ps == [GoneProbe()]
    ensures Listing(ps, Removed(w).sidecars, Removed(w).live)
  {
    assert RootOf(Removed(w).live, "g") == Absent;
  }

  lemma CreateIsLeft(w: World, l0: Ledger, d: Desired, env: Env, g: GraphId, e: Entry)
    requires w.ledger == Some(l0) && AllBound(l0.resources) && Declared(d)
    requires var st := SweepLedger(l0, env.probes);
             && Paired(st.ledger.resources) && st.outcome.pending == {}
             && forall h :: Creating(st.ledger.resources, d, {}, h) <==> h == g
    requires e in CreateOne(Start(w), g, d, env).log
    ensures Leaves(w, ApplyWith(d, env), e.world)
  {
    OnlyCreates(w, l0, d, env, g);
    PhasesAreLeft(w, l0, d, env, e);
  }

  /** Second command: the graph is declared again, recreated at V1, and the run crashes before the ledger is written. */
  lemma RecreationCrashes(w: World, res: Resources, d: Desired, env: Env)
    requires Begun(w, res) && Configured(OneGraph(V1), d) && env == Env0([GoneProbe()], [], "v1", "c")
    ensures CommandAdmissible(Removed(w), ApplyWith(d, env)) && Leaves(Removed(w), ApplyWith(d, env), Recreated(w))
  {
    var l0 := LedgerOf(res);
    ResumesAdmissibly(w, d, env);
    SweptAway(l0, env.probes);
    NoGraphLeft(res);
    CreatesG(d, Pruned(res, "g"));
    CreateWorld(w, d, env);
    var e :| e in CreateOne(Start(Removed(w)), "g", d, env).log && e.world == Recreated(w);
    CreateIsLeft(Removed(w), l0, d, env, "g", e);
  }

  function HalfBlind(): seq<Probe> {
    [Probe("g", DeleteIntent, Open(V1)), Probe("cg", CreateIntent, Absent)]
  }

  function Truth(g: GraphId): Root {
    if g == "g" then Open(V1) else Absent
  }

  /** The delete intent is retired because the root exists, the create intent because its probe failed. */
  lemma BothRetired(l0: Ledger, ps: seq<Probe>)
    requires ps == HalfBlind()
    ensures SweepLedger(l0, ps) == Swept(l0, SweepOutcome({}, ["g", "cg"], []))
  {
    var st := Swept(l0, NoOutcome);
    var st1, st2 := SweepOne(st, ps[0]), SweepOne(SweepOne(st, ps[0]), ps[1]);
    assert ps[1..] == [ps[1]] && ps[1..][1..] == [];
    assert SweepAll(st, ps) == SweepAll(st1, ps[1..]);
    assert SweepAll(st1, ps[1..]) == SweepAll(st2, []);
    assert st2.outcome.completed == ["g", "cg"];
  }

  lemma NothingVerified(l: Ledger, w: World, e: SyncEnv)
    requires forall a :: a in l.resources ==> !HasPayload(a)
    ensures Verified(l, w, e).resources == l.resources
  {
    var res' := Verified(l, w, e).resources;
    forall a ensures (a in res' <==> a in l.resources) && (a in res' ==> res'[a] == l.resources[a]) { VerifiedAt(l, w, e, a); }
  }

  function Misled(w: World, l: Ledger): World {
    w.(ledger := Some(l), live := map["g" := Open(V1)], sidecars := map[])
  }

  lemma RetiresBoth(w: World, l: Ledger, e: SyncEnv)
    requires e == Quietly(Truth, HalfBlind())
    ensures SyncWrite(Recreated(w), l, SweepOutcome({}, ["g", "cg"], []), e).world == Misled(w, l)
  {
    var r1 := Step(Start(Recreated(w)), WroteState, Recreated(w).(ledger := Some(l)));
    var ops: seq<OpId> := ["g", "cg"];
    assert ops[1..] == ["cg"] && ops[1..][1..] == [];
    var r2 := DropSidecar(r1, "g", true);
    var r3 := DropSidecar(r2, "cg", true);
    assert DropAll(r1, ops, e.drop) == DropAll(r2, ops[1..], e.drop);
    assert DropAll(r2, ops[1..], e.drop) == DropAll(r3, [], e.drop);
    assert r3.world.sidecars == map[];
  }

  lemma MisledAdmissible(w: World, res: Resources, d: Desired, e: SyncEnv)
    requires w.ledger == Some(LedgerOf(res)) && AllBound(res) && e == Quietly(Truth, HalfBlind())
    ensures SyncAdmissible(Recreated(w), e) && SyncProceeds(Recreated(w), RefreshState, d, e)
  {
    assert RootOf(Recreated(w).live, "g") == Open(V1);
  }

  /** Third command: a refresh whose probe of the create intent fails. */
  lemma RefreshMisleads(w: World, res: Resources, d: Desired, e: SyncEnv) returns (w3: World)
    requires Begun(w, res) && d.graphs == [] && e == Quietly(Truth, HalfBlind())
    ensures CommandAdmissible(Recreated(w), SyncWith(RefreshState, d, e)) && Leaves(Recreated(w), SyncWith(RefreshState, d, e), w3)
    ensures w3.ledger.Some? && ResourcesOf(w3) == res && w3.live == map["g" := Open(V1)] && w3.sidecars == map[]
  {
    var l0, w2 := LedgerOf(res), Recreated(w);
    MisledAdmissible(w, res, d, e);
    BothRetired(l0, e.probes);
    NothingVerified(l0, w2, e);
    var l1 := SyncLedger(l0, w2, d, e);
    var l := l1.(revision := NextRevision(l1.revision));
    RetiresBoth(w, l, e);
    SyncIsLeft(w2, RefreshState, d, e);
    w3 := Misled(w, l);
  }

  lemma ServesStale(w: World, res: Resources, rd: Reads)
    requires w.ledger.Some? && ResourcesOf(w) == res && Entries(res) && w.sidecars == map[] && !rd.badSidecar
    ensures ServeSnapshot(w, rd).Some? && exists x :: x in ServeSnapshot(w, rd).value.graphs && x.graph == "g"
  {
    EntriesAreOk(res, w.blobs, rd, {});
    GathersG(res, {});
    ServesAll(w, rd);
  }

  lemma ServesAll(w: World, rd: Reads)
    requires w.ledger.Some? && w.sidecars == map[] && !rd.badSidecar
    requires forall a :: a in ResourcesOf(w) ==> EntryOk(ResourcesOf(w), w.blobs, rd, {}, a)
    requires GatherGraphs(Sorting.SortedKeys(ResourcesOf(w).Keys), ResourcesOf(w), {}) != []
    ensures ServeSnapshot(w, rd) == Some(SnapshotOf(ResourcesOf(w), w.blobs, {}))
  {
    assert Quarantined(w.sidecars) == {} && !Unattributed(w.sidecars);
  }

  lemma EntriesAreOk(res: Resources, blobs: map<BlobKey, string>, rd: Reads, q: set<GraphId>)
    requires Entries(res)
    ensures forall a :: a in res ==> EntryOk(res, blobs, rd, q, a)
  {
    assert Bound(res, "g");
  }

  lemma GathersG(res: Resources, q: set<GraphId>)
    requires Graph("g") in res && "g" !in q
    ensures exists x :: x in GatherGraphs(Sorting.SortedKeys(res.Keys), res, q) && x.graph == "g"
  {
    var keys := Sorting.SortedKeys(res.Keys);
    GatherGraphsFacts(keys, res, q);
    assert Graph("g") in keys;
    assert ServingGraph("g", EmbeddingOf(res, "g"), GraphPolicy(res, "g")) in GatherGraphs(keys, res, q);
  }

  lemma RemovalCommand(w: World, res: Resources) returns (cmd: Command)
    requires Begun(w, res)
    ensures CommandAdmissible(w, cmd) && Leaves(w, cmd, Removed(w))
  {
    var d := EmptyConfig();
    var env := Env0([], Approved(res[Graph("g")].digest), "", "");
    RemovalCrashes(w, res, d, env);
    cmd := ApplyWith(d, env);
  }

  lemma RecreationCommand(w: World, res: Resources) returns (cmd: Command)
    requires Begun(w, res)
    ensures CommandAdmissible(Removed(w), cmd) && Leaves(Removed(w), cmd, Recreated(w))
  {
    var d := GraphConfig(V1);
    var env := Env0([GoneProbe()], [], "v1", "c");
    RecreationCrashes(w, res, d, env);
    cmd := ApplyWith(d, env);
  }

  lemma MisleadingCommand(w: World, res: Resources) returns (cmd: Command, w3: World)
    requires Begun(w, res)
    ensures CommandAdmissible(Recreated(w), cmd) && Leaves(Recreated(w), cmd, w3)
    ensures w3.ledger.Some? && ResourcesOf(w3) == res && w3.live == map["g" := Open(V1)] && w3.sidecars == map[]
  {
    var d := EmptyConfig();
    var e := Quietly(Truth, HalfBlind());
    w3 := RefreshMisleads(w, res, d, e);
    cmd := SyncWith(RefreshState, d, e);
  }

  lemma StaleHistory() returns (worlds: seq<World>, commands: seq<Command>, res: Resources)
    ensures |worlds| == 4 && History(worlds, commands) && Genesis(worlds[0]) && Entries(res)
    ensures worlds[3].ledger.Some? && ResourcesOf(worlds[3]) == res && worlds[3].sidecars == map[] && worlds[3].live == map["g" := Open(V1)]
  {
    var w;
    w, res := RecordedWorld();
    var c0 := RemovalCommand(w, res);
    var c1 := RecreationCommand(w, res);
    var c2, w3 := MisleadingCommand(w, res);
    worlds, commands := [w, Removed(w), Recreated(w), w3], [c0, c1, c2];
    ThreeCommands(worlds, commands);
  }

  /**
   Three admissible commands from a world in step, after which a server serves `g` at a schema that is not live: a create
   intent was retired over a root its probe did not see, beside the entry an interrupted delete had left stale.
   */
  lemma StaleGraphIsServed(rd: Reads) returns (worlds: seq<World>, commands: seq<Command>)
    requires !rd.badSidecar
    ensures |worlds| == 4 && History(worlds, commands) && Genesis(worlds[0])
    ensures ServeSnapshot(worlds[3], rd).Some? && exists x :: x in ServeSnapshot(worlds[3], rd).value.graphs && x.graph == "g"
    ensures Recorded(ResourcesOf(worlds[3]), "g") == Some(V0) && RootOf(worlds[3].live, "g") == Open(V1) && V0 != V1
  {
    var res;
    worlds, commands, res := StaleHistory();
    ServesStale(worlds[3], res, rd);
  }

  lemma ThreeCommands(worlds: seq<World>, commands: seq<Command>)
    requires |worlds| == 4 && |commands| == 3
    requires CommandAdmissible(worlds[0], commands[0]) && Leaves(worlds[0], commands[0], worlds[1])
    requires CommandAdmissible(worlds[1], commands[1]) && Leaves(worlds[1], commands[1], worlds[2])
    requires CommandAdmissible(worlds[2], commands[2]) && Leaves(worlds[2], commands[2], worlds[3])
    ensures History(worlds, commands)
  {
  }
}
