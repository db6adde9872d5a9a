/** Whole histories: any number of commands, each finishing or crashing anywhere, one lock holder at a time. */
module Protocol {
  import opened Addresses
  import opened Digests
  import opened Ledgers
  import opened Sweep
  import opened Coverage
  import opened Plan
  import opened Classify
  import opened Apply
  import opened ApplySafety
  import opened ApplyIsSafe
  import opened CrashSafety
  import opened ApplyOutcome
  import opened Refresh
  import opened Servability
  import opened Serve

  datatype Command =
    | ApplyWith(d: Desired, env: Env)
    | SyncWith(op: SyncOperation, d: Desired, e: SyncEnv)
    | ApproveWith(id: ApprovalId, approval: Approval)

  /** The storage and engine steps a command takes from `w`, in order. */
  function StepsOf(w: World, cmd: Command): seq<Entry> {
    match cmd
    case ApplyWith(d, env) => ApplyCommand(w, d, env).run.log
    case SyncWith(op, d, e) => SyncCommand(w, op, d, e).log
    case ApproveWith(id, approval) => [Entry(MarkedApproval(id), w.(approvals := w.approvals[id := approval]))]
  }

  /** `w'` is where the command finished or where it crashed: before its first step or after any of them. */
  ghost predicate Leaves(w: World, cmd: Command, w': World) {
    w' == w || exists i :: 0 <= i < |StepsOf(w, cmd)| && StepsOf(w, cmd)[i].world == w'
  }

  ghost predicate CommandAdmissible(w: World, cmd: Command) {
    match cmd
    case ApplyWith(d, env) => Admissible(w, d, env)
    case SyncWith(_, _, e) => SyncAdmissible(w, e)
    case ApproveWith(_, approval) => !approval.consumed
  }

  // ---- what failed existence probes can do ----

  /** The probes of this command lose graph `g`: a root that is there was reported absent, and nothing else covers it. */
  ghost predicate CommandStrands(w: World, cmd: Command, g: GraphId) {
    match cmd
    case ApplyWith(d, env) => w.ledger.Some? && SweepStrands(Swept(w.ledger.value, NoOutcome), env.probes, w.live, w.sidecars, g)
    case SyncWith(op, d, e) => SyncProceeds(w, op, d, e) && SyncStrands(SyncBase(w, op, d), w, d, e, g)
    case ApproveWith(_, _) => false
  }

  /** The probes of this command retire a create intent of `g` unseen, beside a ledger entry that is not the live one. */
  ghost predicate CommandMisleads(w: World, cmd: Command, g: GraphId) {
    match cmd
    case ApplyWith(d, env) => w.ledger.Some? && SweepMisleads(Swept(w.ledger.value, NoOutcome), env.probes, w.live, w.sidecars, g)
    case SyncWith(op, d, e) => SyncProceeds(w, op, d, e) && SyncMisleads(SyncBase(w, op, d), w, d, e, g)
    case ApproveWith(_, _) => false
  }

  /** No existence probe this command takes of `g` fails. */
  ghost predicate CommandSighted(w: World, cmd: Command, g: GraphId) {
    match cmd
    case ApplyWith(d, env) => Sighted(env.probes, w.live, g)
    case SyncWith(op, d, e) => Sighted(e.probes, w.live, g) && !Blind(e.seen(g), RootOf(w.live, g))
    case ApproveWith(_, _) => true
  }

  lemma SightedCommandSpares(w: World, cmd: Command, g: GraphId)
    requires CommandAdmissible(w, cmd) && CommandSighted(w, cmd, g)
    ensures !CommandStrands(w, cmd, g) && !CommandMisleads(w, cmd, g)
  {
    match cmd
    case ApplyWith(d, env) =>
      if w.ledger.Some? { SightedSweepSpares(Swept(w.ledger.value, NoOutcome), env.probes, w, g); }
    case SyncWith(op, d, e) => SightedSweepSpares(Swept(SyncBase(w, op, d), NoOutcome), e.probes, w, g);
    case ApproveWith(_, _) =>
  }

  lemma SightedSweepSpares(st: Swept, ps: seq<Probe>, w: World, g: GraphId)
    requires Listing(ps, w.sidecars, w.live) && Sighted(ps, w.live, g)
    ensures !SweepStrands(st, ps, w.live, w.sidecars, g) && !SweepMisleads(st, ps, w.live, w.sidecars, g)
  {
    SightedNeverStrands(st, ps, w.live, w.sidecars, g);
    if SweepMisleads(st, ps, w.live, w.sidecars, g) { MisleadingStrands(st, ps, w.live, w.sidecars, g); }
  }

  // ---- one command ----

  ghost predicate CoveredIn(w: World, g: GraphId) {
    Covered(ResourcesOf(w), w.live, w.sidecars, g)
  }

  /** The graphs a command may leave uncovered. */
  ghost function AtRisk(w: World, cmd: Command): iset<GraphId> {
    iset g: GraphId | !CoveredIn(w, g) || CommandStrands(w, cmd, g)
  }

  lemma StepsAreSafe(w: World, cmd: Command)
    requires Shaped(w) && CommandAdmissible(w, cmd)
    ensures LogSafe(StepsOf(w, cmd), AtRisk(w, cmd))
  {
    var lost := AtRisk(w, cmd);
    assert forall g :: g !in lost ==> CoveredIn(w, g) && !CommandStrands(w, cmd, g);
    match cmd
    case ApplyWith(d, env) => ApplyKeepsSafe(w, d, env, lost);
    case SyncWith(op, d, e) => SyncKeepsSafe(w, op, d, e, lost);
    case ApproveWith(id, approval) =>
  }

  lemma StepsAreTrusted(w: World, cmd: Command, g: GraphId)
    requires Shaped(w) && CommandAdmissible(w, cmd) && TrustedIn(w, g) && !CommandMisleads(w, cmd, g)
    ensures LogTrusted(StepsOf(w, cmd), g)
  {
    match cmd
    case ApplyWith(d, env) => ApplyKeepsTrust(w, d, env, g);
    case SyncWith(op, d, e) => SyncKeepsTrust(w, op, d, e, g);
    case ApproveWith(id, approval) =>
  }

  /** Wherever a command stops: the world keeps its shape, and each graph stays covered or trusted unless its probes spoil it. */
  lemma CommandKeepsSafe(w: World, cmd: Command, w': World, g: GraphId)
    requires Shaped(w) && CommandAdmissible(w, cmd) && Leaves(w, cmd, w')
    ensures Shaped(w')
    ensures CoveredIn(w, g) && !CommandStrands(w, cmd, g) ==> CoveredIn(w', g)
    ensures TrustedIn(w, g) && !CommandMisleads(w, cmd, g) ==> TrustedIn(w', g)
  {
    if w' != w {
      var i :| 0 <= i < |StepsOf(w, cmd)| && StepsOf(w, cmd)[i].world == w';
      var e := StepsOf(w, cmd)[i];
      assert e in StepsOf(w, cmd);
      StepsAreSafe(w, cmd);
      assert SafeBut(e.world, AtRisk(w, cmd));
      if TrustedIn(w, g) && !CommandMisleads(w, cmd, g) { StepsAreTrusted(w, cmd, g); }
    }
  }

  // ---- histories ----

  /** `worlds[i + 1]` is what command `i` left behind. */
  ghost predicate History(worlds: seq<World>, commands: seq<Command>) {
    && |worlds| == |commands| + 1
    && (forall i :: 0 <= i < |commands| ==> CommandAdmissible(worlds[i], commands[i]) && Leaves(worlds[i], commands[i], worlds[i + 1]))
  }

  ghost predicate Spared(worlds: seq<World>, commands: seq<Command>, j: nat, g: GraphId) {
    j < |worlds| && j < |commands| ==> !CommandStrands(worlds[j], commands[j], g)
  }

  ghost predicate NotMisled(worlds: seq<World>, commands: seq<Command>, j: nat, g: GraphId) {
    j < |worlds| && j < |commands| ==> !CommandMisleads(worlds[j], commands[j], g)
  }

  ghost predicate SightedAt(worlds: seq<World>, commands: seq<Command>, j: nat, g: GraphId) {
    j < |worlds| && j < |commands| ==> CommandSighted(worlds[j], commands[j], g)
  }

  /** A paired ledger exactly in step with storage, with nothing else outstanding. */
  ghost predicate Genesis(w: World) {
    Shaped(w) && forall g :: InStep(ResourcesOf(w), w.live, g)
  }

  lemma HistoryStep(worlds: seq<World>, commands: seq<Command>, i: nat)
    requires History(worlds, commands) && i < |commands|
    ensures CommandAdmissible(worlds[i], commands[i]) && Leaves(worlds[i], commands[i], worlds[i + 1])
  {
  }

  lemma HistoryTurn(worlds: seq<World>, commands: seq<Command>, i: nat, g: GraphId)
    requires History(worlds, commands) && i < |commands| && Shaped(worlds[i])
    ensures Shaped(worlds[i + 1])
    ensures CoveredIn(worlds[i], g) && !CommandStrands(worlds[i], commands[i], g) ==> CoveredIn(worlds[i + 1], g)
    ensures TrustedIn(worlds[i], g) && !CommandMisleads(worlds[i], commands[i], g) ==> TrustedIn(worlds[i + 1], g)
  {
    HistoryStep(worlds, commands, i);
    CommandKeepsSafe(worlds[i], commands[i], worlds[i + 1], g);
  }

  /** What holds at `k` and is passed on by every step up to `i` holds at `i`. */
  lemma {:induction false} Carried(holds: nat -> bool, k: nat, i: nat)
    requires k <= i && holds(k) && forall j :: k <= j < i && holds(j) ==> holds(j + 1)
    ensures holds(i)
    decreases i - k
  {
    if k < i { Carried(holds, k + 1, i); }
  }

  lemma HistoryIsShaped(worlds: seq<World>, commands: seq<Command>, i: nat)
    requires History(worlds, commands) && Shaped(worlds[0]) && i < |worlds|
    ensures Shaped(worlds[i])
  {
    var holds := (j: nat) => j < |worlds| && Shaped(worlds[j]);
    forall j | 0 <= j < i && holds(j) ensures holds(j + 1) { HistoryTurn(worlds, commands, j, ""); }
    Carried(holds, 0, i);
  }

  lemma HistoryCovers(worlds: seq<World>, commands: seq<Command>, i: nat, g: GraphId)
    requires History(worlds, commands) && Shaped(worlds[0]) && i < |worlds| && CoveredIn(worlds[0], g)
    requires forall j :: 0 <= j < i ==> Spared(worlds, commands, j, g)
    ensures CoveredIn(worlds[i], g)
  {
    var holds := (j: nat) => j < |worlds| && CoveredIn(worlds[j], g);
    forall j | 0 <= j < i && holds(j) ensures holds(j + 1) { CoverTurn(worlds, commands, j, g); }
    Carried(holds, 0, i);
  }

  lemma CoverTurn(worlds: seq<World>, commands: seq<Command>, j: nat, g: GraphId)
    requires History(worlds, commands) && Shaped(worlds[0]) && j < |commands|
    requires CoveredIn(worlds[j], g) && Spared(worlds, commands, j, g)
    ensures CoveredIn(worlds[j + 1], g)
  {
    HistoryIsShaped(worlds, commands, j);
    HistoryTurn(worlds, commands, j, g);
  }

  lemma HistoryTrusts(worlds: seq<World>, commands: seq<Command>, i: nat, g: GraphId)
    requires History(worlds, commands) && Shaped(worlds[0]) && i < |worlds| && TrustedIn(worlds[0], g)
    requires forall j :: 0 <= j < i ==> NotMisled(worlds, commands, j, g)
    ensures TrustedIn(worlds[i], g)
  {
    var holds := (j: nat) => j < |worlds| && TrustedIn(worlds[j], g);
    forall j | 0 <= j < i && holds(j) ensures holds(j + 1) { TrustTurn(worlds, commands, j, g); }
    Carried(holds, 0, i);
  }

  lemma TrustTurn(worlds: seq<World>, commands: seq<Command>, j: nat, g: GraphId)
    requires History(worlds, commands) && Shaped(worlds[0]) && j < |commands|
    requires TrustedIn(worlds[j], g) && NotMisled(worlds, commands, j, g)
    ensures TrustedIn(worlds[j + 1], g)
  {
    HistoryIsShaped(worlds, commands, j);
    HistoryTurn(worlds, commands, j, g);
  }

  ghost predicate HasSidecar(w: World, g: GraphId) {
    exists op :: op in w.sidecars && w.sidecars[op].graph == g
  }

  lemma CoveredIsFenced(w: World, g: GraphId)
    requires CoveredIn(w, g)
    ensures InStep(ResourcesOf(w), w.live, g) || HasSidecar(w, g)
  {
  }

  /**
   No lost movement. After any history of applies, refreshes, imports and approvals, however each one ended and whatever
   its probes reported, a graph no probe stranded has its live schema digest recorded, or both are absent, or a recovery
   sidecar for it is still on storage.
   */
  lemma NoLostMovement(worlds: seq<World>, commands: seq<Command>, i: nat, g: GraphId)
    requires History(worlds, commands) && Genesis(worlds[0]) && i < |worlds|
    requires forall j :: 0 <= j < i ==> Spared(worlds, commands, j, g)
    ensures InStep(ResourcesOf(worlds[i]), worlds[i].live, g) || HasSidecar(worlds[i], g)
  {
    assert InStep(ResourcesOf(worlds[0]), worlds[0].live, g);
    HistoryCovers(worlds, commands, i, g);
    CoveredIsFenced(worlds[i], g);
  }

  /** What a history does from `k` on is a history too. */
  lemma LaterHistory(worlds: seq<World>, commands: seq<Command>, k: nat, i: nat, g: GraphId)
    requires History(worlds, commands) && k <= i < |worlds|
    requires forall j :: k <= j < i ==> Spared(worlds, commands, j, g)
    ensures History(worlds[k..], commands[k..])
    ensures forall j :: 0 <= j < i - k ==> Spared(worlds[k..], commands[k..], j, g)
  {
    forall j: nat | j < |commands| - k
      ensures CommandAdmissible(worlds[k..][j], commands[k..][j]) && Leaves(worlds[k..][j], commands[k..][j], worlds[k..][j + 1])
    {
      HistoryStep(worlds, commands, k + j);
    }
    forall j | 0 <= j < i - k ensures Spared(worlds[k..], commands[k..], j, g) {
      assert Spared(worlds, commands, k + j, g);
      assert worlds[k..][j] == worlds[k + j] && commands[k..][j] == commands[k + j];
    }
  }

  /** Probes of other graphs do not matter, and those of `g` only if existence was asked for and the answer was wrong. */
  lemma SightedHistoryLosesNothing(worlds: seq<World>, commands: seq<Command>, i: nat, g: GraphId)
    requires History(worlds, commands) && Genesis(worlds[0]) && i < |worlds|
    requires forall j :: 0 <= j < i ==> SightedAt(worlds, commands, j, g)
    ensures InStep(ResourcesOf(worlds[i]), worlds[i].live, g) || HasSidecar(worlds[i], g)
  {
    forall j | 0 <= j < i ensures Spared(worlds, commands, j, g) {
      HistoryStep(worlds, commands, j);
      assert SightedAt(worlds, commands, j, g);
      SightedCommandSpares(worlds[j], commands[j], g);
    }
    NoLostMovement(worlds, commands, i, g);
  }

  /**
   Adoption. Wherever a history starts, once an import or refresh has finished with an exact, conclusive observation of
   `g`, nothing of it is lost from there on.
   */
  lemma AdoptedGraphsAreNotLost(worlds: seq<World>, commands: seq<Command>, k: nat, i: nat, g: GraphId)
    requires History(worlds, commands) && Shaped(worlds[0]) && k < i < |worlds| && commands[k].SyncWith?
    requires var c, w := commands[k], worlds[k];
             && Observable(c.d.graphs, c.e.seen, g) && c.e.seen(g) == RootOf(w.live, g)
             && SyncCommand(w, c.op, c.d, c.e).log != [] && worlds[k + 1] == SyncCommand(w, c.op, c.d, c.e).world
    requires forall j :: k < j < i ==> Spared(worlds, commands, j, g)
    ensures InStep(ResourcesOf(worlds[i]), worlds[i].live, g) || HasSidecar(worlds[i], g)
  {
    var c := commands[k];
    SyncAdopts(worlds[k], c.op, c.d, c.e, g);
    HistoryIsShaped(worlds, commands, k + 1);
    LaterHistory(worlds, commands, k + 1, i, g);
    HistoryCovers(worlds[k + 1..], commands[k + 1..], i - (k + 1), g);
    CoveredIsFenced(worlds[i], g);
  }

  /**
   In every world such a history leaves, a successful snapshot serves a graph only at its live schema, unless a probe
   retired a create intent of that graph unseen. A failed probe of any other kind can only make the graph unserved.
   */
  lemma ServedGraphsAreInStep(worlds: seq<World>, commands: seq<Command>, i: nat, rd: Reads, x: ServingGraph)
    requires History(worlds, commands) && Genesis(worlds[0]) && i < |worlds|
    requires ServeSnapshot(worlds[i], rd).Some? && x in ServeSnapshot(worlds[i], rd).value.graphs
    requires forall j :: 0 <= j < i ==> NotMisled(worlds, commands, j, x.graph)
    ensures Schema(x.graph) in ResourcesOf(worlds[i])
    ensures RootOf(worlds[i].live, x.graph) == Open(ResourcesOf(worlds[i])[Schema(x.graph)].digest)
  {
    assert InStep(ResourcesOf(worlds[0]), worlds[0].live, x.graph);
    HistoryTrusts(worlds, commands, i, x.graph);
    HistoryIsShaped(worlds, commands, i);
    NeverServeOutOfStep(worlds[i], rd, x);
  }

  /** The approval audit trail spans both stores in every world a history leaves. */
  lemma ApprovalsAreAudited(worlds: seq<World>, commands: seq<Command>, i: nat, id: ApprovalId)
    requires History(worlds, commands) && Genesis(worlds[0]) && i < |worlds|
    ensures id in worlds[i].approvals && worlds[i].approvals[id].consumed ==>
            worlds[i].ledger.Some? && id in worlds[i].ledger.value.approvalRecords
    ensures worlds[i].ledger.Some? ==>
              var l := worlds[i].ledger.value;
              forall a :: a in l.observations && l.observations[a].Tombstone? && l.observations[a].approval == Some(id) ==> id in l.approvalRecords
  {
    HistoryIsShaped(worlds, commands, i);
  }

  // ---- where the assumption on removal is needed ----

  /**
   Row 8 retires the delete intent of any root that still exists. When that sidecar was the graph's only one, the
   graph stays covered exactly if the root is gone or still what the ledger records: a root a removal left half
   deleted is stranded.
   */
  lemma DeleteRetirementSafeIff(l: Ledger, p: Probe, live: map<GraphId, Root>, sc: map<OpId, Sidecar>)
    requires Paired(l.resources) && p.sidecar.kind == GraphDelete
    requires p.op in sc && sc[p.op] == p.sidecar && p.seen == RootOf(live, p.sidecar.graph)
    requires forall op :: op in sc && op != p.op ==> sc[op].graph != p.sidecar.graph
    ensures var st := SweepLedger(l, [p]);
            Covered(st.ledger.resources, live, sc - OpSet(st.outcome.completed), p.sidecar.graph) <==>
            RootOf(live, p.sidecar.graph).Absent? || InStep(l.resources, live, p.sidecar.graph)
  {
    var g := p.sidecar.graph;
    var st := SweepLedger(l, [p]);
    var ps := [p];
    assert ps[1..] == [];
    assert SweepAll(Swept(l, NoOutcome), ps) == SweepAll(SweepOne(Swept(l, NoOutcome), ps[0]), ps[1..]);
    SweepOneSummary(Swept(l, NoOutcome), p);
    PrunedFacts(l.resources, g);
    assert st.outcome.completed == [p.op];
    assert forall op :: op in sc - OpSet([p.op]) ==> sc[op].graph != g;
  }
}
