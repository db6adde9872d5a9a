/** `cluster refresh` and `cluster import`: sweep, verify the catalog, observe the live graphs, write. */
module Refresh {
  import opened Addresses
  import opened Digests
  import opened Sorting
  import opened Ledgers
  import opened Sweep
  import opened Coverage
  import opened SweepFixpoint
  import opened Plan
  import opened Apply
  import opened ApplySafety
  import opened ApplyIsSafe
  import opened CrashSafety

  // ---- catalog verification ----

  datatype Finding = Intact | Missing | Mismatch | ReadError

  /** `verify_catalog_payloads` at one address. */
  function FindingAt(res: Resources, blobs: map<BlobKey, string>, readFails: Address -> bool, a: Address): Finding {
    if a !in res || !HasPayload(a) then Intact
    else if readFails(a) then ReadError
    else if (a, res[a].digest) !in blobs then Missing
    else if ContentDigest(blobs[(a, res[a].digest)]) != res[a].digest then Mismatch
    else Intact
  }

  function VerifyOne(l: Ledger, a: Address, f: Finding): Ledger {
    match f
    case Intact => l
    case Missing => SetStatus(l.(resources := l.resources - {a}), a, StatusDrifted(PayloadMissing))
    case Mismatch => SetStatus(l.(resources := l.resources - {a}), a, StatusDrifted(PayloadMismatch))
    case ReadError => SetStatus(l, a, StatusError(PayloadReadError))
  }

  /** Findings are taken on `res`, the ledger as swept, before any of them is acted on. */
  function VerifyAll(l: Ledger, keys: seq<Address>, res: Resources, blobs: map<BlobKey, string>, readFails: Address -> bool): Ledger
    decreases |keys|
  {
    if keys == [] then l
    else VerifyAll(VerifyOne(l, keys[0], FindingAt(res, blobs, readFails, keys[0])), keys[1..], res, blobs, readFails)
  }

  // ---- graph observation ----

  function ObserveOne(l: Ledger, dg: DesiredGraph, seen: Root): Ledger {
    var g := dg.id;
    match seen
    case Absent =>
      var l1 := l.(resources := l.resources - {Graph(g)} - {Schema(g)},
                   observations := l.observations[Graph(g) := Observed(false, None, dg.schemaDigest, Some(false))]);
      MarkGraph(l1, g, StatusDrifted(GraphMissing))
    case Open(live) =>
      var l1 := l.(resources := RecordLive(l.resources, g, live),
                   observations := l.observations[Graph(g) := Observed(true, Some(live), dg.schemaDigest, Some(live == dg.schemaDigest))]);
      MarkGraph(l1, g, if live == dg.schemaDigest then StatusApplied else StatusDrifted(SchemaMismatch))
    case Partial =>
      var l1 := l.(observations := l.observations[Graph(g) := Observed(true, None, dg.schemaDigest, None)]);
      MarkGraph(l1, g, StatusError(GraphObservationError))
  }

  /** `observe_declared_graphs`. */
  function ObserveAll(l: Ledger, graphs: seq<DesiredGraph>, seen: GraphId -> Root): Ledger
    decreases |graphs|
  {
    if graphs == [] then l else ObserveAll(ObserveOne(l, graphs[0], seen(graphs[0].id)), graphs[1..], seen)
  }

  // ---- the command ----

  datatype SyncOperation = RefreshState | ImportState

  datatype SyncEnv = SyncEnv(probes: seq<Probe>, readFails: Address -> bool, seen: GraphId -> Root,
                             putState: PutResult, drop: OpId -> bool, files: seq<ApprovalId>, mark: ApprovalId -> bool)

  /** `initial_import_state`. */
  function InitialLedger(d: Desired): Ledger {
    Ledger(0, Some(d.configDigest), map[], map[], map[], map[], map[])
  }

  function Verified(l: Ledger, w: World, e: SyncEnv): Ledger {
    VerifyAll(l, SortedKeys(l.resources.Keys), l.resources, w.blobs, e.readFails)
  }

  function SyncLedger(l0: Ledger, w: World, d: Desired, e: SyncEnv): Ledger {
    ObserveAll(Verified(SweepLedger(l0, e.probes).ledger, w, e), d.graphs, e.seen)
  }

  /** Errors that stop an import before its write: an incomplete create, an unreadable blob, an unopenable graph. */
  predicate SyncErrors(l0: Ledger, d: Desired, e: SyncEnv) {
    || (exists i :: 0 <= i < |e.probes| && e.probes[i].sidecar.kind == GraphCreate && e.probes[i].seen.Partial?)
    || (exists a :: a in SweepLedger(l0, e.probes).ledger.resources && HasPayload(a) && e.readFails(a))
    || (exists i :: 0 <= i < |d.graphs| && e.seen(d.graphs[i].id).Partial?)
  }

  /** `sync_config_dir` on a loaded configuration, the lock held. */
  function SyncCommand(w: World, op: SyncOperation, d: Desired, e: SyncEnv): Run {
    if (op == RefreshState) != w.ledger.Some? then Start(w)
    else
      var l0 := if op == RefreshState then w.ledger.value else InitialLedger(d);
      if !AllBound(l0.resources) then Start(w)
      else if op == ImportState && SyncErrors(l0, d, e) then Start(w)
      else
        var swept := SweepLedger(l0, e.probes);
        var l1 := SyncLedger(l0, w, d, e);
        var l2 := l1.(revision := if op == ImportState then 1 else NextRevision(l1.revision));
        SyncWrite(w, l2, swept.outcome, e)
  }

  function SyncWrite(w: World, l: Ledger, outcome: SweepOutcome, e: SyncEnv): Run {
    var r1 := if e.putState == Lost then Start(w) else Step(Start(w), WroteState, w.(ledger := Some(l)));
    if e.putState != Done then r1
    else MarkAll(DropAll(r1, outcome.completed, e.drop), Listed(e.files, outcome.consumed), e.mark)
  }

  // ---- verification touches queries and policies only ----

  lemma {:induction false} VerifyAllAt(l: Ledger, keys: seq<Address>, res: Resources, blobs: map<BlobKey, string>, readFails: Address -> bool, a: Address)
    ensures var l' := VerifyAll(l, keys, res, blobs, readFails);
            var dropped := a in keys && FindingAt(res, blobs, readFails, a) in {Missing, Mismatch};
            && (a in l'.resources <==> a in l.resources && !dropped)
            && (a in l'.resources ==> l'.resources[a] == l.resources[a])
            && l'.observations == l.observations && l'.approvalRecords == l.approvalRecords
    decreases |keys|
  {
    if keys != [] {
      VerifyAllAt(VerifyOne(l, keys[0], FindingAt(res, blobs, readFails, keys[0])), keys[1..], res, blobs, readFails, a);
    }
  }

  /** What verification keeps: everything but the queries and policies whose blob is gone or wrong. */
  lemma VerifiedAt(l: Ledger, w: World, e: SyncEnv, a: Address)
    ensures var res' := Verified(l, w, e).resources;
            && (a in res' <==> a in l.resources && FindingAt(l.resources, w.blobs, e.readFails, a) !in {Missing, Mismatch})
            && (a in res' ==> res'[a] == l.resources[a])
    ensures Verified(l, w, e).observations == l.observations && Verified(l, w, e).approvalRecords == l.approvalRecords
  {
    VerifyAllAt(l, SortedKeys(l.resources.Keys), l.resources, w.blobs, e.readFails, a);
  }

  // ---- observation converges declared graphs to what is live ----

  /** What one observation does to the recorded resources. */
  lemma ObserveOneAt(l: Ledger, dg: DesiredGraph, seen: Root)
    ensures var res, res' := l.resources, ObserveOne(l, dg, seen).resources;
            && (forall a :: a != Graph(dg.id) && a != Schema(dg.id) ==> (a in res' <==> a in res) && (a in res ==> res'[a] == res[a]))
            && (Paired(res) ==> Paired(res')) && (WellKinded(res) ==> WellKinded(res'))
            && (seen.Partial? ==> res' == res)
            && (!seen.Partial? ==> Recorded(res', dg.id) == DigestOf(seen))
  {
    if seen.Open? { RecordLiveFacts(l.resources, dg.id, seen.schema); }
  }

  /**
   One observation, exactly: an observed graph ends covered unless its probe missed an existing root and no sidecar is
   left to cover it; any other graph, and one that did not open, stays as it was.
   */
  lemma ObserveOneCoversIff(l: Ledger, dg: DesiredGraph, seen: Root, live: map<GraphId, Root>, sc: map<OpId, Sidecar>, g: GraphId)
    requires Reports(seen, RootOf(live, dg.id))
    ensures Covered(ObserveOne(l, dg, seen).resources, live, sc, g) <==>
            if g == dg.id && !seen.Partial? then !Blind(seen, RootOf(live, g)) || CoverLeft(sc, RootOf(live, g), g)
            else Covered(l.resources, live, sc, g)
  {
    ObserveOneAt(l, dg, seen);
    assert g != dg.id ==> Recorded(ObserveOne(l, dg, seen).resources, g) == Recorded(l.resources, g);
  }

  /** `g` is declared and its observation is conclusive. */
  predicate Observable(graphs: seq<DesiredGraph>, seen: GraphId -> Root, g: GraphId) {
    !seen(g).Partial? && exists i :: 0 <= i < |graphs| && graphs[i].id == g
  }

  lemma {:induction false} ObserveAllCoversIff(l: Ledger, graphs: seq<DesiredGraph>, seen: GraphId -> Root,
                                               live: map<GraphId, Root>, sc: map<OpId, Sidecar>, g: GraphId)
    requires forall h :: Reports(seen(h), RootOf(live, h))
    ensures Covered(ObserveAll(l, graphs, seen).resources, live, sc, g) <==>
            if Observable(graphs, seen, g) then !Blind(seen(g), RootOf(live, g)) || CoverLeft(sc, RootOf(live, g), g)
            else Covered(l.resources, live, sc, g)
    decreases |graphs|
  {
    if graphs != [] {
      ObserveOneCoversIff(l, graphs[0], seen(graphs[0].id), live, sc, g);
      ObserveAllCoversIff(ObserveOne(l, graphs[0], seen(graphs[0].id)), graphs[1..], seen, live, sc, g);
      assert forall i :: 0 < i < |graphs| ==> graphs[i] == graphs[1..][i - 1];
      assert Observable(graphs, seen, g) <==> (!seen(g).Partial? && graphs[0].id == g) || Observable(graphs[1..], seen, g);
    }
  }

  lemma ObserveOneAudit(l: Ledger, dg: DesiredGraph, seen: Root)
    requires TombstonesAudited(l)
    ensures TombstonesAudited(ObserveOne(l, dg, seen)) && ObserveOne(l, dg, seen).approvalRecords == l.approvalRecords
  {
  }

  lemma {:induction false} ObserveAllShape(l: Ledger, graphs: seq<DesiredGraph>, seen: GraphId -> Root)
    requires Paired(l.resources) && WellKinded(l.resources) && TombstonesAudited(l)
    ensures var l' := ObserveAll(l, graphs, seen);
            Paired(l'.resources) && WellKinded(l'.resources) && TombstonesAudited(l') && l'.approvalRecords == l.approvalRecords
    decreases |graphs|
  {
    if graphs != [] {
      ObserveOneAt(l, graphs[0], seen(graphs[0].id));
      ObserveOneAudit(l, graphs[0], seen(graphs[0].id));
      ObserveAllShape(ObserveOne(l, graphs[0], seen(graphs[0].id)), graphs[1..], seen);
    }
  }

  // ---- crash safety ----

  ghost predicate SyncAdmissible(w: World, e: SyncEnv) {
    Listing(e.probes, w.sidecars, w.live) && forall g :: Reports(e.seen(g), RootOf(w.live, g))
  }

  lemma VerifiedShape(l: Ledger, w: World, e: SyncEnv)
    requires Paired(l.resources) && WellKinded(l.resources) && TombstonesAudited(l)
    ensures var l' := Verified(l, w, e);
            Paired(l'.resources) && WellKinded(l'.resources) && TombstonesAudited(l') && l'.approvalRecords == l.approvalRecords
  {
    var l' := Verified(l, w, e);
    VerifiedAt(l, w, e, Graph(""));
    forall g: GraphId
      ensures Graph(g) in l'.resources <==> Graph(g) in l.resources
      ensures Graph(g) in l.resources ==> l'.resources[Graph(g)] == l.resources[Graph(g)]
      ensures Recorded(l'.resources, g) == Recorded(l.resources, g)
    {
      VerifiedGraph(l, w, e, g);
    }
    ShapeFrame(l.resources, l'.resources);
  }

  /** Verification leaves graph and schema entries alone. */
  lemma VerifiedGraph(l: Ledger, w: World, e: SyncEnv, g: GraphId)
    ensures var res, res' := l.resources, Verified(l, w, e).resources;
            && (Graph(g) in res' <==> Graph(g) in res) && (Graph(g) in res ==> res'[Graph(g)] == res[Graph(g)])
            && Recorded(res', g) == Recorded(res, g)
  {
    VerifiedKeeps(l, w, e, Graph(g));
    VerifiedKeeps(l, w, e, Schema(g));
  }

  lemma VerifiedKeeps(l: Ledger, w: World, e: SyncEnv, a: Address)
    requires !HasPayload(a)
    ensures var res, res' := l.resources, Verified(l, w, e).resources; (a in res' <==> a in res) && (a in res ==> res'[a] == res[a])
  {
    VerifiedAt(l, w, e, a);
  }

  lemma ShapeFrame(res: Resources, res': Resources)
    requires Paired(res) && WellKinded(res)
    requires forall g: GraphId :: Graph(g) in res' <==> Graph(g) in res
    requires forall g: GraphId :: Graph(g) in res ==> res'[Graph(g)] == res[Graph(g)]
    requires forall g: GraphId :: Recorded(res', g) == Recorded(res, g)
    ensures Paired(res') && WellKinded(res')
  {
    forall g: GraphId ensures Graph(g) in res' <==> Schema(g) in res' {
      assert Recorded(res', g) == Recorded(res, g);
    }
  }

  /** The sidecars a sync leaves on storage when every retirement goes through. */
  function SyncKept(l0: Ledger, w: World, e: SyncEnv): map<OpId, Sidecar> {
    w.sidecars - OpSet(SweepLedger(l0, e.probes).outcome.completed)
  }

  /** The probes of a sync lose `g`: its conclusive observation missed the root, or the sweep strands it unobserved. */
  ghost predicate SyncStrands(l0: Ledger, w: World, d: Desired, e: SyncEnv, g: GraphId) {
    if Observable(d.graphs, e.seen, g) then Blind(e.seen(g), RootOf(w.live, g)) && !CoverLeft(SyncKept(l0, w, e), RootOf(w.live, g), g)
    else SweepStrands(Swept(l0, NoOutcome), e.probes, w.live, w.sidecars, g)
  }

  /** Exactly when the ledger a sync writes, with the sidecars it leaves, covers `g`. */

  lemma SyncCoversIff(l0: Ledger, w: World, d: Desired, e: SyncEnv, g: GraphId)
    requires Paired(l0.resources) && SyncAdmissible(w, e)
    ensures Covered(SyncLedger(l0, w, d, e).resources, w.live, SyncKept(l0, w, e), g) <==>
            (Observable(d.graphs, e.seen, g) || Covered(l0.resources, w.live, w.sidecars, g)) && !SyncStrands(l0, w, d, e, g)
  {
    var st, sc := SweepLedger(l0, e.probes), SyncKept(l0, w, e);
    SweepCoversIff(Swept(l0, NoOutcome), e.probes, w.live, w.sidecars, g);
    assert st.outcome.completed[0..] == st.outcome.completed;
    VerifiedGraph(st.ledger, w, e, g);
    ObserveAllCoversIff(Verified(st.ledger, w, e), d.graphs, e.seen, w.live, sc, g);
  }

  lemma SyncLedgerShape(l0: Ledger, w: World, d: Desired, e: SyncEnv)
    requires Paired(l0.resources) && WellKinded(l0.resources) && AllBound(l0.resources) && TombstonesAudited(l0)
    ensures var st, l := SweepLedger(l0, e.probes), SyncLedger(l0, w, d, e);
            && Paired(l.resources) && WellKinded(l.resources) && TombstonesAudited(l)
            && l0.approvalRecords.Keys <= l.approvalRecords.Keys
            && (forall id :: id in st.outcome.consumed ==> id in l.approvalRecords)
  {
    var start := Swept(l0, NoOutcome);
    var st := SweepLedger(l0, e.probes);
    SweepKeepsPaired(start, e.probes);
    SweepKeepsBound(start, e.probes);
    SweepAudited(start, e.probes);
    VerifiedShape(st.ledger, w, e);
    ObserveAllShape(Verified(st.ledger, w, e), d.graphs, e.seen);
  }

  lemma SyncWriteSafe(w: World, l: Ledger, outcome: SweepOutcome, e: SyncEnv, kept: map<OpId, Sidecar>, lost: iset<GraphId>)
    requires SafeBut(w, lost) && SafeOver(w.(ledger := Some(l)), kept, lost)
    requires forall op :: op in outcome.completed ==> op !in kept
    requires forall id :: id in outcome.consumed ==> id in l.approvalRecords
    ensures LogSafe(SyncWrite(w, l, outcome, e).log, lost) && SafeBut(SyncWrite(w, l, outcome, e).world, lost)
  {
    if e.putState != Lost {
      var r1 := Step(Start(w), WroteState, w.(ledger := Some(l)));
      SafeOverIsSafe(r1.world, kept, lost);
      if e.putState == Done { RetireSafe(r1, outcome.completed, Listed(e.files, outcome.consumed), e.drop, e.mark, kept, lost); }
    }
  }

  /** The ledger a sync starts from. */
  function SyncBase(w: World, op: SyncOperation, d: Desired): Ledger {
    if op == RefreshState && w.ledger.Some? then w.ledger.value else InitialLedger(d)
  }

  /** The sync gets as far as its state write. */
  predicate SyncProceeds(w: World, op: SyncOperation, d: Desired, e: SyncEnv) {
    && (op == RefreshState) == w.ledger.Some?
    && AllBound(SyncBase(w, op, d).resources) && !(op == ImportState && SyncErrors(SyncBase(w, op, d), d, e))
  }

  /** Crash safety of refresh and import, for every covered graph that its probes do not strand. */
  lemma SyncKeepsSafe(w: World, op: SyncOperation, d: Desired, e: SyncEnv, lost: iset<GraphId>)
    requires SafeBut(w, lost) && SyncAdmissible(w, e)
    requires SyncProceeds(w, op, d, e) ==> forall g :: g !in lost ==> !SyncStrands(SyncBase(w, op, d), w, d, e, g)
    ensures LogSafe(SyncCommand(w, op, d, e).log, lost) && SafeBut(SyncCommand(w, op, d, e).world, lost)
  {
    var l0 := SyncBase(w, op, d);
    if SyncProceeds(w, op, d, e) {
      assert ResourcesOf(w) == l0.resources;
      SyncLedgerShape(l0, w, d, e);
      var st, l1 := SweepLedger(l0, e.probes), SyncLedger(l0, w, d, e);
      var l2 := l1.(revision := if op == ImportState then 1 else NextRevision(l1.revision));
      forall g | g !in lost ensures Covered(l2.resources, w.live, SyncKept(l0, w, e), g) {
        assert Covered(l0.resources, w.live, w.sidecars, g);
        SyncCoversIff(l0, w, d, e, g);
      }
      SyncWriteSafe(w, l2, st.outcome, e, SyncKept(l0, w, e), lost);
    }
  }

  // ---- adoption ----

  lemma {:induction false} RetirementKeepsLedger(r: Run, ops: seq<OpId>, drop: OpId -> bool)
    ensures var w, w' := r.world, DropAll(r, ops, drop).world; w'.ledger == w.ledger && w'.live == w.live
    decreases |ops|
  {
    if ops != [] { RetirementKeepsLedger(DropSidecar(r, ops[0], drop(ops[0])), ops[1..], drop); }
  }

  lemma {:induction false} MarkingKeepsLedger(r: Run, ids: seq<ApprovalId>, mark: ApprovalId -> bool)
    ensures var w, w' := r.world, MarkAll(r, ids, mark).world; w'.ledger == w.ledger && w'.live == w.live
    decreases |ids|
  {
    if ids != [] { MarkingKeepsLedger(MarkOne(r, ids[0], mark(ids[0])), ids[1..], mark); }
  }

  lemma {:induction false} ObserveAllRecords(l: Ledger, graphs: seq<DesiredGraph>, seen: GraphId -> Root, g: GraphId)
    requires Observable(graphs, seen, g)
    ensures Recorded(ObserveAll(l, graphs, seen).resources, g) == DigestOf(seen(g))
    decreases |graphs|
  {
    var l1 := ObserveOne(l, graphs[0], seen(graphs[0].id));
    ObserveOneAt(l, graphs[0], seen(graphs[0].id));
    if Observable(graphs[1..], seen, g) {
      ObserveAllRecords(l1, graphs[1..], seen, g);
    } else {
      assert forall i :: 0 < i < |graphs| ==> graphs[i] == graphs[1..][i - 1];
      assert graphs[0].id == g;
      ObserveNotAgain(l1, graphs[1..], seen, g);
    }
  }

  lemma {:induction false} ObserveNotAgain(l: Ledger, graphs: seq<DesiredGraph>, seen: GraphId -> Root, g: GraphId)
    requires !Observable(graphs, seen, g)
    ensures Recorded(ObserveAll(l, graphs, seen).resources, g) == Recorded(l.resources, g)
    decreases |graphs|
  {
    if graphs != [] {
      ObserveOneAt(l, graphs[0], seen(graphs[0].id));
      assert forall i :: 0 < i < |graphs| ==> graphs[i] == graphs[1..][i - 1];
      ObserveNotAgain(ObserveOne(l, graphs[0], seen(graphs[0].id)), graphs[1..], seen, g);
    }
  }

  /**
   Adoption. Whatever the world was before, a sync that finishes with its ledger written leaves every declared graph
   whose probe was exact, open or absent, in step with its root.
   */
  lemma SyncAdopts(w: World, op: SyncOperation, d: Desired, e: SyncEnv, g: GraphId)
    requires SyncCommand(w, op, d, e).log != [] && Observable(d.graphs, e.seen, g) && e.seen(g) == RootOf(w.live, g)
    ensures var w' := SyncCommand(w, op, d, e).world; InStep(ResourcesOf(w'), w'.live, g)
  {
    var l0 := SyncBase(w, op, d);
    var l := SyncLedger(l0, w, d, e).(revision := if op == ImportState then 1 else NextRevision(SyncLedger(l0, w, d, e).revision));
    ObserveAllRecords(Verified(SweepLedger(l0, e.probes).ledger, w, e), d.graphs, e.seen, g);
    SyncWriteLedger(w, l, SweepLedger(l0, e.probes).outcome, e);
  }

  lemma SyncWriteLedger(w: World, l: Ledger, outcome: SweepOutcome, e: SyncEnv)
    requires SyncWrite(w, l, outcome, e).log != []
    ensures var w' := SyncWrite(w, l, outcome, e).world; w'.ledger == Some(l) && w'.live == w.live
  {
    var r1 := Step(Start(w), WroteState, w.(ledger := Some(l)));
    RetirementKeepsLedger(r1, outcome.completed, e.drop);
    MarkingKeepsLedger(DropAll(r1, outcome.completed, e.drop), Listed(e.files, outcome.consumed), e.mark);
  }
}
