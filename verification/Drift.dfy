/** The answer of a refresh or import: what it stores about every declared graph and every recorded payload. */
module Drift {
  import opened Addresses
  import opened Digests
  import opened Sorting
  import opened Ledgers
  import opened Sweep
  import opened Plan
  import opened Apply
  import opened ApplyLedger
  import opened Coverage
  import opened Recoveries
  import opened Refresh

  ghost predicate HasStatus(l: Ledger, a: Address, s: Status) {
    a in l.statuses && l.statuses[a] == s
  }

  /** The drift verdict at `a`: each status exactly for the root that calls for it. */
  ghost predicate Judges(l: Ledger, a: Address, declared: Digest, seen: Root) {
    && (HasStatus(l, a, StatusApplied) <==> seen == Open(declared))
    && (HasStatus(l, a, StatusDrifted(SchemaMismatch)) <==> seen.Open? && seen.schema != declared)
    && (HasStatus(l, a, StatusDrifted(GraphMissing)) <==> seen.Absent?)
    && (HasStatus(l, a, StatusError(GraphObservationError)) <==> seen.Partial?)
  }

  /** The four fields of the stored observation. */
  ghost predicate Reported(l: Ledger, g: GraphId, declared: Digest, seen: Root) {
    && Graph(g) in l.observations && l.observations[Graph(g)].Observed?
    && var o := l.observations[Graph(g)];
       && (o.found <==> !seen.Absent?)
       && (forall live :: o.schema == Some(live) <==> seen == Open(live))
       && o.desired == declared
       && (o.matches == Some(true) <==> seen == Open(declared))
       && (o.matches == Some(false) <==> seen.Absent? || (seen.Open? && seen.schema != declared))
       && (o.matches == None <==> seen.Partial?)
  }

  ghost predicate Answers(l: Ledger, dg: DesiredGraph, seen: Root) {
    && Judges(l, Graph(dg.id), dg.schemaDigest, seen) && Judges(l, Schema(dg.id), dg.schemaDigest, seen)
    && Reported(l, dg.id, dg.schemaDigest, seen)
  }

  lemma ObserveOneAnswers(l: Ledger, dg: DesiredGraph, seen: Root)
    ensures Answers(ObserveOne(l, dg, seen), dg, seen)
  {
  }

  /** Nothing of `a` is looked at: it is no declared graph and no schema of one. */
  ghost predicate Unobserved(graphs: seq<DesiredGraph>, a: Address) {
    forall i :: 0 <= i < |graphs| ==> a != Graph(graphs[i].id) && a != Schema(graphs[i].id)
  }

  predicate SameAt(l: Ledger, l': Ledger, a: Address) {
    && (a in l'.resources <==> a in l.resources) && (a in l.resources ==> l'.resources[a] == l.resources[a])
    && (a in l'.statuses <==> a in l.statuses) && (a in l.statuses ==> l'.statuses[a] == l.statuses[a])
    && (a in l'.observations <==> a in l.observations) && (a in l.observations ==> l'.observations[a] == l.observations[a])
  }

  lemma ObserveOneElsewhere(l: Ledger, dg: DesiredGraph, seen: Root, a: Address)
    requires a != Graph(dg.id) && a != Schema(dg.id)
    ensures SameAt(l, ObserveOne(l, dg, seen), a)
  {
    ObserveOneAt(l, dg, seen);
  }

  lemma {:induction false} ObserveAllElsewhere(l: Ledger, graphs: seq<DesiredGraph>, seen: GraphId -> Root, a: Address)
    requires Unobserved(graphs, a)
    ensures SameAt(l, ObserveAll(l, graphs, seen), a)
    decreases |graphs|
  {
    if graphs != [] {
      ObserveOneElsewhere(l, graphs[0], seen(graphs[0].id), a);
      assert forall i :: 0 <= i < |graphs| - 1 ==> graphs[1..][i] == graphs[i + 1];
      ObserveAllElsewhere(ObserveOne(l, graphs[0], seen(graphs[0].id)), graphs[1..], seen, a);
    }
  }

  lemma AnswersFrame(l: Ledger, l': Ledger, dg: DesiredGraph, seen: Root)
    requires Answers(l, dg, seen) && SameAt(l, l', Graph(dg.id)) && SameAt(l, l', Schema(dg.id))
    ensures Answers(l', dg, seen)
  {
  }

  lemma {:induction false} ObserveAllAnswers(l: Ledger, graphs: seq<DesiredGraph>, seen: GraphId -> Root, k: nat)
    requires DistinctIds(graphs) && k < |graphs|
    ensures Answers(ObserveAll(l, graphs, seen), graphs[k], seen(graphs[k].id))
    decreases |graphs|
  {
    var l1, rest := ObserveOne(l, graphs[0], seen(graphs[0].id)), graphs[1..];
    assert forall i :: 0 <= i < |rest| ==> rest[i] == graphs[i + 1];
    if k == 0 {
      ObserveOneAnswers(l, graphs[0], seen(graphs[0].id));
      ObserveAllElsewhere(l1, rest, seen, Graph(graphs[0].id));
      ObserveAllElsewhere(l1, rest, seen, Schema(graphs[0].id));
      AnswersFrame(l1, ObserveAll(l1, rest, seen), graphs[0], seen(graphs[0].id));
    } else {
      ObserveAllAnswers(l1, rest, seen, k - 1);
    }
  }

  // ---- payloads ----

  /** What verification says of the entry at `a` of the swept ledger `l`, and what it does to it. */
  ghost predicate PayloadAnswer(l: Ledger, blobs: map<BlobKey, string>, fails: bool, l': Ledger, a: Address)
    requires a in l.resources && HasPayload(a)
  {
    var digest := l.resources[a].digest;
    if fails then HasStatus(l', a, StatusError(PayloadReadError)) && a in l'.resources && l'.resources[a] == l.resources[a]
    else if (a, digest) !in blobs then HasStatus(l', a, StatusDrifted(PayloadMissing)) && a !in l'.resources
    else if ContentDigest(blobs[(a, digest)]) != digest then HasStatus(l', a, StatusDrifted(PayloadMismatch)) && a !in l'.resources
    else SameAt(l, l', a)
  }

  lemma VerifyOneElsewhere(l: Ledger, b: Address, f: Finding, a: Address)
    requires a != b || f == Intact
    ensures SameAt(l, VerifyOne(l, b, f), a)
  {
  }

  lemma {:induction false} VerifyElsewhere(l: Ledger, keys: seq<Address>, res: Resources, blobs: map<BlobKey, string>, readFails: Address -> bool, a: Address)
    requires a !in keys || FindingAt(res, blobs, readFails, a) == Intact
    ensures SameAt(l, VerifyAll(l, keys, res, blobs, readFails), a)
    decreases |keys|
  {
    if keys != [] {
      var f := FindingAt(res, blobs, readFails, keys[0]);
      var l1 := VerifyOne(l, keys[0], f);
      VerifyOneElsewhere(l, keys[0], f, a);
      VerifyElsewhere(l1, keys[1..], res, blobs, readFails, a);
      SameAtTrans(l, l1, VerifyAll(l1, keys[1..], res, blobs, readFails), a);
    }
  }

  lemma VerifyOneHere(l: Ledger, res: Resources, blobs: map<BlobKey, string>, readFails: Address -> bool, a: Address)
    requires a in res && a in l.resources && l.resources[a] == res[a] && HasPayload(a)
    ensures PayloadAnswer(l, blobs, readFails(a), VerifyOne(l, a, FindingAt(res, blobs, readFails, a)), a)
  {
  }

  lemma PayloadBase(l: Ledger, l1: Ledger, blobs: map<BlobKey, string>, fails: bool, l2: Ledger, a: Address)
    requires a in l.resources && HasPayload(a) && SameAt(l, l1, a) && PayloadAnswer(l1, blobs, fails, l2, a)
    ensures PayloadAnswer(l, blobs, fails, l2, a)
  {
  }

  lemma {:induction false} VerifyHere(l: Ledger, keys: seq<Address>, res: Resources, blobs: map<BlobKey, string>, readFails: Address -> bool, a: Address)
    requires Sorted(keys) && a in keys && a in res && a in l.resources && l.resources[a] == res[a] && HasPayload(a)
    ensures PayloadAnswer(l, blobs, readFails(a), VerifyAll(l, keys, res, blobs, readFails), a)
    decreases |keys|
  {
    var f := FindingAt(res, blobs, readFails, keys[0]);
    var l1, rest := VerifyOne(l, keys[0], f), keys[1..];
    if keys[0] == a {
      BeforeIrreflexive(a);
      VerifyElsewhere(l1, rest, res, blobs, readFails, a);
      VerifyOneHere(l, res, blobs, readFails, a);
      PayloadFrame(l, blobs, readFails(a), l1, VerifyAll(l1, rest, res, blobs, readFails), a);
    } else {
      VerifyOneElsewhere(l, keys[0], f, a);
      VerifyHere(l1, rest, res, blobs, readFails, a);
      PayloadBase(l, l1, blobs, readFails(a), VerifyAll(l1, rest, res, blobs, readFails), a);
    }
  }

  // ---- the written ledger ----

  lemma WrittenLedger(w: World, op: SyncOperation, d: Desired, e: SyncEnv)
    requires SyncCommand(w, op, d, e).log != []
    ensures var l := SyncLedger(SyncBase(w, op, d), w, d, e);
            SyncCommand(w, op, d, e).world.ledger == Some(l.(revision := if op == ImportState then 1 else NextRevision(l.revision)))
  {
    var l0 := SyncBase(w, op, d);
    var l := SyncLedger(l0, w, d, e);
    SyncWriteLedger(w, l.(revision := if op == ImportState then 1 else NextRevision(l.revision)), SweepLedger(l0, e.probes).outcome, e);
  }

  /**
   The drift answer. On the ledger a sync writes, every declared graph and its schema are Applied exactly if the probe
   opened at the declared digest, and drifted, missing or in error exactly if it opened elsewhere, found nothing or did
   not open; and the stored observation says the same in its four fields.
   */
  lemma SyncAnswers(w: World, op: SyncOperation, d: Desired, e: SyncEnv, dg: DesiredGraph)
    requires SyncCommand(w, op, d, e).log != [] && DistinctIds(d.graphs) && dg in d.graphs
    ensures var w' := SyncCommand(w, op, d, e).world; w'.ledger.Some? && Answers(w'.ledger.value, dg, e.seen(dg.id))
  {
    var l := Verified(SweepLedger(SyncBase(w, op, d), e.probes).ledger, w, e);
    var k :| 0 <= k < |d.graphs| && d.graphs[k] == dg;
    ObserveAllAnswers(l, d.graphs, e.seen, k);
    WrittenLedger(w, op, d, e);
    AnswersFrame(ObserveAll(l, d.graphs, e.seen), SyncCommand(w, op, d, e).world.ledger.value, dg, e.seen(dg.id));
  }

  /** Every recorded query and policy of the swept ledger: in error, dropped as missing or corrupt, or left as it is. */
  lemma SyncPayloads(w: World, op: SyncOperation, d: Desired, e: SyncEnv, a: Address)
    requires SyncCommand(w, op, d, e).log != [] && HasPayload(a) && a in SweepLedger(SyncBase(w, op, d), e.probes).ledger.resources
    ensures var l, w' := SweepLedger(SyncBase(w, op, d), e.probes).ledger, SyncCommand(w, op, d, e).world;
            w'.ledger.Some? && PayloadAnswer(l, w.blobs, e.readFails(a), w'.ledger.value, a)
  {
    var l := SweepLedger(SyncBase(w, op, d), e.probes).ledger;
    VerifyHere(l, SortedKeys(l.resources.Keys), l.resources, w.blobs, e.readFails, a);
    ObserveAllElsewhere(Verified(l, w, e), d.graphs, e.seen, a);
    WrittenLedger(w, op, d, e);
    PayloadFrame(l, w.blobs, e.readFails(a), Verified(l, w, e), SyncCommand(w, op, d, e).world.ledger.value, a);
  }

  lemma PayloadFrame(l: Ledger, blobs: map<BlobKey, string>, fails: bool, l1: Ledger, l2: Ledger, a: Address)
    requires a in l.resources && HasPayload(a) && PayloadAnswer(l, blobs, fails, l1, a) && SameAt(l1, l2, a)
    ensures PayloadAnswer(l, blobs, fails, l2, a)
  {
  }

  /** An address that is neither declared graph, declared schema nor recorded payload is stored as the sweep left it. */
  lemma SyncElsewhere(w: World, op: SyncOperation, d: Desired, e: SyncEnv, a: Address)
    requires SyncCommand(w, op, d, e).log != [] && Unobserved(d.graphs, a)
    requires !HasPayload(a) || a !in SweepLedger(SyncBase(w, op, d), e.probes).ledger.resources
    ensures var l, w' := SweepLedger(SyncBase(w, op, d), e.probes).ledger, SyncCommand(w, op, d, e).world;
            w'.ledger.Some? && SameAt(l, w'.ledger.value, a)
  {
    var l := SweepLedger(SyncBase(w, op, d), e.probes).ledger;
    VerifyElsewhere(l, SortedKeys(l.resources.Keys), l.resources, w.blobs, e.readFails, a);
    ObserveAllElsewhere(Verified(l, w, e), d.graphs, e.seen, a);
    WrittenLedger(w, op, d, e);
    SameAtTrans(l, Verified(l, w, e), SyncCommand(w, op, d, e).world.ledger.value, a);
  }

  lemma SameAtTrans(l: Ledger, l1: Ledger, l2: Ledger, a: Address)
    requires SameAt(l, l1, a) && SameAt(l1, l2, a)
    ensures SameAt(l, l2, a)
  {
  }

  // ---- revision and config digest ----

  lemma {:induction false} VerifyHeader(l: Ledger, keys: seq<Address>, res: Resources, blobs: map<BlobKey, string>, readFails: Address -> bool)
    ensures SameHeader(l, VerifyAll(l, keys, res, blobs, readFails))
    decreases |keys|
  {
    if keys != [] { VerifyHeader(VerifyOne(l, keys[0], FindingAt(res, blobs, readFails, keys[0])), keys[1..], res, blobs, readFails); }
  }

  lemma {:induction false} ObserveHeader(l: Ledger, graphs: seq<DesiredGraph>, seen: GraphId -> Root)
    ensures SameHeader(l, ObserveAll(l, graphs, seen))
    decreases |graphs|
  {
    if graphs != [] { ObserveHeader(ObserveOne(l, graphs[0], seen(graphs[0].id)), graphs[1..], seen); }
  }

  /** A refresh counts one revision up and names the configuration applied before; an import starts at one with its own. */
  lemma SyncedHeader(w: World, op: SyncOperation, d: Desired, e: SyncEnv)
    requires SyncCommand(w, op, d, e).log != []
    ensures var l' := SyncCommand(w, op, d, e).world.ledger;
            l'.Some? && match op
                        case ImportState => l'.value.revision == 1 && l'.value.configDigest == Some(d.configDigest)
                        case RefreshState =>
                          && w.ledger.Some? && l'.value.revision == NextRevision(w.ledger.value.revision)
                          && l'.value.configDigest == w.ledger.value.configDigest
  {
    var l0 := SyncBase(w, op, d);
    var l := SweepLedger(l0, e.probes).ledger;
    WrittenLedger(w, op, d, e);
    SweepHeader(Swept(l0, NoOutcome), e.probes);
    VerifyHeader(l, SortedKeys(l.resources.Keys), l.resources, w.blobs, e.readFails);
    ObserveHeader(Verified(l, w, e), d.graphs, e.seen);
  }

  // ---- what stops a sync ----

  ghost predicate Incomplete(ps: seq<Probe>) {
    exists p :: p in ps && p.sidecar.kind == GraphCreate && p.seen.Partial?
  }

  ghost predicate Unopened(graphs: seq<DesiredGraph>, seen: GraphId -> Root) {
    exists dg :: dg in graphs && seen(dg.id).Partial?
  }

  /** No query or policy is recorded. */
  ghost predicate NoPayloads(res: Resources) {
    forall a :: a in res ==> !HasPayload(a)
  }

  ghost predicate NoErrors(l: Ledger) {
    forall a :: a in l.statuses ==> !l.statuses[a].StatusError?
  }

  lemma SweepOneBare(st: Swept, p: Probe)
    requires NoPayloads(st.ledger.resources)
    ensures NoPayloads(SweepOne(st, p).ledger.resources)
  {
    SweepOneSummary(st, p);
    match EffectOf(st.ledger.resources, p)
    case Nothing =>
    case Records(live) => RecordLiveFacts(st.ledger.resources, p.sidecar.graph, live);
    case Removes => PrunedFacts(st.ledger.resources, p.sidecar.graph);
  }

  lemma SweepOneClean(st: Swept, p: Probe)
    requires NoErrors(st.ledger) && !(p.sidecar.kind == GraphCreate && p.seen.Partial?)
    ensures NoErrors(SweepOne(st, p).ledger)
  {
    var l' := SweepOne(st, p).ledger;
    forall a | a in l'.statuses ensures !l'.statuses[a].StatusError? { StepStatuses(st, p, a); }
  }

  lemma {:induction false} SweepClean(st: Swept, ps: seq<Probe>)
    requires NoPayloads(st.ledger.resources)
    ensures NoPayloads(SweepAll(st, ps).ledger.resources)
    ensures NoErrors(st.ledger) && !Incomplete(ps) ==> NoErrors(SweepAll(st, ps).ledger)
    decreases |ps|
  {
    if ps != [] {
      assert ps[0] in ps;
      SweepOneBare(st, ps[0]);
      if NoErrors(st.ledger) && !Incomplete(ps) { SweepOneClean(st, ps[0]); }
      SweepClean(SweepOne(st, ps[0]), ps[1..]);
    }
  }

  lemma ImportErrorsIff(d: Desired, e: SyncEnv)
    ensures SyncErrors(InitialLedger(d), d, e) <==> Incomplete(e.probes) || Unopened(d.graphs, e.seen)
  {
    SweepClean(Swept(InitialLedger(d), NoOutcome), e.probes);
    if Incomplete(e.probes) {
      var p :| p in e.probes && p.sidecar.kind == GraphCreate && p.seen.Partial?;
      var i :| 0 <= i < |e.probes| && e.probes[i] == p;
    }
    if Unopened(d.graphs, e.seen) {
      var dg :| dg in d.graphs && e.seen(dg.id).Partial?;
      var i :| 0 <= i < |d.graphs| && d.graphs[i] == dg;
    }
  }

  /** An import is refused exactly over an existing ledger, an incomplete create or a declared graph that does not open. */
  lemma ImportWritesIff(w: World, d: Desired, e: SyncEnv)
    ensures SyncCommand(w, ImportState, d, e).log != [] <==>
            w.ledger.None? && !Incomplete(e.probes) && !Unopened(d.graphs, e.seen) && e.putState != Lost
  {
    ImportErrorsIff(d, e);
    SyncWritesIff(w, ImportState, d, e);
  }

  /** A sync takes its first step exactly if it gets as far as its state write and the write lands. */
  lemma SyncWritesIff(w: World, op: SyncOperation, d: Desired, e: SyncEnv)
    ensures SyncCommand(w, op, d, e).log != [] <==> SyncProceeds(w, op, d, e) && e.putState != Lost
  {
    if SyncProceeds(w, op, d, e) && e.putState != Lost {
      var l0 := SyncBase(w, op, d);
      var l1 := SyncLedger(l0, w, d, e);
      WriteIsLogged(w, l1.(revision := if op == ImportState then 1 else NextRevision(l1.revision)), SweepLedger(l0, e.probes).outcome, e);
    }
  }

  lemma WriteIsLogged(w: World, l: Ledger, outcome: SweepOutcome, e: SyncEnv)
    requires e.putState != Lost
    ensures SyncWrite(w, l, outcome, e).log != []
  {
    var r1 := Step(Start(w), WroteState, w.(ledger := Some(l)));
    DropsAppend(r1, outcome.completed, e.drop);
    MarksAppend(DropAll(r1, outcome.completed, e.drop), Listed(e.files, outcome.consumed), e.mark);
  }

  lemma {:induction false} DropsAppend(r: Run, ops: seq<OpId>, drop: OpId -> bool)
    ensures |r.log| <= |DropAll(r, ops, drop).log|
    decreases |ops|
  {
    if ops != [] { DropsAppend(DropSidecar(r, ops[0], drop(ops[0])), ops[1..], drop); }
  }

  lemma {:induction false} MarksAppend(r: Run, ids: seq<ApprovalId>, mark: ApprovalId -> bool)
    ensures |r.log| <= |MarkAll(r, ids, mark).log|
    decreases |ids|
  {
    if ids != [] { MarksAppend(MarkOne(r, ids[0], mark(ids[0])), ids[1..], mark); }
  }

  // ---- an imported ledger carries no error ----

  lemma {:induction false} VerifyNothing(l: Ledger, keys: seq<Address>, res: Resources, blobs: map<BlobKey, string>, readFails: Address -> bool)
    requires NoPayloads(res)
    ensures VerifyAll(l, keys, res, blobs, readFails) == l
    decreases |keys|
  {
    if keys != [] {
      assert FindingAt(res, blobs, readFails, keys[0]) == Intact;
      VerifyNothing(l, keys[1..], res, blobs, readFails);
    }
  }

  lemma ObserveOneClean(l: Ledger, dg: DesiredGraph, seen: Root)
    requires NoErrors(l) && !seen.Partial?
    ensures NoErrors(ObserveOne(l, dg, seen))
  {
  }

  lemma {:induction false} ObserveAllClean(l: Ledger, graphs: seq<DesiredGraph>, seen: GraphId -> Root)
    requires NoErrors(l) && !Unopened(graphs, seen)
    ensures NoErrors(ObserveAll(l, graphs, seen))
    decreases |graphs|
  {
    if graphs != [] {
      assert graphs[0] in graphs;
      ObserveOneClean(l, graphs[0], seen(graphs[0].id));
      assert forall dg :: dg in graphs[1..] ==> dg in graphs;
      ObserveAllClean(ObserveOne(l, graphs[0], seen(graphs[0].id)), graphs[1..], seen);
    }
  }

  /** Errors stop an import: the ledger it writes carries no Error status. */
  lemma ImportedLedgerHasNoErrors(w: World, d: Desired, e: SyncEnv)
    requires SyncCommand(w, ImportState, d, e).log != []
    ensures var l' := SyncCommand(w, ImportState, d, e).world.ledger; l'.Some? && NoErrors(l'.value)
  {
    var l := SweepLedger(InitialLedger(d), e.probes).ledger;
    ImportWritesIff(w, d, e);
    SweepClean(Swept(InitialLedger(d), NoOutcome), e.probes);
    VerifyNothing(l, SortedKeys(l.resources.Keys), l.resources, w.blobs, e.readFails);
    ObserveAllClean(l, d.graphs, e.seen);
    WrittenLedger(w, ImportState, d, e);
  }
}
