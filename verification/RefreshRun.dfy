/** `sync_config_dir` step by step, over the mutable ledger. */
module RefreshRun {
  import opened Addresses
  import opened Digests
  import opened Sorting
  import opened Ledgers
  import opened Sweep
  import opened Plan
  import opened Apply
  import opened Refresh
  import opened ClusterStates
  import opened ApplyRun

  /** The addresses with something to report, in key order. */
  function Findings(keys: seq<Address>, res: Resources, blobs: map<BlobKey, string>, readFails: Address -> bool): seq<(Address, Finding)> {
    if keys == [] then []
    else
      var f := FindingAt(res, blobs, readFails, keys[0]);
      (if f == Intact then [] else [(keys[0], f)]) + Findings(keys[1..], res, blobs, readFails)
  }

  function ActOnAll(l: Ledger, findings: seq<(Address, Finding)>): Ledger
    decreases |findings|
  {
    if findings == [] then l else ActOnAll(VerifyOne(l, findings[0].0, findings[0].1), findings[1..])
  }

  lemma {:induction false} FindingsSuffice(l: Ledger, keys: seq<Address>, res: Resources, blobs: map<BlobKey, string>, readFails: Address -> bool)
    ensures ActOnAll(l, Findings(keys, res, blobs, readFails)) == VerifyAll(l, keys, res, blobs, readFails)
    decreases |keys|
  {
    if keys != [] {
      var f, rest := FindingAt(res, blobs, readFails, keys[0]), Findings(keys[1..], res, blobs, readFails);
      FindingsSuffice(VerifyOne(l, keys[0], f), keys[1..], res, blobs, readFails);
      assert [] + rest == rest && ([(keys[0], f)] + rest)[1..] == rest;
    }
  }

  /** One turn of the verification loop. */
  lemma FindingsTurn(found: seq<(Address, Finding)>, keys: seq<Address>, n: nat, res: Resources, blobs: map<BlobKey, string>,
                     readFails: Address -> bool, f: Finding)
    requires n < |keys| && f == FindingAt(res, blobs, readFails, keys[n])
    ensures found + Findings(keys[n..], res, blobs, readFails) ==
            (if f == Intact then found else found + [(keys[n], f)]) + Findings(keys[n + 1..], res, blobs, readFails)
  {
    assert keys[n..][0] == keys[n] && keys[n..][1..] == keys[n + 1..];
  }

  /** `verify_catalog_payloads`: every finding is taken on the same ledger, before any of them is acted on. */
  method VerifyCatalogPayloads(res: Resources, blobs: map<BlobKey, string>, readFails: Address -> bool)
    returns (findings: seq<(Address, Finding)>)
    ensures findings == Findings(SortedKeys(res.Keys), res, blobs, readFails)
  {
    var keys := SortedKeys(res.Keys);
    findings := [];
    for n := 0 to |keys|
      invariant findings + Findings(keys[n..], res, blobs, readFails) == Findings(keys, res, blobs, readFails)
    {
      var a := keys[n];
      assert a in keys;
      FindingsTurn(findings, keys, n, res, blobs, readFails, FindingAt(res, blobs, readFails, a));
      if !HasPayload(a) { continue; }
      var key := (a, res[a].digest);
      if readFails(a) {
        findings := findings + [(a, ReadError)];
      } else if key !in blobs {
        findings := findings + [(a, Missing)];
      } else if ContentDigest(blobs[key]) != res[a].digest {
        findings := findings + [(a, Mismatch)];
      }
    }
  }

  /** A missing or corrupt blob drops its entry, so the next plan proposes it again; an unreadable one only reports. */
  method DropBadPayloads(state: ClusterState, blobs: map<BlobKey, string>, readFails: Address -> bool)
    modifies state
    ensures state.Value() == VerifyAll(old(state.Value()), SortedKeys(old(state.resources).Keys), old(state.resources), blobs, readFails)
  {
    var findings := VerifyCatalogPayloads(state.resources, blobs, readFails);
    FindingsSuffice(state.Value(), SortedKeys(state.resources.Keys), state.resources, blobs, readFails);
    for n := 0 to |findings|
      invariant ActOnAll(state.Value(), findings[n..]) == ActOnAll(old(state.Value()), findings)
    {
      assert findings[n..][0] == findings[n] && findings[n..][1..] == findings[n + 1..];
      ActOn(state, findings[n].0, findings[n].1);
    }
  }

  method ActOn(state: ClusterState, a: Address, finding: Finding)
    modifies state
    ensures state.Value() == VerifyOne(old(state.Value()), a, finding)
  {
    match finding {
      case Intact =>
      case Missing =>
        state.resources := state.resources - {a};
        state.statuses := state.statuses[a := StatusDrifted(PayloadMissing)];
      case Mismatch =>
        state.resources := state.resources - {a};
        state.statuses := state.statuses[a := StatusDrifted(PayloadMismatch)];
      case ReadError =>
        state.statuses := state.statuses[a := StatusError(PayloadReadError)];
    }
  }

  /** `observe_declared_graphs`. */
  method ObserveDeclaredGraphs(state: ClusterState, graphs: seq<DesiredGraph>, seen: GraphId -> Root)
    modifies state
    ensures state.Value() == ObserveAll(old(state.Value()), graphs, seen)
  {
    for n := 0 to |graphs|
      invariant ObserveAll(state.Value(), graphs[n..], seen) == ObserveAll(old(state.Value()), graphs, seen)
    {
      assert graphs[n..][0] == graphs[n] && graphs[n..][1..] == graphs[n + 1..];
      ObserveGraph(state, graphs[n], seen(graphs[n].id));
    }
  }

  method ObserveGraph(state: ClusterState, dg: DesiredGraph, seen: Root)
    modifies state
    ensures state.Value() == ObserveOne(old(state.Value()), dg, seen)
  {
    var g := dg.id;
    match seen {
      case Absent =>
        state.resources := state.resources - {Graph(g)};
        state.resources := state.resources - {Schema(g)};
        state.SetGraphStatus(g, StatusDrifted(GraphMissing));
        state.observations := state.observations[Graph(g) := Observed(false, None, dg.schemaDigest, Some(false))];
      case Open(live) =>
        state.RecordLiveSchema(g, live);
        var matches := live == dg.schemaDigest;
        state.SetGraphStatus(g, if matches then StatusApplied else StatusDrifted(SchemaMismatch));
        state.observations := state.observations[Graph(g) := Observed(true, Some(live), dg.schemaDigest, Some(matches))];
      case Partial =>
        state.SetGraphStatus(g, StatusError(GraphObservationError));
        state.observations := state.observations[Graph(g) := Observed(true, None, dg.schemaDigest, None)];
    }
  }

  /** `sync_config_dir` on a loaded configuration, the lock held, computes exactly `SyncCommand`. */
  method SyncConfigDir(w: World, op: SyncOperation, d: Desired, e: SyncEnv) returns (session: Session)
    ensures fresh(session) && session.Value() == SyncCommand(w, op, d, e)
  {
    session := new Session(w);
    if (op == RefreshState) != w.ledger.Some? { return; }
    var l0 := if op == RefreshState then w.ledger.value else InitialLedger(d);
    if !AllBound(l0.resources) { return; }
    var state := new ClusterState(l0);
    var sweep := SweepRecoverySidecars(state, e.probes);
    DropBadPayloads(state, w.blobs, e.readFails);
    ObserveDeclaredGraphs(state, d.graphs, e.seen);
    if op == ImportState && SyncErrors(l0, d, e) { return; }
    state.revision := if op == ImportState then 1 else NextRevision(state.revision);
    if e.putState != Lost { session.Land(WroteState, w.(ledger := Some(state.Value()))); }
    if e.putState != Done { return; }
    session.RetireSidecars(sweep.completed, e.drop);
    session.MarkApprovalsConsumed(e.files, sweep.consumed, e.mark);
  }
}
