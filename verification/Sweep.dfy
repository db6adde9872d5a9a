/** The roll-forward-only recovery sweep of `sweep.rs`. */
module Sweep {
  import opened Addresses
  import opened Digests
  import opened Ledgers

  /** One listed sidecar and what the command saw at its graph root when it classified it. */
  datatype Probe = Probe(op: OpId, sidecar: Sidecar, seen: Root)

  datatype SweepOutcome = SweepOutcome(pending: set<GraphId>, completed: seq<OpId>, consumed: seq<ApprovalId>)

  datatype Swept = Swept(ledger: Ledger, outcome: SweepOutcome)

  const NoOutcome := SweepOutcome({}, [], [])

  function Retire(st: Swept, op: OpId): Swept {
    st.(outcome := st.outcome.(completed := st.outcome.completed + [op]))
  }

  function Hold(st: Swept, g: GraphId): Swept {
    st.(outcome := st.outcome.(pending := st.outcome.pending + {g}))
  }

  /** Row 4 (create) and row 3 (schema apply): converge the ledger to the live schema and audit it. */
  function RollForward(l: Ledger, op: OpId, s: Sidecar, live: Digest): Ledger {
    var l1 := MarkGraph(l.(resources := RecordLive(l.resources, s.graph, live)), s.graph, StatusApplied);
    l1.(recoveryRecords := l1.recoveryRecords[op := RolledForward(s.kind, s.graph, s.actor)])
  }

  /** The shared tail of the create and schema-apply classifiers once the graph opened at `live`. */
  function SweepOpened(st: Swept, p: Probe, live: Digest): Swept {
    var s := p.sidecar;
    if Recorded(st.ledger.resources, s.graph) == Some(live) then
      Retire(st, p.op)                                                                            // row 2
    else if live == s.desiredSchema then
      Retire(st.(ledger := RollForward(st.ledger, p.op, s, live)), p.op)                          // rows 3 and 4
    else
      Hold(st.(ledger := MarkGraph(st.ledger, s.graph, StatusDrifted(AppliedStatePending))), s.graph)  // row 6
  }

  function SweepCreate(st: Swept, p: Probe): Swept {
    match p.seen
    case Absent => Retire(st, p.op)                                                               // row 1
    case Partial =>
      Hold(st.(ledger := MarkGraph(st.ledger, p.sidecar.graph, StatusError(GraphCreateIncomplete))), p.sidecar.graph)  // row 5
    case Open(live) => SweepOpened(st, p, live)
  }

  function SweepSchema(st: Swept, p: Probe): Swept {
    match p.seen
    case Open(live) => SweepOpened(st, p, live)
    case _ => Hold(st, p.sidecar.graph)
  }

  /** Row 7b: the root is gone and the ledger is stale. */
  function TombstoneForward(st: Swept, p: Probe): Swept {
    var s := p.sidecar;
    var l1 := TombstoneSubtree(st.ledger, s.graph, s.approval, s.actor);
    var l2 := l1.(recoveryRecords := l1.recoveryRecords[p.op := RolledForward(GraphDelete, s.graph, s.actor)]);
    match s.approval
    case None => st.(ledger := l2)
    case Some(id) =>
      st.(ledger := RecordConsumed(l2, id, p.op),
          outcome := st.outcome.(consumed := st.outcome.consumed + [id]))
  }

  function SweepDelete(st: Swept, p: Probe): Swept {
    if !p.seen.Absent? then Retire(st, p.op)                                                      // row 8
    else if Graph(p.sidecar.graph) !in st.ledger.resources then Retire(st, p.op)                  // row 7
    else Retire(TombstoneForward(st, p), p.op)                                                    // row 7b
  }

  function SweepOne(st: Swept, p: Probe): Swept {
    match p.sidecar.kind
    case GraphCreate => SweepCreate(st, p)
    case SchemaApply => SweepSchema(st, p)
    case GraphDelete => SweepDelete(st, p)
  }

  /** `sweep_recovery_sidecars`: the sidecars are classified one after the other over one ledger. */
  function SweepAll(st: Swept, ps: seq<Probe>): Swept
    decreases |ps|
  {
    if ps == [] then st else SweepAll(SweepOne(st, ps[0]), ps[1..])
  }

  function SweepLedger(l: Ledger, ps: seq<Probe>): Swept {
    SweepAll(Swept(l, NoOutcome), ps)
  }
}
