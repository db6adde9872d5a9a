/** What one classification writes beside the resources: statuses, recovery records, tombstones and consumed approvals. */
module Recoveries {
  import opened Addresses
  import opened Digests
  import opened Ledgers
  import opened Sweep
  import opened Coverage
  import opened SweepFixpoint

  /** The status a classification gives `graph.g` and `schema.g`, if any. */
  ghost function VerdictOn(res: Resources, p: Probe): Option<Status> {
    if EffectOf(res, p).Records? then Some(StatusApplied)
    else if !Held(res, p) then None
    else if p.seen.Open? then Some(StatusDrifted(AppliedStatePending))
    else if p.sidecar.kind == GraphCreate then Some(StatusError(GraphCreateIncomplete))
    else None
  }

  /** Statuses move at the graph's own addresses only: a verdict is stored, a removal clears the subtree. */
  ghost predicate StatusesMove(l: Ledger, p: Probe, l': Ledger, a: Address) {
    var g, v := p.sidecar.graph, VerdictOn(l.resources, p);
    if EffectOf(l.resources, p).Removes? && InSubtree(a, g) then a !in l'.statuses
    else if v.Some? && (a == Graph(g) || a == Schema(g)) then a in l'.statuses && l'.statuses[a] == v.value
    else SameStatus(l, l', a)
  }

  /** The audit trail: a record and, for a removal, a tombstone and its approval, exactly where the resources moved. */
  ghost predicate AuditMoves(st: Swept, p: Probe, st': Swept) {
    var l, l', s, effect := st.ledger, st'.ledger, p.sidecar, EffectOf(st.ledger.resources, p);
    && l'.recoveryRecords == (if effect.Nothing? then l.recoveryRecords else l.recoveryRecords[p.op := RolledForward(s.kind, s.graph, s.actor)])
    && l'.observations == (if effect.Removes? then l.observations[Graph(s.graph) := Tombstone(s.approval, s.actor)] else l.observations)
    && l'.approvalRecords == (if effect.Removes? && s.approval.Some? then l.approvalRecords[s.approval.value := p.op] else l.approvalRecords)
    && st'.outcome.consumed == st.outcome.consumed + (if effect.Removes? && s.approval.Some? then [s.approval.value] else [])
    && SameHeader(l, l')
  }

  lemma RolledStatuses(l: Ledger, op: OpId, s: Sidecar, live: Digest)
    ensures RollForward(l, op, s, live).statuses == l.statuses[Graph(s.graph) := StatusApplied][Schema(s.graph) := StatusApplied]
  {
  }

  lemma OpenedStatuses(st: Swept, p: Probe, a: Address)
    requires p.seen.Open? && p.sidecar.kind != GraphDelete
    ensures StatusesMove(st.ledger, p, SweepOpened(st, p, p.seen.schema).ledger, a)
  {
    var l, l', g := st.ledger, SweepOpened(st, p, p.seen.schema).ledger, p.sidecar.graph;
    RolledStatuses(l, p.op, p.sidecar, p.seen.schema);
    assert l'.statuses == (if VerdictOn(l.resources, p).Some?
                           then l.statuses[Graph(g) := VerdictOn(l.resources, p).value][Schema(g) := VerdictOn(l.resources, p).value]
                           else l.statuses);
  }

  lemma DeleteStatuses(st: Swept, p: Probe, a: Address)
    requires p.sidecar.kind == GraphDelete
    ensures StatusesMove(st.ledger, p, SweepDelete(st, p).ledger, a)
  {
    var l, g := st.ledger, p.sidecar.graph;
    assert TombstoneForward(st, p).ledger.statuses == map b | b in l.statuses && !InSubtree(b, g) :: l.statuses[b];
  }

  lemma OpenedAudit(st: Swept, p: Probe)
    requires p.seen.Open? && p.sidecar.kind != GraphDelete
    ensures AuditMoves(st, p, SweepOpened(st, p, p.seen.schema))
  {
  }

  lemma DeleteAudit(st: Swept, p: Probe)
    requires p.sidecar.kind == GraphDelete
    ensures AuditMoves(st, p, SweepDelete(st, p))
  {
    assert TombstoneForward(st, p).ledger.recoveryRecords == st.ledger.recoveryRecords[p.op := RolledForward(GraphDelete, p.sidecar.graph, p.sidecar.actor)];
  }

  lemma StepStatuses(st: Swept, p: Probe, a: Address)
    ensures StatusesMove(st.ledger, p, SweepOne(st, p).ledger, a)
  {
    if p.sidecar.kind == GraphDelete { DeleteStatuses(st, p, a); }
    else if p.seen.Open? { OpenedStatuses(st, p, a); }
  }

  lemma StepAudit(st: Swept, p: Probe)
    ensures AuditMoves(st, p, SweepOne(st, p))
  {
    if p.sidecar.kind == GraphDelete { DeleteAudit(st, p); }
    else if p.seen.Open? { OpenedAudit(st, p); }
  }

  /** The resources that sidecar `i` of a sweep is classified against. */
  ghost function ResourcesAt(l: Ledger, ps: seq<Probe>, i: nat): Resources
    requires i <= |ps|
  {
    SweepLedger(l, ps[..i]).ledger.resources
  }

  lemma {:induction false} SweepSplit(st: Swept, ps: seq<Probe>, i: nat)
    requires i <= |ps|
    ensures SweepAll(st, ps) == SweepAll(SweepAll(st, ps[..i]), ps[i..])
    decreases i
  {
    if i > 0 {
      assert ps[..i][0] == ps[0] && ps[..i][1..] == ps[1..][..i - 1] && ps[1..][i - 1..] == ps[i..];
      SweepSplit(SweepOne(st, ps[0]), ps[1..], i - 1);
    } else {
      assert ps[..0] == [] && ps[0..] == ps;
    }
  }

  predicate SameRecord(l: Ledger, l': Ledger, op: OpId) {
    (op in l'.recoveryRecords <==> op in l.recoveryRecords) && (op in l.recoveryRecords ==> l'.recoveryRecords[op] == l.recoveryRecords[op])
  }

  lemma {:induction false} OthersRecords(st: Swept, ps: seq<Probe>, op: OpId)
    requires forall p :: p in ps ==> p.op != op
    ensures SameRecord(st.ledger, SweepAll(st, ps).ledger, op)
    decreases |ps|
  {
    if ps != [] {
      assert ps[0] in ps;
      StepAudit(st, ps[0]);
      OthersRecords(SweepOne(st, ps[0]), ps[1..], op);
    }
  }

  lemma OpsApart(ps: seq<Probe>, i: nat)
    requires i < |ps| && DistinctOps(ps)
    ensures forall p :: p in ps[..i] || p in ps[i + 1..] ==> p.op != ps[i].op
  {
  }

  lemma RecordedByOwn(st: Swept, p: Probe, rest: seq<Probe>)
    requires forall q :: q in rest ==> q.op != p.op
    ensures var l, l' := st.ledger, SweepAll(SweepOne(st, p), rest).ledger;
            if EffectOf(l.resources, p).Nothing? then SameRecord(l, l', p.op)
            else p.op in l'.recoveryRecords && l'.recoveryRecords[p.op] == RolledForward(p.sidecar.kind, p.sidecar.graph, p.sidecar.actor)
  {
    StepAudit(st, p);
    OthersRecords(SweepOne(st, p), rest, p.op);
  }

  /**
   A sweep writes the recovery record of a sidecar exactly if classifying that sidecar, over the ledger as the earlier
   ones left it, moved the recorded resources; any other record stays.
   */
  lemma RecoveryRecordIff(l: Ledger, ps: seq<Probe>, i: nat)
    requires i < |ps| && DistinctOps(ps)
    ensures var l', p := SweepLedger(l, ps).ledger, ps[i];
            if EffectOf(ResourcesAt(l, ps, i), p).Nothing? then SameRecord(l, l', p.op)
            else p.op in l'.recoveryRecords && l'.recoveryRecords[p.op] == RolledForward(p.sidecar.kind, p.sidecar.graph, p.sidecar.actor)
  {
    var st := Swept(l, NoOutcome);
    OpsApart(ps, i);
    OthersRecords(st, ps[..i], ps[i].op);
    RecordedByOwn(SweepAll(st, ps[..i]), ps[i], ps[i + 1..]);
    SweepSplit(st, ps, i);
    assert ps[i..][0] == ps[i] && ps[i..][1..] == ps[i + 1..];
  }

  /** Records of operations that are not listed stay as they were. */
  lemma UnlistedRecords(l: Ledger, ps: seq<Probe>, op: OpId)
    requires forall p :: p in ps ==> p.op != op
    ensures SameRecord(l, SweepLedger(l, ps).ledger, op)
  {
    OthersRecords(Swept(l, NoOutcome), ps, op);
  }

  // ---- what a whole sweep keeps and consumes ----

  predicate SameHeader(l: Ledger, l': Ledger) {
    l'.revision == l.revision && l'.configDigest == l.configDigest
  }

  lemma {:induction false} SweepHeader(st: Swept, ps: seq<Probe>)
    ensures SameHeader(st.ledger, SweepAll(st, ps).ledger)
    decreases |ps|
  {
    if ps != [] {
      StepAudit(st, ps[0]);
      SweepHeader(SweepOne(st, ps[0]), ps[1..]);
    }
  }

  /** Every tombstone of `l'` that names an approval stood in `l` already, or its approval is among `ids`. */
  ghost predicate NewTombstones(l: Ledger, l': Ledger, ids: seq<ApprovalId>) {
    forall a :: a in l'.observations && l'.observations[a].Tombstone? && l'.observations[a].approval.Some? ==>
      l'.observations[a].approval.value in ids || (a in l.observations && l.observations[a] == l'.observations[a])
  }

  lemma NewTombstonesTrans(l: Ledger, l1: Ledger, l2: Ledger, ids: seq<ApprovalId>, ids': seq<ApprovalId>)
    requires NewTombstones(l, l1, ids) && NewTombstones(l1, l2, ids') && forall id :: id in ids ==> id in ids'
    ensures NewTombstones(l, l2, ids')
  {
  }

  /** The approvals of a sweep's new tombstones are among those it reports consumed. */
  lemma {:induction false} SweepTombstones(st: Swept, ps: seq<Probe>)
    ensures var st' := SweepAll(st, ps);
            NewTombstones(st.ledger, st'.ledger, st'.outcome.consumed) && forall id :: id in st.outcome.consumed ==> id in st'.outcome.consumed
    decreases |ps|
  {
    if ps != [] {
      var st1 := SweepOne(st, ps[0]);
      StepAudit(st, ps[0]);
      SweepTombstones(st1, ps[1..]);
      assert NewTombstones(st.ledger, st1.ledger, st1.outcome.consumed);
      NewTombstonesTrans(st.ledger, st1.ledger, SweepAll(st1, ps[1..]).ledger, st1.outcome.consumed, SweepAll(st1, ps[1..]).outcome.consumed);
    }
  }

  /** A row-7b removal at position `i` of a sweep that consumes approval `id`. */
  ghost predicate SpendsAt(st: Swept, ps: seq<Probe>, i: nat, id: ApprovalId) {
    && i < |ps| && ps[i].sidecar.approval == Some(id)
    && EffectOf(SweepAll(st, ps[..i]).ledger.resources, ps[i]).Removes?
  }

  /** A sweep reports an approval consumed exactly if one of its removals names it. */
  lemma {:induction false} SweepConsumesIff(st: Swept, ps: seq<Probe>, id: ApprovalId)
    ensures id in SweepAll(st, ps).outcome.consumed <==> id in st.outcome.consumed || exists i: nat :: SpendsAt(st, ps, i, id)
    decreases |ps|
  {
    if ps != [] {
      var st1, rest := SweepOne(st, ps[0]), ps[1..];
      StepAudit(st, ps[0]);
      SweepConsumesIff(st1, rest, id);
      assert ps[..0] == [];
      forall i: nat | 0 < i < |ps| ensures SpendsAt(st, ps, i, id) <==> SpendsAt(st1, rest, i - 1, id) { SpendsLater(st, ps, i, id); }
      if i: nat :| SpendsAt(st, ps, i, id) {
        if i == 0 { assert EffectOf(st.ledger.resources, ps[0]).Removes?; } else { assert SpendsAt(st1, rest, i - 1, id); }
      }
      if i: nat :| SpendsAt(st1, rest, i, id) { assert SpendsAt(st, ps, i + 1, id); }
      if EffectOf(st.ledger.resources, ps[0]).Removes? && ps[0].sidecar.approval == Some(id) { assert SpendsAt(st, ps, 0, id); }
    }
  }

  lemma SpendsLater(st: Swept, ps: seq<Probe>, i: nat, id: ApprovalId)
    requires 0 < i < |ps|
    ensures SpendsAt(st, ps, i, id) <==> SpendsAt(SweepOne(st, ps[0]), ps[1..], i - 1, id)
  {
    assert ps[..i][0] == ps[0] && ps[..i][1..] == ps[1..][..i - 1] && ps[1..][i - 1] == ps[i];
  }
}
