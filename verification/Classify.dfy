/** Approval matching, dispositions and demotion: the gating half of `diff.rs`. */
module Classify {
  import opened Addresses
  import opened Digests
  import opened Ledgers
  import opened Plan

  type Artifacts = seq<(ApprovalId, Approval)>

  // ---- approvals ----

  /** An unconsumed artifact bound to this config and to the exact digests of this change. */
  predicate Authorizes(art: Approval, c: Change, config: Digest) {
    !art.consumed && art.resource == c.resource && art.config == config && art.before == c.before && art.after == c.after
  }

  predicate Authorized(arts: Artifacts, c: Change, config: Digest) {
    exists i :: 0 <= i < |arts| && Authorizes(arts[i].1, c, config)
  }

  /** `approved_resources`. */
  function ApprovedResources(arts: Artifacts, cs: seq<Change>, config: Digest): set<Address> {
    set i | 0 <= i < |cs| && Authorized(arts, cs[i], config) :: cs[i].resource
  }

  /** The graphs some change in the plan creates, updates or deletes. */
  function GraphsWith(cs: seq<Change>, op: Operation): set<GraphId> {
    set i | 0 <= i < |cs| && cs[i].operation == op && cs[i].resource.Graph? :: cs[i].resource.graph
  }

  function SchemasWith(cs: seq<Change>, op: Operation): set<GraphId> {
    set i | 0 <= i < |cs| && cs[i].operation == op && cs[i].resource.Schema? :: cs[i].resource.graph
  }

  /** `compute_approvals`: a graph delete gates its subtree; a lone schema delete is gated by itself. */
  predicate Gated(cs: seq<Change>, c: Change) {
    c.operation == Delete && (c.resource.Graph? || (c.resource.Schema? && c.resource.graph !in GraphsWith(cs, Delete)))
  }

  // ---- classification ----

  /** What the first loop of `classify_changes` gathers, with the command's own inputs. */
  datatype Gate = Gate(graphCreates: set<GraphId>, graphDeletes: set<GraphId>, schemaPending: set<GraphId>,
                       pending: set<GraphId>, approved: set<Address>, dependencies: set<Dependency>)

  function GateOf(cs: seq<Change>, dependencies: set<Dependency>, pending: set<GraphId>, approved: set<Address>): Gate {
    Gate(GraphsWith(cs, Create), GraphsWith(cs, Delete),
         SchemasWith(cs, Delete) + (SchemasWith(cs, Create) - GraphsWith(cs, Create)),
         pending, approved, dependencies)
  }

  datatype Verdict = Verdict(disposition: Disposition, reason: Option<Reason>)

  const Accept := Verdict(Applied, None)
  const Unsupported := Verdict(Deferred, Some(UnsupportedKind))

  function Block(reason: Reason): Verdict {
    Verdict(Blocked, Some(reason))
  }

  /** Subtree deletes ride the approved graph delete. */
  predicate RidesApprovedDelete(gate: Gate, g: GraphId) {
    g in gate.graphDeletes && Graph(g) in gate.approved && g !in gate.pending
  }

  /** Some graph among `graphs` is a dependency of `a`. */
  predicate DependsOn(dependencies: set<Dependency>, a: Address, graphs: set<GraphId>) {
    exists dep :: dep in dependencies && dep.from == a && dep.to.Graph? && dep.to.graph in graphs
  }

  function JudgeSchema(gate: Gate, g: GraphId, op: Operation): Verdict {
    match op
    case Create => if g in gate.graphCreates && g !in gate.pending then Accept else Block(RecoveryPending)
    case Update => if g !in gate.pending then Accept else Block(RecoveryPending)
    case Delete =>
      if g !in gate.graphDeletes then Unsupported
      else if RidesApprovedDelete(gate, g) then Accept
      else if g in gate.pending then Block(RecoveryPending)
      else Block(ApprovalRequired)
  }

  function JudgeGraph(gate: Gate, g: GraphId, op: Operation): Verdict {
    match op
    case Create => if g in gate.pending then Block(RecoveryPending) else Accept
    case Update => if g !in gate.schemaPending then Verdict(Derived, None) else Unsupported
    case Delete =>
      if g in gate.pending then Block(RecoveryPending)
      else if RidesApprovedDelete(gate, g) then Accept
      else Block(ApprovalRequired)
  }

  function JudgeQuery(gate: Gate, g: GraphId, op: Operation): Verdict {
    match op
    case Delete =>
      if RidesApprovedDelete(gate, g) then Accept
      else if g in gate.graphDeletes then Block(ApprovalRequired)
      else Accept
    case _ =>
      if g in gate.pending then Block(RecoveryPending)
      else if g in gate.schemaPending then Block(DependencyNotApplied)
      else Accept
  }

  function JudgePolicy(gate: Gate, a: Address, op: Operation): Verdict {
    if op == Delete then Accept
    else if DependsOn(gate.dependencies, a, gate.pending) then Block(RecoveryPending)
    else Accept
  }

  function Judge(gate: Gate, c: Change): Verdict {
    match c.resource
    case Schema(g) => JudgeSchema(gate, g, c.operation)
    case Graph(g) => JudgeGraph(gate, g, c.operation)
    case Query(g, _) => JudgeQuery(gate, g, c.operation)
    case Policy(_) => JudgePolicy(gate, c.resource, c.operation)
    case EmbeddingProvider(_) => Accept
    case Unknown(_) => Unsupported
  }

  function Stamp(c: Change, v: Verdict): Change {
    c.(disposition := Some(v.disposition), reason := v.reason)
  }

  /** `classify_changes`. */
  function Classified(cs: seq<Change>, gate: Gate): (r: seq<Change>)
    ensures |r| == |cs| && forall i :: 0 <= i < |cs| ==> r[i] == Stamp(cs[i], Judge(gate, cs[i]))
  {
    seq(|cs|, i requires 0 <= i < |cs| => Stamp(cs[i], Judge(gate, cs[i])))
  }

  // ---- demotion ----

  datatype Origin = CreateFailed | SchemaFailed | DeleteFailed

  function DemoteReason(c: Change, failed: map<GraphId, Origin>, dependencies: set<Dependency>): Option<Reason> {
    match c.resource
    case Graph(g) =>
      if g !in failed then None
      else (match failed[g]
            case CreateFailed => Some(GraphCreateFailed)
            case DeleteFailed => Some(GraphDeleteFailed)
            case SchemaFailed => Some(DependencyNotApplied))
    case Schema(g) =>
      if g !in failed then None
      else if failed[g] == SchemaFailed then Some(SchemaApplyFailed) else Some(DependencyNotApplied)
    case Query(g, _) => if g in failed then Some(DependencyNotApplied) else None
    case Policy(_) => if DependsOn(dependencies, c.resource, failed.Keys) then Some(DependencyNotApplied) else None
    case _ => None
  }

  function DemoteOne(c: Change, failed: map<GraphId, Origin>, dependencies: set<Dependency>): Change {
    if c.disposition != Some(Applied) then c
    else
      var reason := DemoteReason(c, failed, dependencies);
      if reason.None? then c else Stamp(c, Verdict(Blocked, reason))
  }

  /** `demote_dependents_of_failed_graphs`. */
  function Demoted(cs: seq<Change>, failed: map<GraphId, Origin>, dependencies: set<Dependency>): (r: seq<Change>)
    ensures |r| == |cs| && forall i :: 0 <= i < |cs| ==> r[i] == DemoteOne(cs[i], failed, dependencies)
  {
    seq(|cs|, i requires 0 <= i < |cs| => DemoteOne(cs[i], failed, dependencies))
  }

  // ---- the delete gate ----

  /** The plan apply executes: diffed, approved and classified against one ledger. */
  function ClassifiedPlan(res: Resources, d: Desired, arts: Artifacts, pending: set<GraphId>): seq<Change> {
    var cs := PlanOf(res, d);
    Classified(cs, GateOf(cs, d.dependencies, pending, ApprovedResources(arts, cs, d.configDigest)))
  }

  /** An unconsumed artifact for deleting graph `g` as it stands now, under this config. */
  ghost predicate DeleteApproved(res: Resources, d: Desired, arts: Artifacts, g: GraphId) {
    Graph(g) in res &&
    exists i :: 0 <= i < |arts| && !arts[i].1.consumed && arts[i].1.resource == Graph(g) && arts[i].1.config == d.configDigest
                && arts[i].1.before == Some(res[Graph(g)].digest) && arts[i].1.after == None
  }

  ghost predicate Planned(cs: seq<Change>, a: Address, op: Operation) {
    exists i :: 0 <= i < |cs| && cs[i].resource == a && cs[i].operation == op
  }

  lemma GraphsWithIff(cs: seq<Change>, op: Operation, g: GraphId)
    ensures g in GraphsWith(cs, op) <==> Planned(cs, Graph(g), op)
    ensures g in SchemasWith(cs, op) <==> Planned(cs, Schema(g), op)
  {
  }

  lemma PlannedIff(res: Resources, d: Desired, a: Address)
    ensures Planned(PlanOf(res, d), a, Delete) <==> a in res && a !in d.digests
    ensures Planned(PlanOf(res, d), a, Create) <==> a !in res && a in d.digests
  {
    PlannedAt(res, d, a);
    assert a in ResourceDigests(res) <==> a in res;
  }

  lemma PlanSets(res: Resources, d: Desired, g: GraphId)
    ensures g in GraphsWith(PlanOf(res, d), Delete) <==> Graph(g) in res && Graph(g) !in d.digests
    ensures g in GraphsWith(PlanOf(res, d), Create) <==> Graph(g) !in res && Graph(g) in d.digests
    ensures g in SchemasWith(PlanOf(res, d), Delete) <==> Schema(g) in res && Schema(g) !in d.digests
    ensures g in SchemasWith(PlanOf(res, d), Create) <==> Schema(g) !in res && Schema(g) in d.digests
  {
    var cs := PlanOf(res, d);
    GraphsWithIff(cs, Create, g);
    GraphsWithIff(cs, Delete, g);
    PlannedIff(res, d, Graph(g));
    PlannedIff(res, d, Schema(g));
  }

  /** Where an address's change sits in the plan. */
  lemma PlannedAt(res: Resources, d: Desired, a: Address)
    ensures var cs := PlanOf(res, d);
            && (forall i :: 0 <= i < |cs| && cs[i].resource == a ==> PlanAt(res, d, a) == Some(cs[i]))
            && (PlanAt(res, d, a).Some? ==> exists i :: 0 <= i < |cs| && cs[i].resource == a && cs[i] == PlanAt(res, d, a).value)
  {
    var cs := PlanOf(res, d);
    PlanFacts(res, d);
    forall i | 0 <= i < |cs| && cs[i].resource == a ensures PlanAt(res, d, a) == Some(cs[i]) { assert cs[i] in cs; }
    if PlanAt(res, d, a).Some? {
      assert PlanAt(res, d, a).value in cs;
    }
  }

  lemma ApprovalExact(res: Resources, d: Desired, arts: Artifacts, g: GraphId)
    requires Graph(g) in res && Graph(g) !in d.digests
    ensures Graph(g) in ApprovedResources(arts, PlanOf(res, d), d.configDigest) <==> DeleteApproved(res, d, arts, g)
  {
    var cs := PlanOf(res, d);
    PlannedAt(res, d, Graph(g));
    var c := DigestChange(Graph(g), Delete, Some(res[Graph(g)].digest), None);
    assert PlanAt(res, d, Graph(g)) == Some(c);
    var i :| 0 <= i < |cs| && cs[i].resource == Graph(g) && cs[i] == c;
    if DeleteApproved(res, d, arts, g) {
      var k :| 0 <= k < |arts| && !arts[k].1.consumed && arts[k].1.resource == Graph(g) && arts[k].1.config == d.configDigest
               && arts[k].1.before == Some(res[Graph(g)].digest) && arts[k].1.after == None;
      assert Authorizes(arts[k].1, c, d.configDigest);
    }
  }

  /**
   The delete gate. Every delete inside the subtree of a graph the config dropped is executable exactly when that
   graph's own delete is approved at its current digest under this config and no recovery of it is pending.
   */
  lemma DeleteGate(res: Resources, d: Desired, arts: Artifacts, pending: set<GraphId>, g: GraphId, i: nat)
    requires i < |ClassifiedPlan(res, d, arts, pending)|
    requires var c := ClassifiedPlan(res, d, arts, pending)[i]; c.operation == Delete && InSubtree(c.resource, g)
    requires Graph(g) in res && Graph(g) !in d.digests
    ensures ClassifiedPlan(res, d, arts, pending)[i].disposition == Some(Applied) <==>
            DeleteApproved(res, d, arts, g) && g !in pending
  {
    PlanSets(res, d, g);
    ApprovalExact(res, d, arts, g);
  }

  /** The defensive refusal in apply never fires: no gated change is executable without its approval. */
  lemma ApprovalInvariantHolds(cs: seq<Change>, dependencies: set<Dependency>, pending: set<GraphId>, approved: set<Address>, i: nat)
    requires i < |cs| && Gated(cs, cs[i])
    requires Classified(cs, GateOf(cs, dependencies, pending, approved))[i].disposition == Some(Applied)
    ensures cs[i].resource in approved
  {
  }

  // ---- which approval a delete consumes ----

  /** The artifact apply marks consumed: the first unconsumed one for the graph under this config, whatever its digests. */
  function Consumable(arts: Artifacts, g: GraphId, config: Digest): Option<ApprovalId> {
    if arts == [] then None
    else if !arts[0].1.consumed && arts[0].1.resource == Graph(g) && arts[0].1.config == config then Some(arts[0].0)
    else Consumable(arts[1..], g, config)
  }

  lemma {:induction false} ConsumableExists(arts: Artifacts, g: GraphId, config: Digest)
    ensures Consumable(arts, g, config).Some? <==>
            exists i :: 0 <= i < |arts| && !arts[i].1.consumed && arts[i].1.resource == Graph(g) && arts[i].1.config == config
  {
    if arts != [] {
      ConsumableExists(arts[1..], g, config);
      assert forall i :: 0 < i < |arts| ==> arts[i] == arts[1..][i - 1];
    }
  }

  /** An approved delete always has an approval to consume. */
  lemma ApprovedDeleteConsumes(res: Resources, d: Desired, arts: Artifacts, g: GraphId)
    requires DeleteApproved(res, d, arts, g)
    ensures Consumable(arts, g, d.configDigest).Some?
  {
    ConsumableExists(arts, g, d.configDigest);
  }

  /** What the re-location in apply looks at: neither digest of the change is among it. */
  predicate Candidate(art: Approval, g: GraphId, config: Digest) {
    !art.consumed && art.resource == Graph(g) && art.config == config
  }

  lemma {:induction false} ConsumesFirstCandidate(arts: Artifacts, g: GraphId, config: Digest, k: nat)
    requires k < |arts| && Candidate(arts[k].1, g, config) && forall i :: 0 <= i < k ==> !Candidate(arts[i].1, g, config)
    ensures Consumable(arts, g, config) == Some(arts[k].0)
  {
    if k > 0 {
      assert forall i :: 0 < i < |arts| ==> arts[i] == arts[1..][i - 1];
      assert !Candidate(arts[0].1, g, config);
      ConsumesFirstCandidate(arts[1..], g, config, k - 1);
    }
  }

  /** Every candidate that does not authorize the delete is listed behind one that does. */
  ghost predicate StaleComeLater(arts: Artifacts, c: Change, g: GraphId, config: Digest) {
    forall i :: 0 <= i < |arts| && Candidate(arts[i].1, g, config) && !Authorizes(arts[i].1, c, config) ==>
      exists j :: 0 <= j < i && Authorizes(arts[j].1, c, config)
  }

  lemma {:induction false} FirstCandidate(arts: Artifacts, g: GraphId, config: Digest, n: nat) returns (k: nat)
    requires n < |arts| && Candidate(arts[n].1, g, config)
    ensures k <= n && Candidate(arts[k].1, g, config) && forall i :: 0 <= i < k ==> !Candidate(arts[i].1, g, config)
  {
    if i :| 0 <= i < n && Candidate(arts[i].1, g, config) {
      k := FirstCandidate(arts, g, config, i);
    } else {
      k := n;
    }
  }

  /** An approved delete consumes an artifact that authorizes it exactly when no stale candidate is listed before. */
  lemma ConsumesAuthorizingIff(res: Resources, d: Desired, arts: Artifacts, g: GraphId) returns (k: nat)
    requires DeleteApproved(res, d, arts, g)
    ensures k < |arts| && Consumable(arts, g, d.configDigest) == Some(arts[k].0)
    ensures var c := DigestChange(Graph(g), Delete, Some(res[Graph(g)].digest), None);
            Authorizes(arts[k].1, c, d.configDigest) <==> StaleComeLater(arts, c, g, d.configDigest)
  {
    var c := DigestChange(Graph(g), Delete, Some(res[Graph(g)].digest), None);
    var n :| 0 <= n < |arts| && !arts[n].1.consumed && arts[n].1.resource == Graph(g) && arts[n].1.config == d.configDigest
             && arts[n].1.before == Some(res[Graph(g)].digest) && arts[n].1.after == None;
    assert Authorizes(arts[n].1, c, d.configDigest);
    k := FirstCandidate(arts, g, d.configDigest, n);
    ConsumesFirstCandidate(arts, g, d.configDigest, k);
    assert forall j :: 0 <= j < |arts| && Authorizes(arts[j].1, c, d.configDigest) ==> Candidate(arts[j].1, g, d.configDigest);
  }

  /**
   The consumed artifact need not be the one that authorized the delete: a stale artifact for the same graph and
   config, listed first, is consumed in its place.
   */
  lemma StaleApprovalConsumed(res: Resources, d: Desired, g: GraphId, stale: Digest)
    requires Graph(g) in res && res[Graph(g)].digest != stale
    ensures var arts := [("1", Approval(Graph(g), d.configDigest, Some(stale), None, false)),
                         ("2", Approval(Graph(g), d.configDigest, Some(res[Graph(g)].digest), None, false))];
            DeleteApproved(res, d, arts, g) && Consumable(arts, g, d.configDigest) == Some("1")
  {
    var arts := [("1", Approval(Graph(g), d.configDigest, Some(stale), None, false)),
                 ("2", Approval(Graph(g), d.configDigest, Some(res[Graph(g)].digest), None, false))];
    assert arts[1].1.before == Some(res[Graph(g)].digest);
  }
}
