/** Retirement by refresh and import, and what two commands in a row leave of a graph's sidecars. */
module RefreshRetires {
  import opened Addresses
  import opened Digests
  import opened Sorting
  import opened Ledgers
  import opened Sweep
  import opened Coverage
  import opened SweepFixpoint
  import opened Plan
  import opened Apply
  import opened ApplyOutcome
  import opened CrashSafety
  import opened Recoveries
  import opened Refresh
  import opened Retirement

  /** The sync writes its ledger and goes on to retirement. */
  predicate SyncFinishes(w: World, op: SyncOperation, d: Desired, e: SyncEnv) {
    SyncProceeds(w, op, d, e) && e.putState == Done
  }

  /**
   A finished sync leaves exactly the sidecars its sweep did not complete and those whose drop failed, and marks exactly
   the listed files of the approvals its sweep spent.
   */
  lemma SyncRetires(w: World, op: SyncOperation, d: Desired, e: SyncEnv)
    requires SyncFinishes(w, op, d, e)
    ensures var swept, w' := SweepLedger(SyncBase(w, op, d), e.probes), SyncCommand(w, op, d, e).world;
            Retires(w, w', swept.outcome.completed, e.files, swept.outcome.consumed, e.drop, e.mark)
  {
    var l0 := SyncBase(w, op, d);
    var l1, outcome := SyncLedger(l0, w, d, e), SweepLedger(l0, e.probes).outcome;
    var l2 := l1.(revision := if op == ImportState then 1 else NextRevision(l1.revision));
    RetiresExactly(Step(Start(w), WroteState, w.(ledger := Some(l2))), outcome.completed, e.files, outcome.consumed, e.drop, e.mark);
  }

  /** With every drop done, the sidecars a sync leaves are those of a committed sweep. */
  lemma SyncCommitsSweep(w: World, op: SyncOperation, d: Desired, e: SyncEnv)
    requires SyncFinishes(w, op, d, e) && forall o :: e.drop(o)
    ensures SyncCommand(w, op, d, e).world.sidecars == CommitSweep(Stores(SyncBase(w, op, d), w.sidecars), e.probes).sidecars
  {
    SyncRetires(w, op, d, e);
  }

  /** A finished sync marks a listed file exactly if a removal of its sweep names the approval. */
  lemma SyncMarksSpent(w: World, op: SyncOperation, d: Desired, e: SyncEnv, id: ApprovalId)
    requires SyncFinishes(w, op, d, e) && id in w.approvals
    ensures var w' := SyncCommand(w, op, d, e).world;
            id in w'.approvals
            && (w'.approvals[id].consumed <==>
                  || w.approvals[id].consumed
                  || (id in e.files && e.mark(id) && exists i: nat :: SpendsAt(Swept(SyncBase(w, op, d), NoOutcome), e.probes, i, id)))
  {
    SyncRetires(w, op, d, e);
    SweepConsumesIff(Swept(SyncBase(w, op, d), NoOutcome), e.probes, id);
  }

  lemma ObserveOneTombstones(l: Ledger, dg: DesiredGraph, seen: Root)
    ensures NewTombstones(l, ObserveOne(l, dg, seen), [])
  {
  }

  lemma {:induction false} ObserveTombstones(l: Ledger, graphs: seq<DesiredGraph>, seen: GraphId -> Root)
    ensures NewTombstones(l, ObserveAll(l, graphs, seen), [])
    decreases |graphs|
  {
    if graphs != [] {
      var l1 := ObserveOne(l, graphs[0], seen(graphs[0].id));
      ObserveOneTombstones(l, graphs[0], seen(graphs[0].id));
      ObserveTombstones(l1, graphs[1..], seen);
      NewTombstonesTrans(l, l1, ObserveAll(l1, graphs[1..], seen), [], []);
    }
  }

  /** Every approval a new tombstone of the synced ledger names ends consumed in its listed file when marking goes through. */
  lemma SyncedTombstonesAreMarked(w: World, op: SyncOperation, d: Desired, e: SyncEnv, a: Address, id: ApprovalId)
    requires SyncFinishes(w, op, d, e) && NewlyNames(SyncBase(w, op, d), SyncLedger(SyncBase(w, op, d), w, d, e), a, id)
    requires id in w.approvals && id in e.files && e.mark(id)
    ensures var w' := SyncCommand(w, op, d, e).world; id in w'.approvals && w'.approvals[id].consumed
  {
    var l0 := SyncBase(w, op, d);
    var swept := SweepLedger(l0, e.probes);
    SweepTombstones(Swept(l0, NoOutcome), e.probes);
    VerifiedAt(swept.ledger, w, e, a);
    ObserveTombstones(Verified(swept.ledger, w, e), d.graphs, e.seen);
    SyncRetires(w, op, d, e);
  }

  // ---- the fate of a graph's own sidecars in one sweep ----

  /** The ledger records what is live. */
  predicate Known(res: Resources, root: Root, g: GraphId) {
    root.Open? && Recorded(res, g) == Some(root.schema)
  }

  /** A sidecar that a sweep over `root` does not get past, while the ledger does or does not know the live schema. */
  predicate Stuck(s: Sidecar, root: Root, known: bool) {
    s.kind != GraphDelete &&
    match root
    case Absent => s.kind == SchemaApply
    case Partial => true
    case Open(d) => !known && s.desiredSchema != d
  }

  /** Some sidecar among `ps` will make the ledger know the live schema. */
  ghost predicate Teaches(ps: seq<Probe>, root: Root, g: GraphId) {
    root.Open? && exists p :: p in ps && p.sidecar.graph == g && p.sidecar.kind != GraphDelete && p.sidecar.desiredSchema == root.schema
  }

  lemma {:induction false} CompletedElsewhere(st: Swept, ps: seq<Probe>, op: OpId)
    requires forall p :: p in ps ==> p.op != op
    ensures op in SweepAll(st, ps).outcome.completed <==> op in st.outcome.completed
    decreases |ps|
  {
    if ps != [] {
      assert ps[0] in ps;
      SweepOneSummary(st, ps[0]);
      CompletedElsewhere(SweepOne(st, ps[0]), ps[1..], op);
    }
  }

  lemma KnownStep(st: Swept, p: Probe, g: GraphId, root: Root)
    requires p.sidecar.graph == g ==> p.seen == root
    requires !Known(st.ledger.resources, root, g) ==> !Teaches([p], root, g)
    ensures Known(SweepOne(st, p).ledger.resources, root, g) <==> Known(st.ledger.resources, root, g)
  {
    if root.Open? {
      RecordedStep(st, p, g, root.schema);
      assert p in [p];
    }
  }

  lemma {:induction false} OwnFate(st: Swept, ps: seq<Probe>, g: GraphId, root: Root, q: Probe)
    requires DistinctOps(ps) && q in ps && q.sidecar.graph == g && q.op !in st.outcome.completed
    requires forall p :: p in ps && p.sidecar.graph == g ==> p.seen == root
    requires Known(st.ledger.resources, root, g) || !Teaches(ps, root, g)
    ensures q.op in SweepAll(st, ps).outcome.completed <==> !Stuck(q.sidecar, root, Known(st.ledger.resources, root, g))
    decreases |ps|
  {
    var p, rest, st1 := ps[0], ps[1..], SweepOne(st, ps[0]);
    assert p in ps && forall x :: x in rest ==> x in ps;
    SweepOneSummary(st, p);
    if p == q {
      assert forall i :: 0 <= i < |rest| ==> rest[i] == ps[i + 1];
      CompletedElsewhere(st1, rest, q.op);
    } else {
      KnownStep(st, p, g, root);
      OpsApartFirst(ps, q);
      OwnFate(st1, rest, g, root, q);
    }
  }

  lemma OpsApartFirst(ps: seq<Probe>, q: Probe)
    requires DistinctOps(ps) && q in ps && q != ps[0]
    ensures q in ps[1..] && q.op != ps[0].op && DistinctOps(ps[1..])
  {
    var i :| 0 <= i < |ps| && ps[i] == q;
    assert ps[1..][i - 1] == q;
    assert forall j :: 0 <= j < |ps| - 1 ==> ps[1..][j] == ps[j + 1];
  }

  /** After one committed sweep over a full listing, what stands of a graph is what is stuck, unless the sweep learned. */
  lemma SweepFate(s: Stores, ps: seq<Probe>, live: map<GraphId, Root>, g: GraphId, op: OpId)
    requires FullListing(ps, s.sidecars, live) && op in s.sidecars && s.sidecars[op].graph == g
    requires var root := RootOf(live, g); Known(s.ledger.resources, root, g) || !Teaches(ps, root, g)
    ensures op in CommitSweep(s, ps).sidecars <==> Stuck(s.sidecars[op], RootOf(live, g), Known(s.ledger.resources, RootOf(live, g), g))
  {
    OwnFate(Swept(s.ledger, NoOutcome), ps, g, RootOf(live, g), Probe(op, s.sidecars[op], RootOf(live, g)));
  }

  /** A sweep ends knowing the live schema exactly if it started so or some sidecar taught it. */
  lemma SweepLearns(s: Stores, ps: seq<Probe>, live: map<GraphId, Root>, g: GraphId)
    requires FullListing(ps, s.sidecars, live)
    ensures var root := RootOf(live, g);
            Known(CommitSweep(s, ps).ledger.resources, root, g) <==> Known(s.ledger.resources, root, g) || Teaches(ps, root, g)
  {
    if RootOf(live, g).Open? { FinalRecorded(Swept(s.ledger, NoOutcome), ps, g, RootOf(live, g).schema); }
  }

  lemma TeachesIff(s: Stores, ps: seq<Probe>, live: map<GraphId, Root>, g: GraphId)
    requires FullListing(ps, s.sidecars, live)
    ensures var root := RootOf(live, g);
            Teaches(ps, root, g) <==>
            root.Open? && exists op :: op in s.sidecars && s.sidecars[op].graph == g && s.sidecars[op].kind != GraphDelete
                                       && s.sidecars[op].desiredSchema == root.schema
  {
    var root := RootOf(live, g);
    if Teaches(ps, root, g) {
      var p :| p in ps && p.sidecar.graph == g && p.sidecar.kind != GraphDelete && p.sidecar.desiredSchema == root.schema;
      assert p.op in s.sidecars && s.sidecars[p.op] == p.sidecar;
    }
    if op :| root.Open? && op in s.sidecars && s.sidecars[op].graph == g && s.sidecars[op].kind != GraphDelete && s.sidecars[op].desiredSchema == root.schema {
      assert Probe(op, s.sidecars[op], root) in ps;
    }
  }

  // ---- two sweeps with anything in between ----

  /** Among the sidecars of `before`, those of graph `g` are gone from `after`. */
  ghost predicate Cleared(before: map<OpId, Sidecar>, after: map<OpId, Sidecar>, g: GraphId) {
    forall op :: op in before && before[op].graph == g ==> op !in after
  }

  lemma ResolvableIff(s: Stores, ps: seq<Probe>, live: map<GraphId, Root>, g: GraphId)
    requires FullListing(ps, s.sidecars, live)
    ensures var root := RootOf(live, g);
            Resolvable(s, live, g) <==>
            || Known(s.ledger.resources, root, g) || Teaches(ps, root, g)
            || forall op :: op in s.sidecars && s.sidecars[op].graph == g ==> !Stuck(s.sidecars[op], root, false)
  {
    TeachesIff(s, ps, live, g);
  }

  /**
   What a command that swept `s` leaves for `g`, as far as a second command is concerned: of the sidecars found, those of
   a committed sweep; and, if any of `g` is left, its root untouched, no new sidecar of it, and its ledger entry the swept
   one unless the command adopted the live schema.
   */
  ghost predicate Leaves(s: Stores, ps: seq<Probe>, live: map<GraphId, Root>, s1: Stores, live1: map<GraphId, Root>, g: GraphId, adopted: bool) {
    var root, swept := RootOf(live, g), CommitSweep(s, ps);
    && (forall op :: op in s.sidecars && s.sidecars[op].graph == g ==> (op in s1.sidecars <==> op in swept.sidecars))
    && (!Cleared(s.sidecars, s1.sidecars, g) ==>
          && RootOf(live1, g) == root
          && (forall op :: op in s1.sidecars && s1.sidecars[op].graph == g ==> op in s.sidecars)
          && (forall op :: op in s.sidecars && op in s1.sidecars ==> s1.sidecars[op] == s.sidecars[op])
          && (Known(s1.ledger.resources, root, g) <==> Known(swept.ledger.resources, root, g) || (adopted && root.Open?)))
  }

  lemma ClearedAtOnce(s: Stores, ps: seq<Probe>, live: map<GraphId, Root>, g: GraphId)
    requires FullListing(ps, s.sidecars, live) && Cleared(s.sidecars, CommitSweep(s, ps).sidecars, g)
    ensures Resolvable(s, live, g)
  {
    var root := RootOf(live, g);
    ResolvableIff(s, ps, live, g);
    if !Known(s.ledger.resources, root, g) && !Teaches(ps, root, g) {
      forall op | op in s.sidecars && s.sidecars[op].graph == g ensures !Stuck(s.sidecars[op], root, false) { SweepFate(s, ps, live, g, op); }
    }
  }

  /** The second sweep when the ledger by then knows the live schema: nothing of the graph stays. */
  lemma KnownClears(s1: Stores, ps': seq<Probe>, live1: map<GraphId, Root>, g: GraphId, op: OpId)
    requires FullListing(ps', s1.sidecars, live1) && op in s1.sidecars && s1.sidecars[op].graph == g && Known(s1.ledger.resources, RootOf(live1, g), g)
    ensures op !in CommitSweep(s1, ps').sidecars
  {
    SweepFate(s1, ps', live1, g, op);
  }

  lemma NothingTaught(s: Stores, ps: seq<Probe>, live: map<GraphId, Root>, s1: Stores, ps': seq<Probe>, live1: map<GraphId, Root>, g: GraphId)
    requires FullListing(ps, s.sidecars, live) && FullListing(ps', s1.sidecars, live1) && RootOf(live1, g) == RootOf(live, g)
    requires forall op :: op in s1.sidecars && s1.sidecars[op].graph == g ==> op in s.sidecars
    requires forall op :: op in s.sidecars && op in s1.sidecars ==> s1.sidecars[op] == s.sidecars[op]
    requires !Teaches(ps, RootOf(live, g), g)
    ensures !Teaches(ps', RootOf(live, g), g)
  {
    TeachesIff(s, ps, live, g);
    TeachesIff(s1, ps', live1, g);
  }

  /** The second sweep when nothing is known by then: exactly what is stuck stays, and it was left the first time too. */
  lemma UnknownStays(s: Stores, ps: seq<Probe>, live: map<GraphId, Root>, s1: Stores, ps': seq<Probe>, live1: map<GraphId, Root>,
                     g: GraphId, adopted: bool, op: OpId)
    requires FullListing(ps, s.sidecars, live) && FullListing(ps', s1.sidecars, live1) && Leaves(s, ps, live, s1, live1, g, adopted)
    requires !Cleared(s.sidecars, s1.sidecars, g) && op in s.sidecars && s.sidecars[op].graph == g
    requires !Known(s1.ledger.resources, RootOf(live, g), g)
    ensures op in CommitSweep(s1, ps').sidecars <==> Stuck(s.sidecars[op], RootOf(live, g), false)
  {
    SweepLearns(s, ps, live, g);
    SweepFate(s, ps, live, g, op);
    NothingTaught(s, ps, live, s1, ps', live1, g);
    if op in s1.sidecars { SweepFate(s1, ps', live1, g, op); }
  }

  lemma SecondSweepClears(s: Stores, ps: seq<Probe>, live: map<GraphId, Root>, s1: Stores, ps': seq<Probe>, live1: map<GraphId, Root>,
                          g: GraphId, adopted: bool)
    requires FullListing(ps, s.sidecars, live) && FullListing(ps', s1.sidecars, live1) && Leaves(s, ps, live, s1, live1, g, adopted)
    requires !Cleared(s.sidecars, s1.sidecars, g)
    ensures Cleared(s.sidecars, CommitSweep(s1, ps').sidecars, g) <==> Resolvable(s, live, g) || (adopted && RootOf(live, g).Open?)
  {
    var root := RootOf(live, g);
    SweepLearns(s, ps, live, g);
    ResolvableIff(s, ps, live, g);
    if Known(s1.ledger.resources, root, g) {
      forall op | op in s.sidecars && s.sidecars[op].graph == g ensures op !in CommitSweep(s1, ps').sidecars {
        if op in s1.sidecars { KnownClears(s1, ps', live1, g, op); }
      }
    } else {
      forall op | op in s.sidecars && s.sidecars[op].graph == g
        ensures op in CommitSweep(s1, ps').sidecars <==> Stuck(s.sidecars[op], root, false)
      {
        UnknownStays(s, ps, live, s1, ps', live1, g, adopted, op);
      }
    }
  }

  /** Two sweeps with whatever a command does in between clear a graph exactly if it is resolvable or was adopted. */
  lemma TwoCommandsClear(s: Stores, ps: seq<Probe>, live: map<GraphId, Root>, s1: Stores, ps': seq<Probe>, live1: map<GraphId, Root>,
                         g: GraphId, adopted: bool)
    requires FullListing(ps, s.sidecars, live) && FullListing(ps', s1.sidecars, live1) && Leaves(s, ps, live, s1, live1, g, adopted)
    ensures Cleared(s.sidecars, CommitSweep(s1, ps').sidecars, g) <==>
            Resolvable(s, live, g) || (adopted && RootOf(live, g).Open? && !Cleared(s.sidecars, s1.sidecars, g))
  {
    if Cleared(s.sidecars, s1.sidecars, g) {
      forall op | op in s.sidecars && s.sidecars[op].graph == g ensures op !in CommitSweep(s, ps).sidecars { assert op !in s1.sidecars; }
      ClearedAtOnce(s, ps, live, g);
    } else {
      SecondSweepClears(s, ps, live, s1, ps', live1, g, adopted);
    }
  }

  // ---- two refreshes ----

  /** The configuration declares `g`. */
  ghost predicate Declares(d: Desired, g: GraphId) {
    exists i :: 0 <= i < |d.graphs| && d.graphs[i].id == g
  }

  lemma SyncedRecord(w: World, op: SyncOperation, d: Desired, e: SyncEnv, g: GraphId)
    requires !e.seen(g).Partial?
    ensures var l0 := SyncBase(w, op, d);
            Recorded(SyncLedger(l0, w, d, e).resources, g) ==
            if Declares(d, g) then DigestOf(e.seen(g)) else Recorded(SweepLedger(l0, e.probes).ledger.resources, g)
  {
    var l := SweepLedger(SyncBase(w, op, d), e.probes).ledger;
    VerifiedGraph(l, w, e, g);
    if Declares(d, g) { ObserveAllRecords(Verified(l, w, e), d.graphs, e.seen, g); }
    else { ObserveNotAgain(Verified(l, w, e), d.graphs, e.seen, g); }
  }

  lemma SyncLeaves(w: World, op: SyncOperation, d: Desired, e: SyncEnv, g: GraphId)
    requires SyncFinishes(w, op, d, e) && (forall o :: e.drop(o)) && e.seen(g) == RootOf(w.live, g)
    ensures var w' := SyncCommand(w, op, d, e).world;
            w'.ledger.Some? && Leaves(Stores(SyncBase(w, op, d), w.sidecars), e.probes, w.live, Stores(w'.ledger.value, w'.sidecars), w'.live, g, Declares(d, g))
  {
    var l0, w' := SyncBase(w, op, d), SyncCommand(w, op, d, e).world;
    SyncCommitsSweep(w, op, d, e);
    var l1 := SyncLedger(l0, w, d, e);
    SyncedLedger(w, op, d, e);
    if RootOf(w.live, g).Open? { SyncedRecord(w, op, d, e, g); }
  }

  lemma SyncedLedger(w: World, op: SyncOperation, d: Desired, e: SyncEnv)
    requires SyncFinishes(w, op, d, e)
    ensures var w' := SyncCommand(w, op, d, e).world;
            w'.ledger.Some? && w'.ledger.value.resources == SyncLedger(SyncBase(w, op, d), w, d, e).resources && w'.live == w.live
  {
    var l0 := SyncBase(w, op, d);
    var l1, outcome := SyncLedger(l0, w, d, e), SweepLedger(l0, e.probes).outcome;
    var l2 := l1.(revision := if op == ImportState then 1 else NextRevision(l1.revision));
    var r1 := Step(Start(w), WroteState, w.(ledger := Some(l2)));
    RetirementKeepsLedger(r1, outcome.completed, e.drop);
    MarkingKeepsLedger(DropAll(r1, outcome.completed, e.drop), Listed(e.files, outcome.consumed), e.mark);
  }

  /**
   Two finished syncs with full, exact listings leave no sidecar of a graph exactly if a sweep can finish with it, or the
   graph opens and the first configuration declares it, so that the first sync adopted what is live.
   */
  lemma TwoRefreshesRetire(w: World, op: SyncOperation, d: Desired, e: SyncEnv, d': Desired, e': SyncEnv, g: GraphId)
    requires SyncFinishes(w, op, d, e) && (forall o :: e.drop(o)) && FullListing(e.probes, w.sidecars, w.live) && e.seen(g) == RootOf(w.live, g)
    requires var w1 := SyncCommand(w, op, d, e).world;
             SyncFinishes(w1, RefreshState, d', e') && (forall o :: e'.drop(o)) && FullListing(e'.probes, w1.sidecars, w1.live)
    ensures var w2 := SyncCommand(SyncCommand(w, op, d, e).world, RefreshState, d', e').world;
            NoSidecarOf(w2.sidecars, g) <==>
            Resolvable(Stores(SyncBase(w, op, d), w.sidecars), w.live, g) || (Declares(d, g) && RootOf(w.live, g).Open?)
  {
    var s, w1 := Stores(SyncBase(w, op, d), w.sidecars), SyncCommand(w, op, d, e).world;
    var w2 := SyncCommand(w1, RefreshState, d', e').world;
    SyncLeaves(w, op, d, e, g);
    SyncCommitsSweep(w, op, d, e);
    SyncCommitsSweep(w1, RefreshState, d', e');
    TwoCommandsClear(s, e.probes, w.live, Stores(w1.ledger.value, w1.sidecars), e'.probes, w1.live, g, Declares(d, g));
    SubsetCleared(w.sidecars, w1.sidecars, w2.sidecars, g);
    if Cleared(w.sidecars, w1.sidecars, g) { ClearedAtOnce(s, e.probes, w.live, g); }
  }

  lemma SubsetCleared(sc: map<OpId, Sidecar>, sc1: map<OpId, Sidecar>, sc2: map<OpId, Sidecar>, g: GraphId)
    requires forall op :: op in sc1 ==> op in sc && sc1[op] == sc[op]
    requires forall op :: op in sc2 ==> op in sc1 && sc2[op] == sc1[op]
    ensures NoSidecarOf(sc2, g) <==> Cleared(sc, sc2, g)
  {
  }
}
