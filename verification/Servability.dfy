/**
 What a server may trust even when existence probes fail: a failed probe mostly removes ledger entries, and an entry that
 is gone is not served. The one exception is a create intent that is retired unseen beside a stale entry.
 */
module Servability {
  import opened Addresses
  import opened Digests
  import opened Ledgers
  import opened Sweep
  import opened Coverage
  import opened Plan
  import opened Classify
  import opened Apply
  import opened ApplySafety
  import opened ApplyOutcome
  import opened CrashSafety
  import opened ApplyIsSafe
  import opened Refresh

  /** The ledger does not record `g`, or `g` is covered. */
  ghost predicate Trusted(res: Resources, live: map<GraphId, Root>, sc: map<OpId, Sidecar>, g: GraphId) {
    Recorded(res, g) == None || Covered(res, live, sc, g)
  }

  ghost predicate TrustedIn(w: World, g: GraphId) {
    Trusted(ResourcesOf(w), w.live, w.sidecars, g)
  }

  // ---- the sweep ----

  /** A create intent is retired over a root that was not seen, beside a recorded digest that is not the live one. */
  ghost predicate Misleads(res: Resources, p: Probe, live: map<GraphId, Root>, sc: map<OpId, Sidecar>, g: GraphId) {
    p.sidecar.kind == GraphCreate && Recorded(res, g).Some? && Strands(res, p, live, sc, g)
  }

  lemma ClassifyingKeepsTrustIff(res: Resources, p: Probe, live: map<GraphId, Root>, sc: map<OpId, Sidecar>, g: GraphId)
    requires Paired(res) && Trusted(res, live, sc, g)
    requires p.op in sc && sc[p.op] == p.sidecar && Reports(p.seen, RootOf(live, p.sidecar.graph))
    ensures Trusted(ApplyEffect(res, p.sidecar.graph, EffectOf(res, p)), live, Remaining(res, p, sc), g) <==> !Misleads(res, p, live, sc, g)
  {
    var e := EffectOf(res, p);
    if Covered(res, live, sc, g) {
      ClassifyingIsSafeIff(res, p, live, sc, g);
      SchemaNeverStrands(res, p, live, sc, g);
      PrunedFacts(res, g);
    } else if p.sidecar.graph != g {
      EffectFrame(res, p.sidecar.graph, e);
      assert !InSubtree(Schema(g), p.sidecar.graph);
    } else {
      assert Covers(p.sidecar, RootOf(live, g), g) ==> CoverLeft(sc, RootOf(live, g), g);
      PrunedFacts(res, g);
    }
  }

  ghost predicate SweepMisleads(st: Swept, ps: seq<Probe>, live: map<GraphId, Root>, sc: map<OpId, Sidecar>, g: GraphId)
    decreases |ps|
  {
    ps != [] && (Misleads(st.ledger.resources, ps[0], live, sc, g)
                 || SweepMisleads(SweepOne(st, ps[0]), ps[1..], live, Remaining(st.ledger.resources, ps[0], sc), g))
  }

  lemma {:induction false} MisleadingStrands(st: Swept, ps: seq<Probe>, live: map<GraphId, Root>, sc: map<OpId, Sidecar>, g: GraphId)
    requires SweepMisleads(st, ps, live, sc, g)
    ensures SweepStrands(st, ps, live, sc, g)
    decreases |ps|
  {
    if !Misleads(st.ledger.resources, ps[0], live, sc, g) {
      MisleadingStrands(SweepOne(st, ps[0]), ps[1..], live, Remaining(st.ledger.resources, ps[0], sc), g);
    }
  }

  lemma {:induction false} SweepKeepsTrust(st: Swept, ps: seq<Probe>, live: map<GraphId, Root>, sc: map<OpId, Sidecar>, g: GraphId)
    requires Paired(st.ledger.resources) && Listing(ps, sc, live) && Trusted(st.ledger.resources, live, sc, g)
    requires !SweepMisleads(st, ps, live, sc, g)
    ensures var st' := SweepAll(st, ps);
            && st.outcome.completed <= st'.outcome.completed
            && Trusted(st'.ledger.resources, live, sc - OpSet(st'.outcome.completed[|st.outcome.completed|..]), g)
    decreases |ps|
  {
    if ps == [] {
      assert st.outcome.completed[|st.outcome.completed|..] == [] && sc - OpSet([]) == sc;
    } else {
      var p, st1, res := ps[0], SweepOne(st, ps[0]), st.ledger.resources;
      var sc1 := Remaining(res, p, sc);
      SweepOneSummary(st, p);
      EffectFrame(res, p.sidecar.graph, EffectOf(res, p));
      assert p in ps;
      ClassifyingKeepsTrustIff(res, p, live, sc, g);
      ListingTail(ps, res, live, sc);
      SweepKeepsTrust(st1, ps[1..], live, sc1, g);
      RetiredInTwo(st, ps, sc);
    }
  }

  lemma SweptTrust(l0: Ledger, ps: seq<Probe>, live: map<GraphId, Root>, sc: map<OpId, Sidecar>, g: GraphId)
    requires Paired(l0.resources) && Listing(ps, sc, live) && Trusted(l0.resources, live, sc, g)
    requires !SweepMisleads(Swept(l0, NoOutcome), ps, live, sc, g)
    ensures var st := SweepLedger(l0, ps); Trusted(st.ledger.resources, live, sc - OpSet(st.outcome.completed), g)
  {
    SweepKeepsTrust(Swept(l0, NoOutcome), ps, live, sc, g);
    var done := SweepLedger(l0, ps).outcome.completed;
    assert done[0..] == done;
  }

  // ---- retirement ----

  ghost predicate LogTrusted(log: seq<Entry>, g: GraphId) {
    forall e :: e in log ==> TrustedIn(e.world, g)
  }

  /** Trusted even if every sidecar outside `kept` disappears. */
  ghost predicate TrustedOver(w: World, kept: map<OpId, Sidecar>, g: GraphId) {
    Trusted(ResourcesOf(w), w.live, kept, g) && Submap(kept, w.sidecars)
  }

  lemma TrustedOverIsTrusted(w: World, kept: map<OpId, Sidecar>, g: GraphId)
    requires TrustedOver(w, kept, g)
    ensures TrustedIn(w, g)
  {
    if Recorded(ResourcesOf(w), g).Some? {
      CoveredFrame(ResourcesOf(w), w.live, kept, ResourcesOf(w), w.live, w.sidecars, g);
    }
  }

  lemma {:induction false} DropAllTrusted(r: Run, ops: seq<OpId>, drop: OpId -> bool, kept: map<OpId, Sidecar>, g: GraphId)
    requires LogTrusted(r.log, g) && TrustedOver(r.world, kept, g) && forall op :: op in ops ==> op !in kept
    ensures var r' := DropAll(r, ops, drop); LogTrusted(r'.log, g) && TrustedOver(r'.world, kept, g)
    decreases |ops|
  {
    if ops != [] {
      var r1 := DropSidecar(r, ops[0], drop(ops[0]));
      assert TrustedOver(r1.world, kept, g);
      TrustedOverIsTrusted(r1.world, kept, g);
      DropAllTrusted(r1, ops[1..], drop, kept, g);
    }
  }

  lemma {:induction false} MarkAllTrusted(r: Run, ids: seq<ApprovalId>, mark: ApprovalId -> bool, kept: map<OpId, Sidecar>, g: GraphId)
    requires LogTrusted(r.log, g) && TrustedOver(r.world, kept, g)
    ensures var r' := MarkAll(r, ids, mark); LogTrusted(r'.log, g) && TrustedOver(r'.world, kept, g)
    decreases |ids|
  {
    if ids != [] {
      var r1 := MarkOne(r, ids[0], mark(ids[0]));
      assert TrustedOver(r1.world, kept, g);
      TrustedOverIsTrusted(r1.world, kept, g);
      MarkAllTrusted(r1, ids[1..], mark, kept, g);
    }
  }

  lemma RetireTrusted(r: Run, ops: seq<OpId>, ids: seq<ApprovalId>, drop: OpId -> bool, mark: ApprovalId -> bool, kept: map<OpId, Sidecar>, g: GraphId)
    requires LogTrusted(r.log, g) && TrustedOver(r.world, kept, g) && forall op :: op in ops ==> op !in kept
    ensures var r' := MarkAll(DropAll(r, ops, drop), ids, mark); LogTrusted(r'.log, g) && TrustedIn(r'.world, g)
  {
    DropAllTrusted(r, ops, drop, kept, g);
    MarkAllTrusted(DropAll(r, ops, drop), ids, mark, kept, g);
    TrustedOverIsTrusted(MarkAll(DropAll(r, ops, drop), ids, mark).world, kept, g);
  }

  // ---- apply ----

  lemma SoundLogTrusted(c: Ctx, r: Run, g: GraphId)
    requires c.w.ledger == Some(c.l0) && Sound(c, r, {}) && (Recorded(c.l0.resources, g) == None || g !in c.adrift)
    ensures LogTrusted(r.log, g) && TrustedIn(r.world, g)
  {
    forall e | e in r.log ensures TrustedIn(e.world, g) { assert SafeStep(c, e.world); }
  }

  /** The written ledger records `g` only where the run left it covered. */
  lemma CommitTrusted(c: Ctx, l1: Ledger, pending: set<GraphId>, plan: seq<Change>, final: seq<Change>, paid: Run, r: Run, l2: Ledger, g: GraphId)
    requires Concluded(c, l1, pending, plan, final, paid, r, l2) && (Recorded(c.res, g) == None || g !in c.lost)
    ensures Trusted(l2.resources, r.world.live, Kept(c, r), g)
  {
    LedgerTellsTruth(c, l1, pending, plan, final, paid, r, l2, g);
    assert Tracked(c, r, g);
    TrackedIsTrusted(c, r, l2.resources, g);
  }

  lemma TrackedIsTrusted(c: Ctx, r: Run, res: Resources, g: GraphId)
    requires Tracked(c, r, g) && (Recorded(c.res, g) == None || g !in c.lost)
    requires Recorded(res, g) == if c.env.op(g) in r.completed then DigestOf(Target(c.d, g)) else Recorded(c.res, g)
    ensures Trusted(res, r.world.live, Kept(c, r), g)
  {
    if c.env.op(g) !in r.completed && Recorded(res, g).Some? {
      CoveredFrame(c.res, r.world.live, Kept(c, r), res, r.world.live, Kept(c, r), g);
    }
  }

  lemma CommitOverTrusted(l0: Ledger, x: Execution, d: Desired, env: Env, kept: map<OpId, Sidecar>, g: GraphId)
    requires LogTrusted(x.deleted.log, g) && TrustedIn(x.deleted.world, g) && x.deleted.world.ledger == Some(l0)
    requires Trusted(x.ledger.resources, x.deleted.world.live, kept, g) && Submap(kept, x.deleted.world.sidecars)
    requires forall op :: op in x.swept.outcome.completed + x.deleted.completed ==> op !in kept
    ensures var rep := Commit(l0, x, d, env); LogTrusted(rep.run.log, g) && TrustedIn(rep.run.world, g)
  {
    var ops, ids := x.swept.outcome.completed + x.deleted.completed, x.swept.outcome.consumed + ConsumedIds(x.deleted.removed);
    if x.ledger == l0 {
      RetireTrusted(x.deleted, ops, Listed(env.files, ids), env.drop, env.mark, kept, g);
    } else if env.putState != Lost {
      var r1 := Step(x.deleted, WroteState, x.deleted.world.(ledger := Some(Committed(x.ledger))));
      assert TrustedOver(r1.world, kept, g);
      TrustedOverIsTrusted(r1.world, kept, g);
      if env.putState == Done { RetireTrusted(r1, ops, Listed(env.files, ids), env.drop, env.mark, kept, g); }
    }
  }

  lemma ConcludeTrusted(w: World, l0: Ledger, x: Execution, d: Desired, env: Env, g: GraphId)
    requires TrustedIn(w, g) && LogTrusted(x.paid.run.log, g) && TrustedIn(x.paid.run.world, g)
    requires var rep := Commit(l0, x, d, env); LogTrusted(rep.run.log, g) && TrustedIn(rep.run.world, g)
    ensures var rep := Conclude(w, l0, x, d, env); LogTrusted(rep.run.log, g) && TrustedIn(rep.run.world, g)
  {
  }

  lemma ExecuteTrusted(w: World, l0: Ledger, d: Desired, env: Env, g: GraphId)
    requires w.ledger == Some(l0) && Shaped(w) && Admissible(w, d, env) && TrustedIn(w, g)
    requires !SweepMisleads(Swept(l0, NoOutcome), env.probes, w.live, w.sidecars, g)
    ensures var c := CtxOf(w, l0, d, env);
            (Recorded(l0.resources, g) == None || g !in c.adrift) && (Recorded(c.res, g) == None || g !in c.lost)
  {
    SweptTrust(l0, env.probes, w.live, w.sidecars, g);
  }

  /** Apply keeps a graph trusted, in every world it leaves, unless its own sweep misleads. */
  lemma ApplyKeepsTrust(w: World, d: Desired, env: Env, g: GraphId)
    requires Shaped(w) && Admissible(w, d, env) && TrustedIn(w, g)
    requires w.ledger.Some? ==> !SweepMisleads(Swept(w.ledger.value, NoOutcome), env.probes, w.live, w.sidecars, g)
    ensures LogTrusted(ApplyCommand(w, d, env).run.log, g) && TrustedIn(ApplyCommand(w, d, env).run.world, g)
  {
    if w.ledger.Some? && AllBound(w.ledger.value.resources) {
      var l0 := w.ledger.value;
      ExecuteTrusted(w, l0, d, env, g);
      ExecuteFacts(w, l0, d, env);
      SoundLogTrusted(CtxOf(w, l0, d, env), Execute(w, l0, d, env).paid.run, g);
      RunTrusted(w, l0, d, env, g);
      ConcludeTrusted(w, l0, Execute(w, l0, d, env), d, env, g);
    }
  }

  lemma RunTrusted(w: World, l0: Ledger, d: Desired, env: Env, g: GraphId)
    requires w.ledger == Some(l0) && Shaped(w) && Admissible(w, d, env)
    requires var c := CtxOf(w, l0, d, env);
             (Recorded(l0.resources, g) == None || g !in c.adrift) && (Recorded(c.res, g) == None || g !in c.lost)
    ensures var rep := Commit(l0, Execute(w, l0, d, env), d, env); LogTrusted(rep.run.log, g) && TrustedIn(rep.run.world, g)
  {
    var c, x := CtxOf(w, l0, d, env), Execute(w, l0, d, env);
    ExecuteFacts(w, l0, d, env);
    SoundLogTrusted(c, x.deleted, g);
    CommitTrusted(c, x.swept.ledger, x.swept.outcome.pending, x.plan, x.final, x.paid.run, x.deleted, x.ledger, g);
    CommitOverTrusted(l0, x, d, env, Kept(c, x.deleted), g);
  }

  // ---- refresh and import ----

  ghost predicate SyncMisleads(l0: Ledger, w: World, d: Desired, e: SyncEnv, g: GraphId) {
    !Observable(d.graphs, e.seen, g) && SweepMisleads(Swept(l0, NoOutcome), e.probes, w.live, w.sidecars, g)
  }

  lemma SyncLedgerTrusted(l0: Ledger, w: World, d: Desired, e: SyncEnv, g: GraphId)
    requires Paired(l0.resources) && SyncAdmissible(w, e) && Trusted(l0.resources, w.live, w.sidecars, g) && !SyncMisleads(l0, w, d, e, g)
    ensures Trusted(SyncLedger(l0, w, d, e).resources, w.live, SyncKept(l0, w, e), g)
  {
    var l1 := Verified(SweepLedger(l0, e.probes).ledger, w, e);
    if Observable(d.graphs, e.seen, g) {
      ObserveAllRecords(l1, d.graphs, e.seen, g);
      assert Reports(e.seen(g), RootOf(w.live, g));
    } else {
      SweptTrust(l0, e.probes, w.live, w.sidecars, g);
      VerifiedGraph(SweepLedger(l0, e.probes).ledger, w, e, g);
      ObserveNotAgain(l1, d.graphs, e.seen, g);
    }
  }

  /** Refresh and import keep a graph trusted unless their sweep misleads and no observation corrects it. */
  lemma SyncKeepsTrust(w: World, op: SyncOperation, d: Desired, e: SyncEnv, g: GraphId)
    requires Shaped(w) && SyncAdmissible(w, e) && TrustedIn(w, g)
    requires SyncProceeds(w, op, d, e) ==> !SyncMisleads(SyncBase(w, op, d), w, d, e, g)
    ensures LogTrusted(SyncCommand(w, op, d, e).log, g) && TrustedIn(SyncCommand(w, op, d, e).world, g)
  {
    var l0 := SyncBase(w, op, d);
    if SyncProceeds(w, op, d, e) {
      assert ResourcesOf(w) == l0.resources;
      SyncLedgerTrusted(l0, w, d, e, g);
      var l1 := SyncLedger(l0, w, d, e);
      var l2 := l1.(revision := if op == ImportState then 1 else NextRevision(l1.revision));
      SyncWriteTrusted(w, l2, SweepLedger(l0, e.probes).outcome, e, SyncKept(l0, w, e), g);
    }
  }

  lemma SyncWriteTrusted(w: World, l: Ledger, outcome: SweepOutcome, e: SyncEnv, kept: map<OpId, Sidecar>, g: GraphId)
    requires TrustedIn(w, g) && TrustedOver(w.(ledger := Some(l)), kept, g) && forall op :: op in outcome.completed ==> op !in kept
    ensures LogTrusted(SyncWrite(w, l, outcome, e).log, g) && TrustedIn(SyncWrite(w, l, outcome, e).world, g)
  {
    if e.putState != Lost {
      var r1 := Step(Start(w), WroteState, w.(ledger := Some(l)));
      TrustedOverIsTrusted(r1.world, kept, g);
      if e.putState == Done { RetireTrusted(r1, outcome.completed, Listed(e.files, outcome.consumed), e.drop, e.mark, kept, g); }
    }
  }
}
