/** Every world an apply run leaves behind, finished or crashed, satisfies the invariant. */
module ApplyIsSafe {
  import opened Addresses
  import opened Digests
  import opened Ledgers
  import opened Sweep
  import opened Coverage
  import opened SweepFixpoint
  import opened Plan
  import opened Classify
  import opened Apply
  import opened ApplySafety
  import opened ApplyLedger
  import opened ApplyOutcome
  import opened CrashSafety

  /** What an apply may assume: a loaded configuration, fresh ULIDs, and a listing of stored sidecars. */
  ghost predicate Admissible(w: World, d: Desired, env: Env) {
    Declared(d) && FreshOps(env, w) && Listing(env.probes, w.sidecars, w.live)
  }

  /** The command's sweep strands none of the graphs outside `lost`. */
  ghost predicate SweepSpares(w: World, l0: Ledger, probes: seq<Probe>, lost: iset<GraphId>) {
    forall g :: g !in lost ==> !SweepStrands(Swept(l0, NoOutcome), probes, w.live, w.sidecars, g)
  }

  lemma SparedAreKept(w: World, l0: Ledger, d: Desired, env: Env, lost: iset<GraphId>)
    requires w.ledger == Some(l0) && SafeBut(w, lost) && Admissible(w, d, env) && SweepSpares(w, l0, env.probes, lost)
    ensures CtxOf(w, l0, d, env).adrift <= lost && CtxOf(w, l0, d, env).lost <= lost
  {
    forall g | g !in lost ensures g !in CtxOf(w, l0, d, env).adrift && g !in CtxOf(w, l0, d, env).lost {
      assert Covered(ResourcesOf(w), w.live, w.sidecars, g);
      LostIffStranded(w, l0, d, env, g);
    }
  }

  ghost predicate LogSafe(log: seq<Entry>, lost: iset<GraphId>) {
    forall e :: e in log ==> SafeBut(e.world, lost)
  }

  // ---- after the state write: only retirement is left ----

  ghost predicate Submap(kept: map<OpId, Sidecar>, sc: map<OpId, Sidecar>) {
    forall op :: op in kept ==> op in sc && sc[op] == kept[op]
  }

  /** Safe even if every sidecar outside `kept` disappears. */
  ghost predicate SafeOver(w: World, kept: map<OpId, Sidecar>, lost: iset<GraphId>) {
    && w.ledger.Some? && Paired(ResourcesOf(w)) && WellKinded(ResourcesOf(w))
    && (forall g :: g !in lost ==> Covered(ResourcesOf(w), w.live, kept, g)) && Submap(kept, w.sidecars)
    && TombstonesAudited(w.ledger.value) && FilesAudited(w)
  }

  lemma SafeOverIsSafe(w: World, kept: map<OpId, Sidecar>, lost: iset<GraphId>)
    requires SafeOver(w, kept, lost)
    ensures SafeBut(w, lost)
  {
    forall g | g !in lost ensures Covered(ResourcesOf(w), w.live, w.sidecars, g) {
      CoveredFrame(ResourcesOf(w), w.live, kept, ResourcesOf(w), w.live, w.sidecars, g);
    }
  }

  lemma {:induction false} DropAllSafe(r: Run, ops: seq<OpId>, drop: OpId -> bool, kept: map<OpId, Sidecar>, lost: iset<GraphId>)
    requires LogSafe(r.log, lost) && SafeOver(r.world, kept, lost) && forall op :: op in ops ==> op !in kept
    ensures var r' := DropAll(r, ops, drop); LogSafe(r'.log, lost) && SafeOver(r'.world, kept, lost) && r'.world.ledger == r.world.ledger
    decreases |ops|
  {
    if ops != [] {
      var r1 := DropSidecar(r, ops[0], drop(ops[0]));
      assert SafeOver(r1.world, kept, lost);
      SafeOverIsSafe(r1.world, kept, lost);
      DropAllSafe(r1, ops[1..], drop, kept, lost);
    }
  }

  lemma {:induction false} MarkAllSafe(r: Run, ids: seq<ApprovalId>, mark: ApprovalId -> bool, kept: map<OpId, Sidecar>, lost: iset<GraphId>)
    requires LogSafe(r.log, lost) && SafeOver(r.world, kept, lost)
    requires forall id :: id in ids ==> id in r.world.ledger.value.approvalRecords
    ensures var r' := MarkAll(r, ids, mark); LogSafe(r'.log, lost) && SafeOver(r'.world, kept, lost)
    decreases |ids|
  {
    if ids != [] {
      var r1 := MarkOne(r, ids[0], mark(ids[0]));
      assert SafeOver(r1.world, kept, lost);
      SafeOverIsSafe(r1.world, kept, lost);
      MarkAllSafe(r1, ids[1..], mark, kept, lost);
    }
  }

  // ---- before it: the ledger on storage is still the one the run read ----

  lemma SoundLogSafe(c: Ctx, r: Run, lost: iset<GraphId>)
    requires SafeBut(c.w, lost) && c.w.ledger == Some(c.l0) && Sound(c, r, {}) && c.adrift <= lost
    ensures LogSafe(r.log, lost) && SafeBut(r.world, lost)
  {
    forall e | e in r.log ensures SafeBut(e.world, lost) { assert SafeStep(c, e.world); }
  }

  // ---- the write ----

  lemma CommittedSafe(w: World, l0: Ledger, d: Desired, env: Env, lost: iset<GraphId>)
    requires w.ledger == Some(l0) && SafeBut(w, lost) && AllBound(l0.resources) && Admissible(w, d, env)
    requires CtxOf(w, l0, d, env).lost <= lost
    ensures var c, x := CtxOf(w, l0, d, env), Execute(w, l0, d, env);
            && SafeOver(x.deleted.world.(ledger := Some(x.ledger)), Kept(c, x.deleted), lost)
            && (forall id :: id in x.swept.outcome.consumed + ConsumedIds(x.deleted.removed) ==> id in x.ledger.approvalRecords)
  {
    var c, x := CtxOf(w, l0, d, env), Execute(w, l0, d, env);
    ExecuteFacts(w, l0, d, env);
    CommitCovers(c, x.swept.ledger, x.swept.outcome.pending, x.plan, x.final, x.paid.run, x.deleted, x.ledger);
    SweepKeepsBound(Swept(l0, NoOutcome), env.probes);
    NewLedgerKinded(x.swept.ledger, x.final, x.deleted.removed, d, env.actor);
    SweepAudited(Swept(l0, NoOutcome), env.probes);
    NewLedgerAudited(x.swept.ledger, x.final, x.deleted.removed, d, env.actor);
    WriteSafe(c, x.deleted, x.ledger, lost);
  }

  lemma WriteSafe(c: Ctx, r: Run, l: Ledger, lost: iset<GraphId>)
    requires FilesAudited(c.w) && c.w.ledger == Some(c.l0) && SafeStep(c, r.world)
    requires Paired(l.resources) && WellKinded(l.resources)
    requires c.lost <= lost && forall g :: g !in c.lost ==> Covered(l.resources, r.world.live, Kept(c, r), g)
    requires TombstonesAudited(l) && c.l0.approvalRecords.Keys <= l.approvalRecords.Keys
    ensures SafeOver(r.world.(ledger := Some(l)), Kept(c, r), lost)
  {
  }

  lemma RevisionIrrelevant(w: World, l: Ledger, kept: map<OpId, Sidecar>, lost: iset<GraphId>)
    requires SafeOver(w.(ledger := Some(l)), kept, lost)
    ensures SafeOver(w.(ledger := Some(Committed(l))), kept, lost)
  {
    var w1, w2 := w.(ledger := Some(l)), w.(ledger := Some(Committed(l)));
    assert ResourcesOf(w1) == ResourcesOf(w2);
  }

  lemma CommitOver(l0: Ledger, x: Execution, d: Desired, env: Env, kept: map<OpId, Sidecar>, lost: iset<GraphId>)
    requires LogSafe(x.deleted.log, lost) && SafeBut(x.deleted.world, lost) && x.deleted.world.ledger == Some(l0)
    requires SafeOver(x.deleted.world.(ledger := Some(x.ledger)), kept, lost)
    requires forall op :: op in x.swept.outcome.completed + x.deleted.completed ==> op !in kept
    requires forall id :: id in x.swept.outcome.consumed + ConsumedIds(x.deleted.removed) ==> id in x.ledger.approvalRecords
    ensures var rep := Commit(l0, x, d, env); LogSafe(rep.run.log, lost) && SafeBut(rep.run.world, lost)
  {
    var ops, ids := x.swept.outcome.completed + x.deleted.completed, x.swept.outcome.consumed + ConsumedIds(x.deleted.removed);
    if x.ledger == l0 {
      assert x.deleted.world.(ledger := Some(x.ledger)) == x.deleted.world;
      RetireSafe(x.deleted, ops, Listed(env.files, ids), env.drop, env.mark, kept, lost);
    } else if env.putState != Lost {
      var r1 := Step(x.deleted, WroteState, x.deleted.world.(ledger := Some(Committed(x.ledger))));
      RevisionIrrelevant(x.deleted.world, x.ledger, kept, lost);
      SafeOverIsSafe(r1.world, kept, lost);
      if env.putState == Done { RetireSafe(r1, ops, Listed(env.files, ids), env.drop, env.mark, kept, lost); }
    }
  }

  lemma CommitSafe(w: World, l0: Ledger, d: Desired, env: Env, lost: iset<GraphId>)
    requires w.ledger == Some(l0) && SafeBut(w, lost) && AllBound(l0.resources) && Admissible(w, d, env)
    requires CtxOf(w, l0, d, env).adrift <= lost && CtxOf(w, l0, d, env).lost <= lost
    ensures var rep := Commit(l0, Execute(w, l0, d, env), d, env); LogSafe(rep.run.log, lost) && SafeBut(rep.run.world, lost)
  {
    var c, x := CtxOf(w, l0, d, env), Execute(w, l0, d, env);
    ExecuteFacts(w, l0, d, env);
    SoundLogSafe(c, x.deleted, lost);
    CommittedSafe(w, l0, d, env, lost);
    CommitOver(l0, x, d, env, Kept(c, x.deleted), lost);
  }

  lemma RetireSafe(r: Run, ops: seq<OpId>, ids: seq<ApprovalId>, drop: OpId -> bool, mark: ApprovalId -> bool, kept: map<OpId, Sidecar>, lost: iset<GraphId>)
    requires LogSafe(r.log, lost) && SafeOver(r.world, kept, lost) && (forall op :: op in ops ==> op !in kept)
    requires forall id :: id in ids ==> id in r.world.ledger.value.approvalRecords
    ensures var r' := MarkAll(DropAll(r, ops, drop), ids, mark); LogSafe(r'.log, lost) && SafeBut(r'.world, lost)
  {
    DropAllSafe(r, ops, drop, kept, lost);
    MarkAllSafe(DropAll(r, ops, drop), ids, mark, kept, lost);
    SafeOverIsSafe(MarkAll(DropAll(r, ops, drop), ids, mark).world, kept, lost);
  }

  /**
   Crash safety of apply: whatever fails and wherever it stops, the stored world stays safe for every graph that was
   covered and that the run's own sweep does not strand.
   */
  lemma ApplyKeepsSafe(w: World, d: Desired, env: Env, lost: iset<GraphId>)
    requires SafeBut(w, lost) && Admissible(w, d, env)
    requires w.ledger.Some? ==> SweepSpares(w, w.ledger.value, env.probes, lost)
    ensures LogSafe(ApplyCommand(w, d, env).run.log, lost) && SafeBut(ApplyCommand(w, d, env).run.world, lost)
  {
    if w.ledger.Some? && AllBound(w.ledger.value.resources) {
      var l0 := w.ledger.value;
      SparedAreKept(w, l0, d, env, lost);
      ExecuteFacts(w, l0, d, env);
      SoundLogSafe(CtxOf(w, l0, d, env), Execute(w, l0, d, env).paid.run, lost);
      CommitSafe(w, l0, d, env, lost);
      ConcludeSafe(w, l0, Execute(w, l0, d, env), d, env, lost);
    }
  }

  lemma ConcludeSafe(w: World, l0: Ledger, x: Execution, d: Desired, env: Env, lost: iset<GraphId>)
    requires SafeBut(w, lost) && LogSafe(x.paid.run.log, lost) && SafeBut(x.paid.run.world, lost)
    requires var rep := Commit(l0, x, d, env); LogSafe(rep.run.log, lost) && SafeBut(rep.run.world, lost)
    ensures var rep := Conclude(w, l0, x, d, env); LogSafe(rep.run.log, lost) && SafeBut(rep.run.world, lost)
  {
  }
}
