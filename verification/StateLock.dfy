/** The persisted state lock: create-if-absent to acquire, then read and delete, as two steps, to release. */
module StateLock {
  import opened Digests

  type Pid = nat
  type LockId = nat

  /** `Releasing` has read its own id back and not yet deleted; `Forcing` is force-unlock between its two steps. */
  datatype Holder = Outside | Holding(id: LockId) | Releasing(id: LockId) | Forcing(id: LockId)

  /** `issued` are the ids (ULIDs) handed out so far; the lock file carries the id of whoever created it. */
  datatype Locks = Locks(file: Option<LockId>, issued: set<LockId>, procs: map<Pid, Holder>)

  function At(s: Locks, p: Pid): Holder {
    if p in s.procs then s.procs[p] else Outside
  }

  function Set(s: Locks, p: Pid, h: Holder): Locks {
    s.(procs := s.procs[p := h])
  }

  predicate InCritical(h: Holder) {
    h.Holding? || h.Releasing?
  }

  // ---- steps ----

  /** `acquire_state_lock`: one conditional create under a fresh id. */
  ghost predicate Acquire(s: Locks, s': Locks, p: Pid) {
    At(s, p).Outside? && exists id :: AcquireUnder(s, s', p, id)
  }

  /** The new lock id is in nobody's hands yet, whether or not the create goes through. */
  predicate AcquireUnder(s: Locks, s': Locks, p: Pid, id: LockId) {
    && id !in s.issued
    && s' == if s.file.None? then Set(s, p, Holding(id)).(file := Some(id), issued := s.issued + {id})
             else s.(issued := s.issued + {id})
  }

  /** The read of release: is the file still ours? */
  ghost predicate ReleaseRead(s: Locks, s': Locks, p: Pid) {
    At(s, p).Holding? && s' == Set(s, p, if s.file == Some(At(s, p).id) then Releasing(At(s, p).id) else Outside)
  }

  /** The delete of release; it may fail and leave the file. */
  ghost predicate ReleaseDelete(s: Locks, s': Locks, p: Pid) {
    At(s, p).Releasing? && (s' == Set(s, p, Outside).(file := None) || s' == Set(s, p, Outside))
  }

  ghost predicate Crash(s: Locks, s': Locks, p: Pid) {
    s' == Set(s, p, Outside)
  }

  /** `force_unlock`: read and compare, then delete whatever is there. */
  ghost predicate ForceRead(s: Locks, s': Locks, p: Pid) {
    At(s, p).Outside? && s.file.Some? && s' == Set(s, p, Forcing(s.file.value))
  }

  function AfterForceDelete(s: Locks, p: Pid): Locks {
    Set(s, p, Outside).(file := None)
  }

  ghost predicate ForceDelete(s: Locks, s': Locks, p: Pid) {
    At(s, p).Forcing? && s' == AfterForceDelete(s, p)
  }

  ghost predicate Next(s: Locks, s': Locks) {
    exists p :: Acquire(s, s', p) || ReleaseRead(s, s', p) || ReleaseDelete(s, s', p) || Crash(s, s', p)
  }

  ghost predicate NextWithForce(s: Locks, s': Locks) {
    Next(s, s') || exists p :: ForceRead(s, s', p) || ForceDelete(s, s', p)
  }

  /** No command under way; a lock file left by an earlier crash may be there. */
  ghost predicate Init(s: Locks) {
    s.procs == map[] && (s.file.Some? ==> s.file.value in s.issued)
  }

  ghost predicate Behavior(run: seq<Locks>) {
    run != [] && Init(run[0]) && forall i :: 0 <= i < |run| - 1 ==> Next(run[i], run[i + 1])
  }

  // ---- the same steps on the stored lock object ----

  /** One method per access to storage, so that other commands may run between any two of them. */
  class LockObject {
    var file: Option<LockId>
    var issued: set<LockId>
    var procs: map<Pid, Holder>

    function Value(): Locks
      reads this
    {
      Locks(file, issued, procs)
    }

    constructor ()
      ensures Init(Value())
    {
      file, issued, procs := None, {}, map[];
    }

    /** `acquire_state_lock` under a fresh id; false means the lock is held. */
    method AcquireStateLock(p: Pid, id: LockId) returns (acquired: bool)
      requires At(Value(), p).Outside? && id !in issued
      modifies this
      ensures Acquire(old(Value()), Value(), p)
      ensures acquired == old(file).None? && (acquired ==> file == Some(id) && At(Value(), p) == Holding(id))
    {
      acquired := file.None?;
      issued := issued + {id};
      if acquired {
        file := Some(id);
        procs := procs[p := Holding(id)];
      }
      assert AcquireUnder(old(Value()), Value(), p, id);
    }

    /** The ownership read of a release. */
    method ReadForRelease(p: Pid) returns (stillOwned: bool)
      requires At(Value(), p).Holding?
      modifies this`procs
      ensures ReleaseRead(old(Value()), Value(), p)
      ensures stillOwned == (file == Some(old(At(Value(), p)).id))
    {
      var id := At(Value(), p).id;
      stillOwned := file == Some(id);
      procs := procs[p := if stillOwned then Releasing(id) else Outside];
    }

    /** The delete of a release, whose failure is ignored. */
    method DeleteForRelease(p: Pid, landed: bool)
      requires At(Value(), p).Releasing?
      modifies this`procs, this`file
      ensures ReleaseDelete(old(Value()), Value(), p)
      ensures file == if landed then None else old(file)
    {
      if landed { file := None; }
      procs := procs[p := Outside];
    }

    /** The read of `force_unlock`: only the id the operator named is forced. */
    method ReadForForce(p: Pid, id: LockId) returns (matched: bool)
      requires At(Value(), p).Outside?
      modifies this`procs
      ensures matched == (file == Some(id))
      ensures if matched then ForceRead(old(Value()), Value(), p) else Value() == old(Value())
    {
      matched := file == Some(id);
      if matched { procs := procs[p := Forcing(id)]; }
    }

    /** The delete of `force_unlock`, which looks at nothing again. */
    method DeleteForForce(p: Pid)
      requires At(Value(), p).Forcing?
      modifies this`procs, this`file
      ensures ForceDelete(old(Value()), Value(), p)
    {
      file := None;
      procs := procs[p := Outside];
    }
  }

  // ---- exclusion ----

  /** Whoever is inside finds its own id in the file, and every id in play was issued. */
  ghost predicate Inv(s: Locks) {
    && (forall p :: InCritical(At(s, p)) ==> s.file == Some(At(s, p).id))
    && (s.file.Some? ==> s.file.value in s.issued)
  }

  /** No two commands inside carry the same id. */
  ghost predicate Exclusive(s: Locks) {
    forall p, q :: InCritical(At(s, p)) && InCritical(At(s, q)) && At(s, p).id == At(s, q).id ==> p == q
  }

  /** No two commands are inside. */
  ghost predicate Sole(s: Locks) {
    forall p, q :: InCritical(At(s, p)) && InCritical(At(s, q)) ==> p == q
  }

  lemma InvIsExclusive(s: Locks)
    requires Inv(s) && Exclusive(s)
    ensures Sole(s)
  {
  }

  lemma StepKeepsInv(s: Locks, s': Locks, p: Pid)
    requires Inv(s) && Exclusive(s)
    requires Acquire(s, s', p) || ReleaseRead(s, s', p) || ReleaseDelete(s, s', p) || Crash(s, s', p)
    ensures Inv(s') && Exclusive(s')
  {
    assert forall q :: q != p ==> At(s', q) == At(s, q);
    if ReleaseDelete(s, s', p) {
      assert forall q :: InCritical(At(s, q)) ==> q == p;
    }
  }

  lemma {:induction false} BehaviorKeepsInv(run: seq<Locks>, i: nat)
    requires Behavior(run) && i < |run|
    ensures Inv(run[i]) && Exclusive(run[i])
    decreases i
  {
    if i > 0 {
      BehaviorKeepsInv(run, i - 1);
      var s, s' := run[i - 1], run[i];
      assert Next(run[i - 1], run[i - 1 + 1]);
      var p :| Acquire(s, s', p) || ReleaseRead(s, s', p) || ReleaseDelete(s, s', p) || Crash(s, s', p);
      StepKeepsInv(s, s', p);
    }
  }

  /**
   Without force-unlock, in every interleaving with crashes anywhere, at most one command is inside, and a release never
   deletes a lock file carrying another command's id.
   */
  lemma LockExclusion(run: seq<Locks>, i: nat, p: Pid, q: Pid)
    requires Behavior(run) && i < |run|
    ensures InCritical(At(run[i], p)) && InCritical(At(run[i], q)) ==> p == q
    ensures At(run[i], p).Releasing? ==> run[i].file == Some(At(run[i], p).id)
  {
    BehaviorKeepsInv(run, i);
    InvIsExclusive(run[i]);
  }

  // ---- force-unlock ----

  /** No live command is inside. */
  ghost predicate Vacant(s: Locks) {
    forall q :: !InCritical(At(s, q))
  }

  /** A run in which force-unlock may also take its two steps. */
  ghost predicate ForcedBehavior(run: seq<Locks>) {
    run != [] && Init(run[0]) && forall i :: 0 <= i < |run| - 1 ==> NextWithForce(run[i], run[i + 1])
  }

  /** If this step is the delete of a force-unlock, nobody is inside. */
  ghost predicate Careful(s: Locks, s': Locks) {
    forall p :: ForceDelete(s, s', p) ==> Vacant(s)
  }

  ghost predicate CarefulAt(run: seq<Locks>, i: nat) {
    i + 1 < |run| ==> Careful(run[i], run[i + 1])
  }

  lemma ForcedStepKeepsInv(s: Locks, s': Locks, p: Pid)
    requires Inv(s) && Exclusive(s) && (ForceRead(s, s', p) || (ForceDelete(s, s', p) && Vacant(s)))
    ensures Inv(s') && Exclusive(s')
  {
    assert forall q :: q != p ==> At(s', q) == At(s, q);
  }

  lemma {:induction false} CarefulForcingKeepsInv(run: seq<Locks>, i: nat)
    requires ForcedBehavior(run) && i < |run| && forall j :: 0 <= j < i ==> CarefulAt(run, j)
    ensures Inv(run[i]) && Exclusive(run[i])
    decreases i
  {
    if i > 0 {
      CarefulForcingKeepsInv(run, i - 1);
      var s, s' := run[i - 1], run[i];
      assert NextWithForce(run[i - 1], run[i - 1 + 1]) && CarefulAt(run, i - 1);
      if Next(s, s') {
        var p :| Acquire(s, s', p) || ReleaseRead(s, s', p) || ReleaseDelete(s, s', p) || Crash(s, s', p);
        StepKeepsInv(s, s', p);
      } else {
        var p :| ForceRead(s, s', p) || ForceDelete(s, s', p);
        ForcedStepKeepsInv(s, s', p);
      }
    }
  }

  /** Exclusion survives force-unlocks in every interleaving, as long as each one deletes with nobody inside. */
  lemma CarefulForcingIsExclusive(run: seq<Locks>, i: nat, p: Pid, q: Pid)
    requires ForcedBehavior(run) && i < |run| && forall j :: 0 <= j < i ==> CarefulAt(run, j)
    ensures InCritical(At(run[i], p)) && InCritical(At(run[i], q)) ==> p == q
    ensures At(run[i], p).Releasing? ==> run[i].file == Some(At(run[i], p).id)
  {
    CarefulForcingKeepsInv(run, i);
    InvIsExclusive(run[i]);
  }

  lemma {:induction false} FreshId(issued: set<LockId>) returns (id: LockId)
    ensures forall x :: x in issued ==> x < id
    decreases |issued|
  {
    if issued == {} {
      id := 0;
    } else {
      var y :| y in issued;
      var below := FreshId(issued - {y});
      id := if y < below then below else y + 1;
      assert forall x :: x in issued ==> x == y || x in issued - {y};
    }
  }

  /** Where a forced lock belongs to a live command, the forcing command itself can acquire it next. */
  lemma ForcingAdmitsSecond(s: Locks, p: Pid, q: Pid) returns (s': Locks)
    requires InCritical(At(s, p)) && At(s, q).Forcing?
    ensures p != q && Acquire(AfterForceDelete(s, q), s', q) && InCritical(At(s', p)) && InCritical(At(s', q))
  {
    var s1 := AfterForceDelete(s, q);
    var id := FreshId(s1.issued);
    s' := Set(s1, q, Holding(id)).(file := Some(id), issued := s1.issued + {id});
    assert AcquireUnder(s1, s', q, id);
  }

  /** What may follow `s` without further force-unlocks. */
  ghost predicate Continues(run: seq<Locks>, s: Locks) {
    run != [] && run[0] == s && forall i :: 0 <= i < |run| - 1 ==> Next(run[i], run[i + 1])
  }

  lemma {:induction false} ContinuationIsSole(run: seq<Locks>, s: Locks, i: nat)
    requires Continues(run, s) && Inv(s) && Exclusive(s) && i < |run|
    ensures Inv(run[i]) && Exclusive(run[i]) && Sole(run[i])
    decreases i
  {
    if i > 0 {
      ContinuationIsSole(run, s, i - 1);
      assert Next(run[i - 1], run[i - 1 + 1]);
      var p :| Acquire(run[i - 1], run[i], p) || ReleaseRead(run[i - 1], run[i], p) || ReleaseDelete(run[i - 1], run[i], p) || Crash(run[i - 1], run[i], p);
      StepKeepsInv(run[i - 1], run[i], p);
    }
    InvIsExclusive(run[i]);
  }

  ghost predicate ExclusiveFrom(s: Locks) {
    forall run, i :: Continues(run, s) && 0 <= i < |run| ==> Sole(run[i])
  }

  /** The delete of a force-unlock leaves exclusion intact, over everything that may follow, exactly when nobody is inside. */
  lemma ForceDeleteSafeIff(s: Locks, q: Pid)
    requires Inv(s) && Exclusive(s) && At(s, q).Forcing?
    ensures ExclusiveFrom(AfterForceDelete(s, q)) <==> Vacant(s)
  {
    var s1 := AfterForceDelete(s, q);
    if Vacant(s) {
      ForcedStepKeepsInv(s, s1, q);
      forall run, i | Continues(run, s1) && 0 <= i < |run| ensures Sole(run[i]) { ContinuationIsSole(run, s1, i); }
    } else {
      var p :| InCritical(At(s, p));
      var s2 := ForcingAdmitsSecond(s, p, q);
      var run := [s1, s2];
      assert Next(run[0], run[1]);
      assert Continues(run, s1) && !Sole(run[1]);
    }
  }

  /** Process 0 holds the lock, 2 forces it, and 1 then acquires it too. */
  function ForcedRun(): seq<Locks> {
    [ Locks(None, {}, map[]),
      Locks(Some(7), {7}, map[0 := Holding(7)]),
      Locks(Some(7), {7}, map[0 := Holding(7), 2 := Forcing(7)]),
      Locks(None, {7}, map[0 := Holding(7), 2 := Outside]),
      Locks(Some(8), {7, 8}, map[0 := Holding(7), 2 := Outside, 1 := Holding(8)]) ]
  }

  /** Forcing the lock of a live command lets a second one in. */
  lemma ForceUnlockBreaksExclusion()
    ensures ForcedBehavior(ForcedRun())
    ensures var last := ForcedRun()[4]; InCritical(At(last, 0)) && InCritical(At(last, 1))
  {
    var run := ForcedRun();
    assert AcquireUnder(run[0], run[1], 0, 7);
    assert Acquire(run[0], run[1], 0);
    assert ForceRead(run[1], run[2], 2);
    assert ForceDelete(run[2], run[3], 2);
    assert AcquireUnder(run[3], run[4], 1, 8);
    assert Acquire(run[3], run[4], 1);
  }
}
