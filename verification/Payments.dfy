/** Exactly when a run can pay for its changes, what it puts in the catalog, and when it finishes. */
module Payments {
  import opened Addresses
  import opened Digests
  import opened Ledgers
  import opened Sweep
  import opened Plan
  import opened Classify
  import opened Apply
  import opened ApplyTheorems
  import opened ApplyStops
  import opened Payloads

  function KeyOf(c: Change): BlobKey {
    (c.resource, OrEmpty(c.after))
  }

  /** The source re-read under the lock still has the planned digest, and its put goes through. */
  predicate Writable(c: Change, env: Env) {
    env.source(c.resource).Some? && ContentDigest(env.source(c.resource).value) == OrEmpty(c.after) && env.putBlob(c.resource)
  }

  /** A change of the run whose payload is neither in the catalog nor can be written. */
  ghost predicate Unpayable(cs: seq<Change>, blobs: map<BlobKey, string>, env: Env) {
    exists c :: c in cs && NeedsPayload(c) && KeyOf(c) !in blobs && !Writable(c, env)
  }

  /** Some change pays for key `k` out of its source. */
  ghost predicate PaidBy(cs: seq<Change>, env: Env, k: BlobKey) {
    exists c :: c in cs && NeedsPayload(c) && KeyOf(c) == k && Writable(c, env)
  }

  /** One payment: fails exactly if the payload is neither there nor writable, and adds at most its own key. */
  lemma PayOneExact(p: Paid, c: Change, env: Env, k: BlobKey)
    ensures var p', blobs := PayOne(p, c, env), p.run.world.blobs;
            && (p'.ok <==> p.ok && !(NeedsPayload(c) && KeyOf(c) !in blobs && !Writable(c, env)))
            && (k in p'.run.world.blobs <==> k in blobs || (NeedsPayload(c) && KeyOf(c) == k && Writable(c, env)))
            && (k in blobs ==> p'.run.world.blobs[k] == blobs[k])
            && (k in p'.run.world.blobs && k !in blobs ==> env.source(k.0) == Some(p'.run.world.blobs[k]))
  {
  }

  lemma {:induction false} CatalogAfter(p: Paid, cs: seq<Change>, env: Env, k: BlobKey)
    ensures var blobs, blobs' := p.run.world.blobs, PayAll(p, cs, env).run.world.blobs;
            && (k in blobs' <==> k in blobs || PaidBy(cs, env, k))
            && (k in blobs ==> blobs'[k] == blobs[k])
            && (k in blobs' && k !in blobs ==> env.source(k.0) == Some(blobs'[k]))
    decreases |cs|
  {
    if cs != [] {
      PayOneExact(p, cs[0], env, k);
      CatalogAfter(PayOne(p, cs[0], env), cs[1..], env, k);
      assert forall c :: c in cs <==> c == cs[0] || c in cs[1..];
    }
  }

  /** The first payment cannot make a later one possible or impossible. */
  lemma PayableFirst(p: Paid, cs: seq<Change>, env: Env)
    requires cs != []
    ensures Unpayable(cs, p.run.world.blobs, env) <==>
            (NeedsPayload(cs[0]) && KeyOf(cs[0]) !in p.run.world.blobs && !Writable(cs[0], env))
            || Unpayable(cs[1..], PayOne(p, cs[0], env).run.world.blobs, env)
  {
    var blobs, blobs' := p.run.world.blobs, PayOne(p, cs[0], env).run.world.blobs;
    assert forall c :: c in cs <==> c == cs[0] || c in cs[1..];
    forall c | c in cs[1..] && NeedsPayload(c) && !Writable(c, env) ensures KeyOf(c) in blobs <==> KeyOf(c) in blobs' {
      PayOneExact(p, cs[0], env, KeyOf(c));
    }
  }

  /** The payment phase reports success exactly if every payload is already there or can be written. */
  lemma {:induction false} PaysIff(p: Paid, cs: seq<Change>, env: Env)
    ensures PayAll(p, cs, env).ok <==> p.ok && !Unpayable(cs, p.run.world.blobs, env)
    decreases |cs|
  {
    if cs != [] {
      PayOneExact(p, cs[0], env, KeyOf(cs[0]));
      PaysIff(PayOne(p, cs[0], env), cs[1..], env);
      PayableFirst(p, cs, env);
    }
  }

  lemma EarlyStock(w: World, l0: Ledger, d: Desired, env: Env)
    ensures Execute(w, l0, d, env).migrated.world.blobs == w.blobs
  {
    var x := Execute(w, l0, d, env);
    CreatesStock(Start(w), ToRun(x.plan, Create, false), d, env);
    MigrationsStock(x.created, ToRun(x.plan, Update, true), x.swept.ledger.resources, d, env);
  }

  /**
   How a run that passed its gates ends: at a payload exactly if some change still to be executed after the graph phases
   cannot be paid for; at its write exactly if the ledger changed and the put was not acknowledged; finished otherwise.
   */
  lemma ApplyEndsIff(w: World, l0: Ledger, d: Desired, env: Env)
    requires Runs(w, l0, d, env)
    ensures var x, outcome := Execute(w, l0, d, env), ApplyCommand(w, d, env).outcome;
            && (outcome == PayloadFailed <==> Unpayable(x.demoted, w.blobs, env))
            && (outcome == StateWriteFailed <==> !Unpayable(x.demoted, w.blobs, env) && x.ledger != l0 && env.putState != Done)
            && (outcome.Finished? <==> !Unpayable(x.demoted, w.blobs, env) && (x.ledger == l0 || env.putState == Done))
  {
    var x := Execute(w, l0, d, env);
    EarlyStock(w, l0, d, env);
    PaysIff(Paid(x.migrated, true), x.demoted, env);
    ExecutionIsNotRefused(w, l0, d, env);
    ConcludeEnds(w, l0, x, d, env);
  }

  lemma ConcludeEnds(w: World, l0: Ledger, x: Execution, d: Desired, env: Env)
    requires !ApprovalViolated(x.plan, ApprovedResources(env.artifacts, PlanOf(x.swept.ledger.resources, d), d.configDigest))
    ensures var outcome := Conclude(w, l0, x, d, env).outcome;
            && (outcome == PayloadFailed <==> !x.paid.ok)
            && (outcome == StateWriteFailed <==> x.paid.ok && x.ledger != l0 && env.putState != Done)
            && (outcome.Finished? <==> x.paid.ok && (x.ledger == l0 || env.putState == Done))
  {
  }

  /** What the run adds to the catalog: exactly the payloads its changes need and can be written, each from its source. */
  lemma CatalogOfRun(w: World, l0: Ledger, d: Desired, env: Env, k: BlobKey)
    ensures var x := Execute(w, l0, d, env);
            && (k in x.deleted.world.blobs <==> k in w.blobs || PaidBy(x.demoted, env, k))
            && (k in w.blobs ==> x.deleted.world.blobs[k] == w.blobs[k])
            && (k in x.deleted.world.blobs && k !in w.blobs ==> env.source(k.0) == Some(x.deleted.world.blobs[k]))
  {
    var x := Execute(w, l0, d, env);
    EarlyStock(w, l0, d, env);
    CatalogAfter(Paid(x.migrated, true), x.demoted, env, k);
    DeletesStock(x.paid.run, ToRun(x.demoted, Delete, false), d, env);
  }
}
