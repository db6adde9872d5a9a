/** Where repeated sweeps lead: the ledger settles after one, and the sidecars that can go are gone after two. */
module SweepFixpoint {
  import opened Addresses
  import opened Digests
  import opened Ledgers
  import opened Sweep
  import opened Coverage

  /** The two stores a committed sweep rewrites: the ledger, then the sidecars it completed. */
  datatype Stores = Stores(ledger: Ledger, sidecars: map<OpId, Sidecar>)

  function CommitSweep(s: Stores, ps: seq<Probe>): Stores {
    var st := SweepLedger(s.ledger, ps);
    Stores(st.ledger, s.sidecars - OpSet(st.outcome.completed))
  }

  /** Every probe saw exactly what stands at its root. */
  ghost predicate Exact(ps: seq<Probe>, live: map<GraphId, Root>) {
    forall p :: p in ps ==> p.seen == RootOf(live, p.sidecar.graph)
  }

  ghost predicate DistinctOps(ps: seq<Probe>) {
    forall i, j :: 0 <= i < j < |ps| ==> ps[i].op != ps[j].op
  }

  /** A listing that misses nothing, in any order. */
  ghost predicate FullListing(ps: seq<Probe>, sc: map<OpId, Sidecar>, live: map<GraphId, Root>) {
    && Listing(ps, sc, live) && Exact(ps, live)
    && forall op :: op in sc ==> Probe(op, sc[op], RootOf(live, sc[op].graph)) in ps
  }

  predicate StatusIs(l: Ledger, g: GraphId, s: Status) {
    && Graph(g) in l.statuses && l.statuses[Graph(g)] == s
    && Schema(g) in l.statuses && l.statuses[Schema(g)] == s
  }

  /** Classifying `p` again would leave the ledger as it is. */
  predicate Quiet(l: Ledger, p: Probe) {
    var s := p.sidecar;
    match s.kind
    case GraphDelete => !p.seen.Absent? || Graph(s.graph) !in l.resources
    case _ =>
      match p.seen
      case Absent => true
      case Partial => s.kind == GraphCreate ==> StatusIs(l, s.graph, StatusError(GraphCreateIncomplete))
      case Open(d) =>
        || Recorded(l.resources, s.graph) == Some(d)
        || (d != s.desiredSchema && StatusIs(l, s.graph, StatusDrifted(AppliedStatePending)))
  }

  lemma MarkAgain(l: Ledger, g: GraphId, s: Status)
    requires StatusIs(l, g, s)
    ensures MarkGraph(l, g, s) == l
  {
    assert l.statuses[Graph(g) := s] == l.statuses;
    assert l.statuses[Schema(g) := s] == l.statuses;
  }

  lemma QuietMeansNoEffect(st: Swept, p: Probe)
    requires Quiet(st.ledger, p)
    ensures SweepOne(st, p).ledger == st.ledger
  {
    var g := p.sidecar.graph;
    if StatusIs(st.ledger, g, StatusError(GraphCreateIncomplete)) { MarkAgain(st.ledger, g, StatusError(GraphCreateIncomplete)); }
    if StatusIs(st.ledger, g, StatusDrifted(AppliedStatePending)) { MarkAgain(st.ledger, g, StatusDrifted(AppliedStatePending)); }
  }

  lemma RollForwardFacts(l: Ledger, op: OpId, s: Sidecar, d: Digest)
    ensures var l' := RollForward(l, op, s, d);
            && Recorded(l'.resources, s.graph) == Some(d)
            && (forall h :: h != s.graph ==> Recorded(l'.resources, h) == Recorded(l.resources, h))
            && (forall h :: h != s.graph ==> (Graph(h) in l'.resources <==> Graph(h) in l.resources))
            && (forall a :: a != Graph(s.graph) && a != Schema(s.graph) ==>
                  (a in l'.statuses <==> a in l.statuses) && (a in l.statuses ==> l'.statuses[a] == l.statuses[a]))
  {
    var l' := RollForward(l, op, s, d);
    assert l'.resources == RecordLive(l.resources, s.graph, d);
    assert l'.statuses == l.statuses[Graph(s.graph) := StatusApplied][Schema(s.graph) := StatusApplied];
    RecordLiveFacts(l.resources, s.graph, d);
  }

  lemma TombstoneFacts(st: Swept, p: Probe)
    ensures var l, l', g := st.ledger, TombstoneForward(st, p).ledger, p.sidecar.graph;
            && Recorded(l'.resources, g) == None && Graph(g) !in l'.resources
            && (forall h :: h != g ==> Recorded(l'.resources, h) == Recorded(l.resources, h))
            && (forall h :: h != g ==> (Graph(h) in l'.resources <==> Graph(h) in l.resources))
            && (forall a :: !InSubtree(a, g) ==>
                  (a in l'.statuses <==> a in l.statuses) && (a in l.statuses ==> l'.statuses[a] == l.statuses[a]))
  {
    PrunedFacts(st.ledger.resources, p.sidecar.graph);
  }

  /** A sidecar is quiet as soon as it has been classified once, whatever the verdict. */
  lemma QuietAfterOwn(st: Swept, p: Probe)
    ensures Quiet(SweepOne(st, p).ledger, p)
  {
    if p.seen.Open? { RollForwardFacts(st.ledger, p.op, p.sidecar, p.seen.schema); }
    if p.seen.Absent? { TombstoneFacts(st, p); }
  }

  /** Later classifications of the same live graphs do not disturb it again. */
  lemma QuietStays(st: Swept, p: Probe, q: Probe)
    requires Quiet(st.ledger, p)
    requires p.sidecar.graph == q.sidecar.graph ==> p.seen == q.seen
    ensures Quiet(SweepOne(st, q).ledger, p)
  {
    if p.sidecar.graph == q.sidecar.graph { QuietAmongOwn(st, p, q); } else { QuietAmongOthers(st, p, q); }
  }

  lemma QuietAmongOwn(st: Swept, p: Probe, q: Probe)
    requires Quiet(st.ledger, p) && p.sidecar.graph == q.sidecar.graph && p.seen == q.seen
    ensures Quiet(SweepOne(st, q).ledger, p)
  {
    if q.sidecar.kind == GraphDelete { TombstoneFacts(st, q); }
    else if q.seen.Open? { RollForwardFacts(st.ledger, q.op, q.sidecar, q.seen.schema); }
  }

  lemma QuietAmongOthers(st: Swept, p: Probe, q: Probe)
    requires Quiet(st.ledger, p) && p.sidecar.graph != q.sidecar.graph
    ensures Quiet(SweepOne(st, q).ledger, p)
  {
    SweepElsewhere(st, q, p.sidecar.graph);
    SameEntriesQuiet(st.ledger, SweepOne(st, q).ledger, p);
  }

  /** What the two ledgers say of graph `g` and its schema is the same. */
  predicate SameEntries(l: Ledger, l': Ledger, g: GraphId) {
    && Recorded(l'.resources, g) == Recorded(l.resources, g) && (Graph(g) in l'.resources <==> Graph(g) in l.resources)
    && SameStatus(l, l', Graph(g)) && SameStatus(l, l', Schema(g))
  }

  predicate SameStatus(l: Ledger, l': Ledger, a: Address) {
    (a in l'.statuses <==> a in l.statuses) && (a in l.statuses ==> l'.statuses[a] == l.statuses[a])
  }

  /** Classifying a sidecar touches nothing of another graph. */
  lemma SweepElsewhere(st: Swept, q: Probe, g: GraphId)
    requires g != q.sidecar.graph
    ensures SameEntries(st.ledger, SweepOne(st, q).ledger, g)
  {
    if q.sidecar.kind == GraphDelete {
      TombstoneElsewhere(st, q, g);
    } else {
      MarkElsewhere(st.ledger, q.sidecar.graph, StatusError(GraphCreateIncomplete), g);
      MarkElsewhere(st.ledger, q.sidecar.graph, StatusDrifted(AppliedStatePending), g);
      if q.seen.Open? { RollForwardElsewhere(st.ledger, q.op, q.sidecar, q.seen.schema, g); }
      assert SweepOne(st, q).ledger in OpenOutcomes(st.ledger, q);
    }
  }

  /** The ledgers a create or schema-apply sidecar can leave behind. */
  ghost function OpenOutcomes(l: Ledger, q: Probe): set<Ledger> {
    var g := q.sidecar.graph;
    {l, MarkGraph(l, g, StatusError(GraphCreateIncomplete)), MarkGraph(l, g, StatusDrifted(AppliedStatePending))}
    + if q.seen.Open? then {RollForward(l, q.op, q.sidecar, q.seen.schema)} else {}
  }

  lemma MarkElsewhere(l: Ledger, h: GraphId, s: Status, g: GraphId)
    requires g != h
    ensures SameEntries(l, MarkGraph(l, h, s), g)
  {
  }

  lemma RollForwardElsewhere(l: Ledger, op: OpId, s: Sidecar, d: Digest, g: GraphId)
    requires g != s.graph
    ensures SameEntries(l, RollForward(l, op, s, d), g)
  {
    RollForwardFacts(l, op, s, d);
  }

  lemma TombstoneElsewhere(st: Swept, q: Probe, g: GraphId)
    requires g != q.sidecar.graph
    ensures SameEntries(st.ledger, TombstoneForward(st, q).ledger, g)
  {
    assert !InSubtree(Graph(g), q.sidecar.graph) && !InSubtree(Schema(g), q.sidecar.graph);
    TombstoneFacts(st, q);
  }

  lemma SameEntriesQuiet(l: Ledger, l': Ledger, p: Probe)
    requires Quiet(l, p) && SameEntries(l, l', p.sidecar.graph)
    ensures Quiet(l', p)
  {
  }

  lemma NotHeldStays(st: Swept, p: Probe, q: Probe)
    requires !Held(st.ledger.resources, p)
    requires p.sidecar.graph == q.sidecar.graph ==> p.seen == q.seen
    ensures !Held(SweepOne(st, q).ledger.resources, p)
  {
    if p.sidecar.graph != q.sidecar.graph { SweepElsewhere(st, q, p.sidecar.graph); }
    else if q.sidecar.kind == GraphDelete { TombstoneFacts(st, q); }
    else if q.seen.Open? { RollForwardFacts(st.ledger, q.op, q.sidecar, q.seen.schema); }
  }

  lemma NotHeldAfterOwn(st: Swept, p: Probe)
    requires !Held(st.ledger.resources, p)
    ensures !Held(SweepOne(st, p).ledger.resources, p)
  {
    NotHeldStays(st, p, p);
  }

  /** A sweep leaves every sidecar it classified quiet, and completes only what it will never hold again. */
  lemma {:induction false} SweepSettles(st: Swept, done: seq<Probe>, ps: seq<Probe>, live: map<GraphId, Root>)
    requires Exact(done + ps, live) && DistinctOps(done + ps)
    requires forall p :: p in done ==> Quiet(st.ledger, p) && (p.op in st.outcome.completed ==> !Held(st.ledger.resources, p))
    requires forall p :: p in ps ==> p.op !in st.outcome.completed
    ensures var st' := SweepAll(st, ps);
            forall p :: p in done + ps ==> Quiet(st'.ledger, p) && (p.op in st'.outcome.completed ==> !Held(st'.ledger.resources, p))
    decreases |ps|
  {
    if ps == [] {
      assert done + ps == done;
    } else {
      var p, st1 := ps[0], SweepOne(st, ps[0]);
      assert p in done + ps;
      SweepOneSummary(st, p);
      forall q | q in done
        ensures Quiet(st1.ledger, q) && (q.op in st1.outcome.completed ==> !Held(st1.ledger.resources, q))
      {
        assert q in done + ps;
        QuietStays(st, q, p);
        var i :| 0 <= i < |done| && done[i] == q;
        assert (done + ps)[i].op != (done + ps)[|done|].op;
        if !Held(st.ledger.resources, q) { NotHeldStays(st, q, p); }
      }
      QuietAfterOwn(st, p);
      if !Held(st.ledger.resources, p) { NotHeldAfterOwn(st, p); }
      forall q | q in ps[1..] ensures q.op !in st1.outcome.completed {
        var i :| 0 <= i < |ps| - 1 && ps[1..][i] == q;
        assert (done + ps)[|done|].op != (done + ps)[|done| + 1 + i].op;
      }
      assert done + ps == (done + [p]) + ps[1..];
      SweepSettles(st1, done + [p], ps[1..], live);
    }
  }

  /** A sweep over quiet sidecars writes nothing and completes exactly those it does not hold. */
  lemma {:induction false} QuietSweep(st: Swept, ps: seq<Probe>)
    requires forall p :: p in ps ==> Quiet(st.ledger, p)
    ensures var st' := SweepAll(st, ps);
            && st'.ledger == st.ledger
            && forall op :: op in st'.outcome.completed <==>
                 op in st.outcome.completed || exists p :: p in ps && p.op == op && !Held(st.ledger.resources, p)
    decreases |ps|
  {
    if ps != [] {
      var st1 := SweepOne(st, ps[0]);
      QuietMeansNoEffect(st, ps[0]);
      SweepOneSummary(st, ps[0]);
      QuietSweep(st1, ps[1..]);
      assert forall p :: p in ps <==> p == ps[0] || p in ps[1..];
    }
  }

  lemma RecordedStep(st: Swept, p: Probe, g: GraphId, d: Digest)
    requires p.sidecar.graph == g ==> p.seen == Open(d)
    ensures Recorded(SweepOne(st, p).ledger.resources, g) == Some(d) <==>
            Recorded(st.ledger.resources, g) == Some(d)
            || (p.sidecar.graph == g && p.sidecar.kind != GraphDelete && p.sidecar.desiredSchema == d)
  {
    if p.sidecar.graph != g { SweepElsewhere(st, p, g); }
    else if p.sidecar.kind != GraphDelete { RollForwardFacts(st.ledger, p.op, p.sidecar, d); }
  }

  /** The digest an open graph's ledger entry ends at: the live one as soon as ledger or any sidecar knew it. */
  lemma {:induction false} FinalRecorded(st: Swept, ps: seq<Probe>, g: GraphId, d: Digest)
    requires forall p :: p in ps && p.sidecar.graph == g ==> p.seen == Open(d)
    ensures Recorded(SweepAll(st, ps).ledger.resources, g) == Some(d) <==>
            Recorded(st.ledger.resources, g) == Some(d)
            || exists p :: p in ps && p.sidecar.graph == g && p.sidecar.kind != GraphDelete && p.sidecar.desiredSchema == d
    decreases |ps|
  {
    if ps != [] {
      RecordedStep(st, ps[0], g, d);
      FinalRecorded(SweepOne(st, ps[0]), ps[1..], g, d);
      assert forall q :: q in ps <==> q == ps[0] || q in ps[1..];
    }
  }

  // ---- the theorems ----

  /** Which graphs a sweep can finish with, read off the stores before the first sweep. */
  ghost predicate Resolvable(s: Stores, live: map<GraphId, Root>, g: GraphId) {
    match RootOf(live, g)
    case Absent => forall op :: op in s.sidecars && s.sidecars[op].graph == g ==> s.sidecars[op].kind != SchemaApply
    case Partial => forall op :: op in s.sidecars && s.sidecars[op].graph == g ==> s.sidecars[op].kind == GraphDelete
    case Open(d) =>
      || Recorded(s.ledger.resources, g) == Some(d)
      || (exists op :: op in s.sidecars && s.sidecars[op].graph == g && s.sidecars[op].kind != GraphDelete && s.sidecars[op].desiredSchema == d)
      || (forall op :: op in s.sidecars && s.sidecars[op].graph == g ==> s.sidecars[op].kind == GraphDelete)
  }

  ghost predicate NoSidecarOf(sc: map<OpId, Sidecar>, g: GraphId) {
    forall op :: op in sc ==> sc[op].graph != g
  }

  /** After one committed sweep the ledger is a fixpoint: any further sweep of the same live graphs leaves it alone. */
  lemma SecondSweepLeavesLedger(s: Stores, ps: seq<Probe>, ps': seq<Probe>, live: map<GraphId, Root>)
    requires FullListing(ps, s.sidecars, live)
    requires Listing(ps', CommitSweep(s, ps).sidecars, live) && Exact(ps', live)
    ensures CommitSweep(CommitSweep(s, ps), ps').ledger == CommitSweep(s, ps).ledger
  {
    AllQuiet(s, ps, ps', live);
    QuietSweep(Swept(CommitSweep(s, ps).ledger, NoOutcome), ps');
  }

  lemma AllQuiet(s: Stores, ps: seq<Probe>, ps': seq<Probe>, live: map<GraphId, Root>)
    requires FullListing(ps, s.sidecars, live)
    requires Listing(ps', CommitSweep(s, ps).sidecars, live) && Exact(ps', live)
    ensures forall p :: p in ps' ==> p in ps
    ensures forall p :: p in ps ==> Quiet(CommitSweep(s, ps).ledger, p)
    ensures forall p :: p in ps && p.op in SweepLedger(s.ledger, ps).outcome.completed ==> !Held(CommitSweep(s, ps).ledger.resources, p)
  {
    forall p | p in ps' ensures p in ps {
      assert p == Probe(p.op, s.sidecars[p.op], RootOf(live, s.sidecars[p.op].graph));
    }
    assert [] + ps == ps;
    SweepSettles(Swept(s.ledger, NoOutcome), [], ps, live);
  }

  /** Two committed sweeps clear a graph of sidecars exactly when it is resolvable, in any order and number. */
  lemma TwoSweepsRetire(s: Stores, ps: seq<Probe>, ps': seq<Probe>, live: map<GraphId, Root>, g: GraphId)
    requires FullListing(ps, s.sidecars, live)
    requires FullListing(ps', CommitSweep(s, ps).sidecars, live)
    ensures NoSidecarOf(CommitSweep(CommitSweep(s, ps), ps').sidecars, g) <==> Resolvable(s, live, g)
  {
    var s1 := CommitSweep(s, ps);
    var s2 := CommitSweep(s1, ps');
    AllQuiet(s, ps, ps', live);
    QuietSweep(Swept(s1.ledger, NoOutcome), ps');
    // what is left is exactly what the settled ledger still holds
    forall op | op in s.sidecars
      ensures op in s2.sidecars <==> Held(s1.ledger.resources, Probe(op, s.sidecars[op], RootOf(live, s.sidecars[op].graph)))
    {
      var p := Probe(op, s.sidecars[op], RootOf(live, s.sidecars[op].graph));
      assert p in ps;
      if op in s1.sidecars { assert p in ps'; }
      assert forall q :: q in ps' && q.op == op ==> q == p;
    }
    HeldIffUnresolvable(s, ps, live, g);
  }

  lemma HeldIffUnresolvable(s: Stores, ps: seq<Probe>, live: map<GraphId, Root>, g: GraphId)
    requires FullListing(ps, s.sidecars, live)
    ensures Resolvable(s, live, g) <==>
            forall op :: op in s.sidecars && s.sidecars[op].graph == g ==>
              !Held(CommitSweep(s, ps).ledger.resources, Probe(op, s.sidecars[op], RootOf(live, s.sidecars[op].graph)))
  {
    if RootOf(live, g).Open? {
      var d := RootOf(live, g).schema;
      FinalRecorded(Swept(s.ledger, NoOutcome), ps, g, d);
      assert forall p :: p in ps ==> p.op in s.sidecars && s.sidecars[p.op] == p.sidecar;
    }
  }

  // ---- the composite stays bound through a sweep ----

  lemma RecordLiveBound(res: Resources, g: GraphId, d: Digest)
    requires WellKinded(res) && AllBound(res)
    ensures WellKinded(RecordLive(res, g, d)) && AllBound(RecordLive(res, g, d))
  {
    var res1 := res[Schema(g) := Plain(d)];
    var provider := GraphProvider(res1, g);
    var res2 := RecordLive(res, g, d);
    assert QueryDigests(res2, g) == QueryDigests(res1, g);
    assert provider.Some? ==> provider.value.EmbeddingProvider?;
    assert Bound(res2, g);
    forall h | Graph(h) in res2 && h != g ensures Bound(res2, h) {
      assert Graph(h) in res && Bound(res, h);
      SameComponents(res, res2, h);
    }
  }

  /** A graph entry stays bound when its own schema, queries and provider do not change. */
  lemma SameComponents(res: Resources, res': Resources, h: GraphId)
    requires Graph(h) in res && Graph(h) in res' && res'[Graph(h)] == res[Graph(h)]
    requires Recorded(res', h) == Recorded(res, h)
    requires forall a: Address :: a.Query? && a.graph == h ==> DigestAt(res', a) == DigestAt(res, a)
    requires ProviderDigest(res', res[Graph(h)].provider) == ProviderDigest(res, res[Graph(h)].provider)
    ensures Bound(res', h) <==> Bound(res, h)
  {
    forall a: Address ensures a in QueryDigests(res', h) <==> a in QueryDigests(res, h) {
      if a.Query? && a.graph == h { assert DigestAt(res', a) == DigestAt(res, a); }
    }
    assert QueryDigests(res', h) == QueryDigests(res, h);
  }

  lemma PrunedBoundOther(res: Resources, g: GraphId, h: GraphId)
    requires WellKinded(res) && Graph(h) in res && h != g
    ensures Graph(h) in Pruned(res, g) && Pruned(res, g)[Graph(h)] == res[Graph(h)]
    ensures Bound(Pruned(res, g), h) <==> Bound(res, h)
  {
    PrunedFacts(res, g);
    assert !InSubtree(Graph(h), g) && !InSubtree(Schema(h), g);
    var provider := res[Graph(h)].provider;
    assert provider.Some? ==> !InSubtree(provider.value, g);
    SameComponents(res, Pruned(res, g), h);
  }

  lemma PrunedBound(res: Resources, g: GraphId)
    requires WellKinded(res) && AllBound(res)
    ensures WellKinded(Pruned(res, g)) && AllBound(Pruned(res, g))
  {
    var res2 := Pruned(res, g);
    forall a | a in res2 && a.Graph? ensures Bound(res2, a.graph) {
      assert a in res && Bound(res, a.graph);
      PrunedBoundOther(res, g, a.graph);
    }
  }

  /** A sweep over any sidecars, with anything seen at their roots, keeps every composite bound. */
  lemma {:induction false} SweepKeepsBound(st: Swept, ps: seq<Probe>)
    requires WellKinded(st.ledger.resources) && AllBound(st.ledger.resources)
    ensures WellKinded(SweepAll(st, ps).ledger.resources) && AllBound(SweepAll(st, ps).ledger.resources)
    decreases |ps|
  {
    if ps != [] {
      SweepOneSummary(st, ps[0]);
      match EffectOf(st.ledger.resources, ps[0])
      case Nothing => SweepKeepsBound(SweepOne(st, ps[0]), ps[1..]);
      case Records(d) =>
        RecordLiveBound(st.ledger.resources, ps[0].sidecar.graph, d);
        SweepKeepsBound(SweepOne(st, ps[0]), ps[1..]);
      case Removes =>
        PrunedBound(st.ledger.resources, ps[0].sidecar.graph);
        SweepKeepsBound(SweepOne(st, ps[0]), ps[1..]);
    }
  }
}
