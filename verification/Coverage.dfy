/**
 The crash-safety invariant. A graph is in step when the ledger records exactly the live schema;
 otherwise some stored sidecar must be one that the sweep will either repair from or keep.
 */
module Coverage {
  import opened Addresses
  import opened Digests
  import opened Ledgers
  import opened Sweep

  predicate InStep(res: Resources, live: map<GraphId, Root>, g: GraphId) {
    match RootOf(live, g)
    case Absent => Recorded(res, g) == None
    case Partial => false
    case Open(d) => Recorded(res, g) == Some(d)
  }

  /** Sweeping `s` against `root` repairs graph `g` or leaves `s` in place; it never just discards it. */
  predicate Covers(s: Sidecar, root: Root, g: GraphId) {
    s.graph == g && if root.Absent? then s.kind != GraphCreate else s.kind != GraphDelete
  }

  /** Some stored sidecar covers `g` over this root. */
  ghost predicate CoverLeft(sidecars: map<OpId, Sidecar>, root: Root, g: GraphId) {
    exists op :: op in sidecars && Covers(sidecars[op], root, g)
  }

  ghost predicate Covered(res: Resources, live: map<GraphId, Root>, sidecars: map<OpId, Sidecar>, g: GraphId) {
    InStep(res, live, g) || CoverLeft(sidecars, RootOf(live, g), g)
  }

  /** Coverage depends only on the recorded digest and the root of `g`, and more sidecars never hurt. */
  lemma CoveredFrame(res: Resources, live: map<GraphId, Root>, sc: map<OpId, Sidecar>,
                     res': Resources, live': map<GraphId, Root>, sc': map<OpId, Sidecar>, g: GraphId)
    requires Covered(res, live, sc, g)
    requires Recorded(res, g) == Recorded(res', g) && RootOf(live, g) == RootOf(live', g)
    requires forall op :: op in sc && sc[op].graph == g ==> op in sc' && sc'[op] == sc[op]
    ensures Covered(res', live', sc', g)
  {
    if !InStep(res, live, g) {
      var op :| op in sc && Covers(sc[op], RootOf(live, g), g);
      assert op in sc' && Covers(sc'[op], RootOf(live', g), g);
    }
  }

  // ---- what one classification may have seen ----

  /** What a probe may report: an open may fail although the graph is healthy, and a failed existence probe reads as absent. */
  predicate Reports(seen: Root, root: Root) {
    seen == root || (seen.Partial? && root.Open?) || seen.Absent?
  }

  /** The existence probe failed over a root that is there. */
  predicate Blind(seen: Root, root: Root) {
    seen.Absent? && !root.Absent?
  }

  /** A listing: some of the stored sidecars, each once, in any order, each with what was reported of its root. */
  ghost predicate Listing(ps: seq<Probe>, sidecars: map<OpId, Sidecar>, live: map<GraphId, Root>) {
    && (forall p :: p in ps ==> p.op in sidecars && sidecars[p.op] == p.sidecar && Reports(p.seen, RootOf(live, p.sidecar.graph)))
    && (forall i, j :: 0 <= i < j < |ps| ==> ps[i].op != ps[j].op)
  }

  function OpSet(ops: seq<OpId>): set<OpId> {
    set op | op in ops
  }

  // ---- one classification ----

  lemma RecordLiveFacts(res: Resources, g: GraphId, d: Digest)
    ensures Recorded(RecordLive(res, g, d), g) == Some(d)
    ensures Graph(g) in RecordLive(res, g, d)
    ensures forall a :: a != Graph(g) && a != Schema(g) ==>
              (a in RecordLive(res, g, d) <==> a in res) && (a in res ==> RecordLive(res, g, d)[a] == res[a])
    ensures Paired(res) ==> Paired(RecordLive(res, g, d))
  {
  }

  lemma PrunedFacts(res: Resources, g: GraphId)
    ensures Recorded(Pruned(res, g), g) == None
    ensures forall a :: !InSubtree(a, g) ==>
              (a in Pruned(res, g) <==> a in res) && (a in res ==> Pruned(res, g)[a] == res[a])
    ensures Paired(res) ==> Paired(Pruned(res, g))
  {
  }

  /** The three things a classification can do to the recorded resources. */
  datatype Effect = Nothing | Records(live: Digest) | Removes

  function EffectOf(res: Resources, p: Probe): Effect {
    if p.sidecar.kind != GraphDelete && p.seen.Open? && p.seen.schema == p.sidecar.desiredSchema
       && Recorded(res, p.sidecar.graph) != Some(p.seen.schema) then
      Records(p.seen.schema)
    else if p.sidecar.kind == GraphDelete && p.seen.Absent? && Graph(p.sidecar.graph) in res then Removes
    else Nothing
  }

  function ApplyEffect(res: Resources, g: GraphId, e: Effect): Resources {
    match e
    case Nothing => res
    case Records(d) => RecordLive(res, g, d)
    case Removes => Pruned(res, g)
  }

  /** A sidecar is held exactly when its graph is there but neither recorded nor intended, or cannot be judged. */
  predicate Held(res: Resources, p: Probe) {
    match p.sidecar.kind
    case GraphDelete => false
    case GraphCreate => p.seen.Partial? || (p.seen.Open? && Recorded(res, p.sidecar.graph) != Some(p.seen.schema)
                                            && p.seen.schema != p.sidecar.desiredSchema)
    case SchemaApply => !p.seen.Open? || (Recorded(res, p.sidecar.graph) != Some(p.seen.schema)
                                          && p.seen.schema != p.sidecar.desiredSchema)
  }

  ghost predicate Summary(st: Swept, p: Probe, st': Swept) {
    && st'.ledger.resources == ApplyEffect(st.ledger.resources, p.sidecar.graph, EffectOf(st.ledger.resources, p))
    && st'.outcome.completed == st.outcome.completed + (if Held(st.ledger.resources, p) then [] else [p.op])
    && st'.outcome.pending == st.outcome.pending + (if Held(st.ledger.resources, p) then {p.sidecar.graph} else {})
  }

  lemma SummaryOpened(st: Swept, p: Probe)
    requires p.seen.Open? && p.sidecar.kind != GraphDelete
    ensures Summary(st, p, SweepOpened(st, p, p.seen.schema))
  {
    var l' := RollForward(st.ledger, p.op, p.sidecar, p.seen.schema);
    assert l'.resources == RecordLive(st.ledger.resources, p.sidecar.graph, p.seen.schema);
  }

  lemma SummaryDelete(st: Swept, p: Probe)
    requires p.sidecar.kind == GraphDelete
    ensures Summary(st, p, SweepDelete(st, p))
  {
    assert TombstoneForward(st, p).ledger.resources == Pruned(st.ledger.resources, p.sidecar.graph);
  }

  /** One classification, summed up: its effect on the resources, and whether the sidecar may go. */
  lemma SweepOneSummary(st: Swept, p: Probe)
    ensures Summary(st, p, SweepOne(st, p))
  {
    if p.sidecar.kind == GraphDelete { SummaryDelete(st, p); }
    else if p.seen.Open? { SummaryOpened(st, p); }
  }

  /** An effect touches the entries of its own graph only, and keeps graphs and schemas paired. */
  lemma EffectFrame(res: Resources, g: GraphId, e: Effect)
    ensures var res' := ApplyEffect(res, g, e);
            forall a :: !InSubtree(a, g) ==> (a in res' <==> a in res) && (a in res ==> res'[a] == res[a])
    ensures Paired(res) ==> Paired(ApplyEffect(res, g, e))
  {
    match e
    case Nothing =>
    case Records(d) => RecordLiveFacts(res, g, d);
    case Removes => PrunedFacts(res, g);
  }

  /** The sidecars left on storage once `p` was classified and, if completed, retired. */
  function Remaining(res: Resources, p: Probe, sc: map<OpId, Sidecar>): map<OpId, Sidecar> {
    if Held(res, p) then sc else sc - {p.op}
  }

  /**
   The one way a classification loses a graph: its root was there, the probe said absent, and neither a covering sidecar
   nor, for a create intent, an exact ledger entry is left.
   */
  ghost predicate Strands(res: Resources, p: Probe, live: map<GraphId, Root>, sc: map<OpId, Sidecar>, g: GraphId) {
    && p.sidecar.graph == g && Blind(p.seen, RootOf(live, g))
    && !CoverLeft(Remaining(res, p, sc), RootOf(live, g), g)
    && !(p.sidecar.kind == GraphCreate && InStep(res, live, g))
  }

  /** The heart of crash safety: retiring a sidecar whose probe saw the root never strands the graph it was written for. */
  lemma RetiringIsSafe(res: Resources, p: Probe, live: map<GraphId, Root>, sc: map<OpId, Sidecar>, g: GraphId)
    requires Paired(res)
    requires p.op in sc && sc[p.op] == p.sidecar && Reports(p.seen, RootOf(live, p.sidecar.graph))
    requires !Blind(p.seen, RootOf(live, p.sidecar.graph)) || p.sidecar.graph != g
    requires Covered(res, live, sc, g)
    ensures Covered(ApplyEffect(res, p.sidecar.graph, EffectOf(res, p)), live, Remaining(res, p, sc), g)
  {
    var e := EffectOf(res, p);
    var res', sc' := ApplyEffect(res, p.sidecar.graph, e), Remaining(res, p, sc);
    if p.sidecar.graph != g {
      EffectFrame(res, p.sidecar.graph, e);
      assert !InSubtree(Schema(g), p.sidecar.graph);
      CoveredFrame(res, live, sc, res', live, sc', g);
    } else if e.Records? {
      RecordLiveFacts(res, g, e.live);
    } else if e.Removes? {
      PrunedFacts(res, g);
    } else if !InStep(res, live, g) {
      var op :| op in sc && Covers(sc[op], RootOf(live, g), g);
      assert Held(res, p) || op != p.op;
      assert Covers(sc'[op], RootOf(live, g), g);
    }
  }

  /** Over a root it did not see, a classification leaves the graph covered exactly if something else still covers it. */
  lemma BlindRetirement(res: Resources, p: Probe, live: map<GraphId, Root>, sc: map<OpId, Sidecar>)
    requires Paired(res) && p.op in sc && sc[p.op] == p.sidecar && Blind(p.seen, RootOf(live, p.sidecar.graph))
    requires Covered(res, live, sc, p.sidecar.graph)
    ensures var g := p.sidecar.graph;
            Covered(ApplyEffect(res, g, EffectOf(res, p)), live, Remaining(res, p, sc), g) <==> !Strands(res, p, live, sc, g)
  {
    var g := p.sidecar.graph;
    var sc' := Remaining(res, p, sc);
    if p.sidecar.kind == GraphDelete {
      PrunedFacts(res, g);
      if Graph(g) !in res {
        var op :| op in sc && Covers(sc[op], RootOf(live, g), g);
        assert op in sc' && Covers(sc'[op], RootOf(live, g), g);
      }
    } else if p.sidecar.kind == SchemaApply {
      assert p.op in sc' && Covers(sc'[p.op], RootOf(live, g), g);
    }
  }

  /** What one classification does to a covered graph, exactly. */
  lemma ClassifyingIsSafeIff(res: Resources, p: Probe, live: map<GraphId, Root>, sc: map<OpId, Sidecar>, g: GraphId)
    requires Paired(res)
    requires p.op in sc && sc[p.op] == p.sidecar && Reports(p.seen, RootOf(live, p.sidecar.graph))
    requires Covered(res, live, sc, g)
    ensures Covered(ApplyEffect(res, p.sidecar.graph, EffectOf(res, p)), live, Remaining(res, p, sc), g) <==> !Strands(res, p, live, sc, g)
  {
    if p.sidecar.graph == g && Blind(p.seen, RootOf(live, g)) { BlindRetirement(res, p, live, sc); }
    else { RetiringIsSafe(res, p, live, sc, g); }
  }

  /** A schema-apply sidecar does not ask for existence: unless its graph opens it is held, and covers. */
  lemma SchemaNeverStrands(res: Resources, p: Probe, live: map<GraphId, Root>, sc: map<OpId, Sidecar>, g: GraphId)
    requires p.op in sc && sc[p.op] == p.sidecar
    ensures p.sidecar.kind == SchemaApply ==> !Strands(res, p, live, sc, g)
  {
    assert p.sidecar.kind == SchemaApply && p.seen.Absent? ==> Held(res, p) && Remaining(res, p, sc)[p.op] == p.sidecar;
  }

  /** A graph nothing covers is not rescued by a sweep either. */
  lemma UncoveredStays(res: Resources, p: Probe, live: map<GraphId, Root>, sc: map<OpId, Sidecar>, g: GraphId)
    requires Paired(res)
    requires p.op in sc && sc[p.op] == p.sidecar && Reports(p.seen, RootOf(live, p.sidecar.graph))
    requires !Covered(res, live, sc, g)
    ensures !Covered(ApplyEffect(res, p.sidecar.graph, EffectOf(res, p)), live, Remaining(res, p, sc), g)
  {
    var e := EffectOf(res, p);
    var res', sc' := ApplyEffect(res, p.sidecar.graph, e), Remaining(res, p, sc);
    assert !Covers(p.sidecar, RootOf(live, g), g);
    assert forall op :: op in sc' ==> op in sc && sc'[op] == sc[op];
    if p.sidecar.graph != g {
      EffectFrame(res, p.sidecar.graph, e);
      assert !InSubtree(Schema(g), p.sidecar.graph);
    } else if e.Removes? {
      PrunedFacts(res, g);
    }
  }

  // ---- the whole sweep ----

  /** Some classification of the sweep strands `g`. */
  ghost predicate SweepStrands(st: Swept, ps: seq<Probe>, live: map<GraphId, Root>, sc: map<OpId, Sidecar>, g: GraphId)
    decreases |ps|
  {
    ps != [] && (Strands(st.ledger.resources, ps[0], live, sc, g)
                 || SweepStrands(SweepOne(st, ps[0]), ps[1..], live, Remaining(st.ledger.resources, ps[0], sc), g))
  }

  /** No probe of `g` that decides by existence missed its root. */
  ghost predicate Sighted(ps: seq<Probe>, live: map<GraphId, Root>, g: GraphId) {
    forall p :: p in ps && p.sidecar.graph == g && p.sidecar.kind != SchemaApply ==> !Blind(p.seen, RootOf(live, g))
  }

  lemma ListingTail(ps: seq<Probe>, res: Resources, live: map<GraphId, Root>, sc: map<OpId, Sidecar>)
    requires ps != [] && Listing(ps, sc, live)
    ensures Listing(ps[1..], Remaining(res, ps[0], sc), live)
  {
    forall q | q in ps[1..] ensures q in ps && q.op != ps[0].op {
      var i :| 0 <= i < |ps| - 1 && ps[1..][i] == q;
      assert ps[i + 1] == q;
    }
  }

  lemma {:induction false} SightedNeverStrands(st: Swept, ps: seq<Probe>, live: map<GraphId, Root>, sc: map<OpId, Sidecar>, g: GraphId)
    requires Listing(ps, sc, live) && Sighted(ps, live, g)
    ensures !SweepStrands(st, ps, live, sc, g)
    decreases |ps|
  {
    if ps != [] {
      var p, res := ps[0], st.ledger.resources;
      SchemaNeverStrands(res, p, live, sc, g);
      ListingTail(ps, res, live, sc);
      SightedNeverStrands(SweepOne(st, p), ps[1..], live, Remaining(res, p, sc), g);
    }
  }

  lemma {:induction false} CompletedGrows(st: Swept, ps: seq<Probe>)
    ensures st.outcome.completed <= SweepAll(st, ps).outcome.completed
    decreases |ps|
  {
    if ps != [] {
      SweepOneSummary(st, ps[0]);
      CompletedGrows(SweepOne(st, ps[0]), ps[1..]);
    }
  }

  /** Retiring what the first classification completed and then the rest is retiring all of it. */
  lemma RetiredInTwo(st: Swept, ps: seq<Probe>, sc: map<OpId, Sidecar>)
    requires ps != []
    ensures var c, c1, c' := st.outcome.completed, SweepOne(st, ps[0]).outcome.completed, SweepAll(st, ps).outcome.completed;
            && c <= c1 <= c'
            && Remaining(st.ledger.resources, ps[0], sc) - OpSet(c'[|c1|..]) == sc - OpSet(c'[|c|..])
  {
    SweepOneSummary(st, ps[0]);
    CompletedGrows(SweepOne(st, ps[0]), ps[1..]);
    var c, c1, c' := st.outcome.completed, SweepOne(st, ps[0]).outcome.completed, SweepAll(st, ps).outcome.completed;
    assert c'[|c|..] == c1[|c|..] + c'[|c1|..];
  }

  lemma {:induction false} SweepKeepsPaired(st: Swept, ps: seq<Probe>)
    requires Paired(st.ledger.resources)
    ensures Paired(SweepAll(st, ps).ledger.resources)
    decreases |ps|
  {
    if ps != [] {
      SweepOneSummary(st, ps[0]);
      EffectFrame(st.ledger.resources, ps[0].sidecar.graph, EffectOf(st.ledger.resources, ps[0]));
      SweepKeepsPaired(SweepOne(st, ps[0]), ps[1..]);
    }
  }

  /** After a sweep and the retirement of all it completed a graph is covered exactly if it was and no probe stranded it. */
  lemma {:induction false} SweepCoversIff(st: Swept, ps: seq<Probe>, live: map<GraphId, Root>, sc: map<OpId, Sidecar>, g: GraphId)
    requires Paired(st.ledger.resources) && Listing(ps, sc, live)
    ensures var st' := SweepAll(st, ps);
            && st.outcome.completed <= st'.outcome.completed
            && (Covered(st'.ledger.resources, live, sc - OpSet(st'.outcome.completed[|st.outcome.completed|..]), g) <==>
                Covered(st.ledger.resources, live, sc, g) && !SweepStrands(st, ps, live, sc, g))
    decreases |ps|
  {
    if ps == [] {
      assert st.outcome.completed[|st.outcome.completed|..] == [] && sc - OpSet([]) == sc;
    } else {
      var p, st1, res := ps[0], SweepOne(st, ps[0]), st.ledger.resources;
      var sc1 := Remaining(res, p, sc);
      SweepOneSummary(st, p);
      EffectFrame(res, p.sidecar.graph, EffectOf(res, p));
      ListingTail(ps, res, live, sc);
      SweepCoversIff(st1, ps[1..], live, sc1, g);
      SweepStepCovers(st, ps, live, sc, g);
      RetiredInTwo(st, ps, sc);
    }
  }

  lemma SweepStepCovers(st: Swept, ps: seq<Probe>, live: map<GraphId, Root>, sc: map<OpId, Sidecar>, g: GraphId)
    requires Paired(st.ledger.resources) && Listing(ps, sc, live) && ps != []
    ensures Covered(SweepOne(st, ps[0]).ledger.resources, live, Remaining(st.ledger.resources, ps[0], sc), g) <==>
            Covered(st.ledger.resources, live, sc, g) && !Strands(st.ledger.resources, ps[0], live, sc, g)
  {
    SweepOneSummary(st, ps[0]);
    assert ps[0] in ps;
    if Covered(st.ledger.resources, live, sc, g) { ClassifyingIsSafeIff(st.ledger.resources, ps[0], live, sc, g); }
    else { UncoveredStays(st.ledger.resources, ps[0], live, sc, g); }
  }
}
