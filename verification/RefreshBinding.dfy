/** Which composites a refresh leaves bound, and why payloads are verified before graphs are observed. */
module RefreshBinding {
  import opened Addresses
  import opened Digests
  import opened Ledgers
  import opened Sweep
  import opened Coverage
  import opened SweepFixpoint
  import opened Plan
  import opened Apply
  import opened ApplyLedger
  import opened ApplyFences
  import opened CrashSafety
  import opened Refresh

  ghost predicate SameEntry(res: Resources, res': Resources, a: Address) {
    (a in res' <==> a in res) && (a in res ==> res'[a] == res[a])
  }

  /** No observation of the list rewrites address `a`. */
  ghost predicate Unobserved(graphs: seq<DesiredGraph>, seen: GraphId -> Root, a: Address) {
    forall i :: 0 <= i < |graphs| ==> seen(graphs[i].id).Partial? || (a != Graph(graphs[i].id) && a != Schema(graphs[i].id))
  }

  lemma {:induction false} ObserveElsewhere(l: Ledger, graphs: seq<DesiredGraph>, seen: GraphId -> Root, a: Address)
    requires Unobserved(graphs, seen, a)
    ensures SameEntry(l.resources, ObserveAll(l, graphs, seen).resources, a)
    decreases |graphs|
  {
    if graphs != [] {
      ObserveOneAt(l, graphs[0], seen(graphs[0].id));
      assert forall i :: 0 <= i < |graphs| - 1 ==> graphs[1..][i] == graphs[i + 1];
      ObserveElsewhere(ObserveOne(l, graphs[0], seen(graphs[0].id)), graphs[1..], seen, a);
    }
  }

  lemma RecordLiveBinds(res: Resources, g: GraphId, d: Digest)
    requires WellKinded(res)
    ensures Bound(RecordLive(res, g, d), g)
  {
    var res1, res2 := res[Schema(g) := Plain(d)], RecordLive(res, g, d);
    assert QueryDigests(res2, g) == QueryDigests(res1, g);
  }

  /** Outside its own two entries an observation list leaves a graph's components alone. */
  lemma ObserveKeepsBound(l: Ledger, graphs: seq<DesiredGraph>, seen: GraphId -> Root, h: GraphId)
    requires WellKinded(l.resources) && Graph(h) in l.resources
    requires Unobserved(graphs, seen, Graph(h)) && Unobserved(graphs, seen, Schema(h))
    ensures SameEntry(l.resources, ObserveAll(l, graphs, seen).resources, Graph(h))
    ensures Bound(ObserveAll(l, graphs, seen).resources, h) <==> Bound(l.resources, h)
  {
    var res, res' := l.resources, ObserveAll(l, graphs, seen).resources;
    ObserveElsewhere(l, graphs, seen, Graph(h));
    ObserveElsewhere(l, graphs, seen, Schema(h));
    forall a: Address | a.Query? && a.graph == h ensures DigestAt(res', a) == DigestAt(res, a) { ObserveElsewhere(l, graphs, seen, a); }
    if res[Graph(h)].provider.Some? { ObserveElsewhere(l, graphs, seen, res[Graph(h)].provider.value); }
    SameComponents(res, res', h);
  }

  lemma {:induction false} ObserveBinds(l: Ledger, graphs: seq<DesiredGraph>, seen: GraphId -> Root, dg: DesiredGraph)
    requires WellKinded(l.resources) && DistinctIds(graphs) && dg in graphs && seen(dg.id).Open?
    ensures Bound(ObserveAll(l, graphs, seen).resources, dg.id)
    decreases |graphs|
  {
    var l1 := ObserveOne(l, graphs[0], seen(graphs[0].id));
    ObserveOneAt(l, graphs[0], seen(graphs[0].id));
    assert forall i :: 0 <= i < |graphs| - 1 ==> graphs[1..][i] == graphs[i + 1];
    if graphs[0] == dg {
      RecordLiveBinds(l.resources, dg.id, seen(dg.id).schema);
      ObserveKeepsBound(l1, graphs[1..], seen, dg.id);
    } else {
      assert dg in graphs[1..];
      ObserveBinds(l1, graphs[1..], seen, dg);
    }
  }

  /** Verification drops this query because its blob is gone or wrong. */
  predicate Dropped(res: Resources, w: World, e: SyncEnv, a: Address) {
    FindingAt(res, w.blobs, e.readFails, a) in {Missing, Mismatch}
  }

  /** Dropping a query severs its graph's composite; nothing else that verification does can. */
  lemma VerifiedBoundIff(l: Ledger, w: World, e: SyncEnv, h: GraphId)
    requires WellKinded(l.resources) && Bound(l.resources, h) && Graph(h) in l.resources
    ensures var res' := Verified(l, w, e).resources;
            SameEntry(l.resources, res', Graph(h)) &&
            (Bound(res', h) <==> forall n :: !Dropped(l.resources, w, e, Query(h, n)))
  {
    var res, res' := l.resources, Verified(l, w, e).resources;
    var provider := res[Graph(h)].provider;
    VerifiedKeeps(l, w, e, Graph(h));
    VerifiedKeeps(l, w, e, Schema(h));
    if provider.Some? { VerifiedKeeps(l, w, e, provider.value); }
    forall n ensures Query(h, n) in res' <==> Query(h, n) in res && !Dropped(res, w, e, Query(h, n))
             ensures Query(h, n) in res' ==> res'[Query(h, n)] == res[Query(h, n)]
    { VerifiedAt(l, w, e, Query(h, n)); }
    BoundIffQueriesKept(res, res', h);
    assert forall n :: Dropped(res, w, e, Query(h, n)) ==> Query(h, n) in res;
  }

  /** With graph, schema and provider entries the same, the composite binds exactly if no query went. */
  lemma BoundIffQueriesKept(res: Resources, res': Resources, h: GraphId)
    requires Graph(h) in res && Bound(res, h) && SameEntry(res, res', Graph(h)) && SameEntry(res, res', Schema(h))
    requires res[Graph(h)].provider.Some? ==> SameEntry(res, res', res[Graph(h)].provider.value)
    requires forall n :: Query(h, n) in res' ==> Query(h, n) in res && res'[Query(h, n)] == res[Query(h, n)]
    ensures Bound(res', h) <==> forall n :: Query(h, n) in res ==> Query(h, n) in res'
  {
    if forall n :: Query(h, n) in res ==> Query(h, n) in res' {
      SameQueries(res, res', h);
    } else {
      var n :| Query(h, n) in res && Query(h, n) !in res';
      LostQuerySevers(res, res', h, n);
    }
  }

  /** The composite names its queries, so an entry bound before a query went is not bound after. */
  lemma LostQuerySevers(res: Resources, res': Resources, h: GraphId, n: string)
    requires Graph(h) in res && SameEntry(res, res', Graph(h)) && Bound(res, h)
    requires Query(h, n) in res && Query(h, n) !in res'
    ensures !Bound(res', h)
  {
    var entry := res[Graph(h)];
    assert Query(h, n) in QueryDigests(res, h) && Query(h, n) !in QueryDigests(res', h);
    if Bound(res', h) {
      GraphDigestBinds(h, Recorded(res', h), QueryDigests(res', h), entry.provider, ProviderDigest(res', entry.provider), PolicyOf(entry),
                       h, Recorded(res, h), QueryDigests(res, h), entry.provider, ProviderDigest(res, entry.provider), PolicyOf(entry));
      assert false;
    }
  }

  /**
   After a refresh every declared graph that opened is bound to its composite, whatever verification dropped before;
   a graph that was not re-observed is bound exactly if none of its query blobs was missing or wrong.
   */
  lemma RefreshBindingExact(l0: Ledger, w: World, d: Desired, e: SyncEnv, h: GraphId)
    requires WellKinded(l0.resources) && AllBound(l0.resources) && DistinctIds(d.graphs)
    requires Graph(h) in SweepLedger(l0, e.probes).ledger.resources
    requires FindGraph(d.graphs, h).Some? ==> !e.seen(h).Absent?
    ensures var res, res' := SweepLedger(l0, e.probes).ledger.resources, SyncLedger(l0, w, d, e).resources;
            if FindGraph(d.graphs, h).Some? && e.seen(h).Open? then Bound(res', h)
            else Bound(res', h) <==> forall n :: !Dropped(res, w, e, Query(h, n))
  {
    var l1 := SweepLedger(l0, e.probes).ledger;
    var l2 := Verified(l1, w, e);
    SweepKeepsBound(Swept(l0, NoOutcome), e.probes);
    assert Bound(l1.resources, h);
    VerifiedBoundIff(l1, w, e, h);
    VerifiedKinded(l1, w, e);
    var dg := FindGraph(d.graphs, h);
    if dg.Some? && e.seen(h).Open? {
      ObserveBinds(l2, d.graphs, e.seen, dg.value);
    } else {
      NotObserved(d.graphs, e.seen, h);
      ObserveKeepsBound(l2, d.graphs, e.seen, h);
    }
  }

  lemma VerifiedKinded(l: Ledger, w: World, e: SyncEnv)
    requires WellKinded(l.resources)
    ensures WellKinded(Verified(l, w, e).resources)
  {
    forall g: GraphId ensures Graph(g) in Verified(l, w, e).resources ==> Graph(g) in l.resources && Verified(l, w, e).resources[Graph(g)] == l.resources[Graph(g)] {
      VerifiedAt(l, w, e, Graph(g));
    }
  }

  lemma NotObserved(graphs: seq<DesiredGraph>, seen: GraphId -> Root, h: GraphId)
    requires FindGraph(graphs, h).Some? ==> seen(h).Partial?
    ensures Unobserved(graphs, seen, Graph(h)) && Unobserved(graphs, seen, Schema(h))
  {
    assert forall i :: 0 <= i < |graphs| ==> graphs[i] in graphs;
  }
}
