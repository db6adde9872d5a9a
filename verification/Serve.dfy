/** The serving snapshot of `serve.rs`: quarantine, fail-closed checks, and what a server is handed. */
module Serve {
  import opened Text
  import opened Addresses
  import opened Digests
  import opened Sorting
  import opened Ledgers
  import opened Coverage
  import opened CrashSafety
  import opened Servability
  import opened Apply

  datatype ServingGraph = ServingGraph(graph: GraphId, embedding: Option<Profile>, policy: BlobPolicy)
  datatype ServingQuery = ServingQuery(graph: GraphId, name: string, source: string)
  datatype ServingPolicy = ServingPolicy(name: string, source: string, appliesTo: seq<Address>)
  datatype Snapshot = Snapshot(graphs: seq<ServingGraph>, queries: seq<ServingQuery>, policies: seq<ServingPolicy>)

  /** What the loader could not read: some sidecar object, or the blob of an address. */
  datatype Reads = Reads(badSidecar: bool, badBlob: Address -> bool)

  function Quarantined(sc: map<OpId, Sidecar>): set<GraphId> {
    set op | op in sc :: sc[op].graph
  }

  /** A sidecar without a graph id cannot be attributed, so its blast radius is unknown. */
  predicate Unattributed(sc: map<OpId, Sidecar>) {
    exists op :: op in sc && Trim(sc[op].graph) == ""
  }

  // ---- the checks on one entry ----

  predicate PayloadOk(res: Resources, blobs: map<BlobKey, string>, rd: Reads, a: Address) {
    && a in res && !rd.badBlob(a) && (a, res[a].digest) in blobs
    && ContentDigest(blobs[(a, res[a].digest)]) == res[a].digest
  }

  predicate ProfileOk(res: Resources, p: Address) {
    && p.EmbeddingProvider? && p in res && res[p].profile.Some?
    && ProfileDigest(res[p].profile.value) == res[p].digest
  }

  predicate GraphOk(res: Resources, g: GraphId) {
    && Graph(g) in res
    && (res[Graph(g)].provider.Some? ==> ProfileOk(res, res[Graph(g)].provider.value))
    && Bound(res, g)
  }

  /** Bindings to quarantined graphs are dropped from a policy. */
  function LiveBindings(bindings: seq<Address>, q: set<GraphId>): (r: seq<Address>)
    ensures forall b :: b in r <==> b in bindings && !(b.Graph? && b.graph in q)
  {
    if bindings == [] then []
    else (if bindings[0].Graph? && bindings[0].graph in q then [] else [bindings[0]]) + LiveBindings(bindings[1..], q)
  }

  predicate PolicyServed(res: Resources, q: set<GraphId>, a: Address) {
    a in res && res[a].appliesTo.Some? && LiveBindings(res[a].appliesTo.value, q) != []
  }

  predicate EntryOk(res: Resources, blobs: map<BlobKey, string>, rd: Reads, q: set<GraphId>, a: Address)
    requires a in res
  {
    match a
    case Graph(g) => g in q || GraphOk(res, g)
    case Query(g, _) => g in q || PayloadOk(res, blobs, rd, a)
    case Policy(_) => res[a].appliesTo.Some? && (PolicyServed(res, q, a) ==> PayloadOk(res, blobs, rd, a))
    case _ => true
  }

  // ---- the snapshot ----

  function EmbeddingOf(res: Resources, g: GraphId): Option<Profile>
    requires Graph(g) in res
  {
    var p := res[Graph(g)].provider;
    if p.Some? && p.value in res then res[p.value].profile else None
  }

  function GatherGraphs(keys: seq<Address>, res: Resources, q: set<GraphId>): seq<ServingGraph> {
    if keys == [] then []
    else
      var a := keys[0];
      (if a in res && a.Graph? && a.graph !in q then [ServingGraph(a.graph, EmbeddingOf(res, a.graph), GraphPolicy(res, a.graph))] else [])
      + GatherGraphs(keys[1..], res, q)
  }

  function SourceOf(res: Resources, blobs: map<BlobKey, string>, a: Address): string {
    if a in res && (a, res[a].digest) in blobs then blobs[(a, res[a].digest)] else ""
  }

  function GatherQueries(keys: seq<Address>, res: Resources, blobs: map<BlobKey, string>, q: set<GraphId>): seq<ServingQuery> {
    if keys == [] then []
    else
      var a := keys[0];
      (if a in res && a.Query? && a.graph !in q then [ServingQuery(a.graph, a.name, SourceOf(res, blobs, a))] else [])
      + GatherQueries(keys[1..], res, blobs, q)
  }

  function GatherPolicies(keys: seq<Address>, res: Resources, blobs: map<BlobKey, string>, q: set<GraphId>): seq<ServingPolicy> {
    if keys == [] then []
    else
      var a := keys[0];
      (if a.Policy? && PolicyServed(res, q, a) then [ServingPolicy(a.name, SourceOf(res, blobs, a), LiveBindings(res[a].appliesTo.value, q))] else [])
      + GatherPolicies(keys[1..], res, blobs, q)
  }

  function SnapshotOf(res: Resources, blobs: map<BlobKey, string>, q: set<GraphId>): Snapshot {
    var keys := SortedKeys(res.Keys);
    Snapshot(GatherGraphs(keys, res, q), GatherQueries(keys, res, blobs, q), GatherPolicies(keys, res, blobs, q))
  }

  /** `read_snapshot_with_store`: all or nothing, but for graph-attributed quarantine. */
  function ServeSnapshot(w: World, rd: Reads): Option<Snapshot> {
    if rd.badSidecar || Unattributed(w.sidecars) || w.ledger.None? then None
    else
      var res, q := w.ledger.value.resources, Quarantined(w.sidecars);
      var snapshot := SnapshotOf(res, w.blobs, q);
      if (forall a :: a in res ==> EntryOk(res, w.blobs, rd, q, a)) && snapshot.graphs != [] then Some(snapshot) else None
  }

  // ---- who is served ----

  lemma {:induction false} GatherGraphsFacts(keys: seq<Address>, res: Resources, q: set<GraphId>)
    ensures forall s :: s in GatherGraphs(keys, res, q) ==> Graph(s.graph) in keys && Graph(s.graph) in res && s.graph !in q
    ensures forall g :: Graph(g) in keys && Graph(g) in res && g !in q ==>
              ServingGraph(g, EmbeddingOf(res, g), GraphPolicy(res, g)) in GatherGraphs(keys, res, q)
  {
    if keys != [] { GatherGraphsFacts(keys[1..], res, q); }
  }

  lemma {:induction false} GatherQueriesFacts(keys: seq<Address>, res: Resources, blobs: map<BlobKey, string>, q: set<GraphId>)
    ensures forall s :: s in GatherQueries(keys, res, blobs, q) ==> s.graph !in q && Query(s.graph, s.name) in res
  {
    if keys != [] { GatherQueriesFacts(keys[1..], res, blobs, q); }
  }

  lemma {:induction false} GatherPoliciesFacts(keys: seq<Address>, res: Resources, blobs: map<BlobKey, string>, q: set<GraphId>)
    ensures forall s, b :: s in GatherPolicies(keys, res, blobs, q) && b in s.appliesTo ==> !(b.Graph? && b.graph in q)
  {
    if keys != [] { GatherPoliciesFacts(keys[1..], res, blobs, q); }
  }

  /** Nothing in a snapshot names a quarantined graph, and every healthy applied graph is in it. */
  lemma SnapshotAvoidsQuarantine(w: World, rd: Reads)
    requires ServeSnapshot(w, rd).Some?
    ensures var s, q := ServeSnapshot(w, rd).value, Quarantined(w.sidecars);
            && (forall x :: x in s.graphs ==> x.graph !in q)
            && (forall x :: x in s.queries ==> x.graph !in q)
            && (forall x, b :: x in s.policies && b in x.appliesTo ==> !(b.Graph? && b.graph in q))
            && (forall g :: Graph(g) in ResourcesOf(w) && g !in q ==> exists x :: x in s.graphs && x.graph == g)
  {
    var res, q := w.ledger.value.resources, Quarantined(w.sidecars);
    var keys := SortedKeys(res.Keys);
    GatherGraphsFacts(keys, res, q);
    GatherQueriesFacts(keys, res, w.blobs, q);
    GatherPoliciesFacts(keys, res, w.blobs, q);
    forall g | Graph(g) in res && g !in q ensures exists x :: x in GatherGraphs(keys, res, q) && x.graph == g {
      assert ServingGraph(g, EmbeddingOf(res, g), GraphPolicy(res, g)) in GatherGraphs(keys, res, q);
    }
  }

  /** Each served graph the world can be trusted on is recorded at the schema live at its root. */
  lemma NeverServeOutOfStep(w: World, rd: Reads, x: ServingGraph)
    requires ServeSnapshot(w, rd).Some? && x in ServeSnapshot(w, rd).value.graphs
    requires Shaped(w) && TrustedIn(w, x.graph)
    ensures Schema(x.graph) in ResourcesOf(w)
    ensures RootOf(w.live, x.graph) == Open(ResourcesOf(w)[Schema(x.graph)].digest)
  {
    var res, q := w.ledger.value.resources, Quarantined(w.sidecars);
    GatherGraphsFacts(SortedKeys(res.Keys), res, q);
    assert Graph(x.graph) in res && x.graph !in q;
    assert forall op :: op in w.sidecars ==> w.sidecars[op].graph in q;
  }

  // ---- non-interference ----

  predicate InQuarantine(a: Address, q: set<GraphId>) {
    (a.Graph? || a.Schema? || a.Query?) && a.graph in q
  }

  /** The two worlds differ at most in ledger entries and query blobs of quarantined graphs. */
  ghost predicate SameOutside(res: Resources, blobs: map<BlobKey, string>, res': Resources, blobs': map<BlobKey, string>, q: set<GraphId>) {
    && (forall a :: !InQuarantine(a, q) ==> (a in res <==> a in res') && (a in res ==> res[a] == res'[a]))
    && (forall k: BlobKey :: !InQuarantine(k.0, q) ==> (k in blobs <==> k in blobs') && (k in blobs ==> blobs[k] == blobs'[k]))
  }

  function Healthy(keys: seq<Address>, q: set<GraphId>): (r: seq<Address>)
    ensures forall a :: a in r <==> a in keys && !InQuarantine(a, q)
  {
    if keys == [] then []
    else (if InQuarantine(keys[0], q) then [] else [keys[0]]) + Healthy(keys[1..], q)
  }

  lemma {:induction false} HealthySorted(keys: seq<Address>, q: set<GraphId>)
    requires Sorted(keys)
    ensures Sorted(Healthy(keys, q))
  {
    if keys != [] {
      HealthySorted(keys[1..], q);
      var rest := Healthy(keys[1..], q);
      forall i | 0 <= i < |rest| ensures Before(keys[0], rest[i]) {
        assert rest[i] in keys[1..];
        var j :| 0 <= j < |keys| - 1 && keys[1..][j] == rest[i];
        assert keys[j + 1] == rest[i];
      }
    }
  }

  lemma {:induction false} GatherHealthy(keys: seq<Address>, res: Resources, blobs: map<BlobKey, string>, q: set<GraphId>)
    ensures GatherGraphs(keys, res, q) == GatherGraphs(Healthy(keys, q), res, q)
    ensures GatherQueries(keys, res, blobs, q) == GatherQueries(Healthy(keys, q), res, blobs, q)
    ensures GatherPolicies(keys, res, blobs, q) == GatherPolicies(Healthy(keys, q), res, blobs, q)
  {
    if keys != [] {
      GatherHealthy(keys[1..], res, blobs, q);
      if InQuarantine(keys[0], q) {
        assert Healthy(keys, q) == Healthy(keys[1..], q);
        assert !keys[0].Policy?;
        assert GatherGraphs(keys, res, q) == GatherGraphs(keys[1..], res, q);
        assert GatherQueries(keys, res, blobs, q) == GatherQueries(keys[1..], res, blobs, q);
        assert GatherPolicies(keys, res, blobs, q) == GatherPolicies(keys[1..], res, blobs, q);
      } else {
        assert Healthy(keys, q) == [keys[0]] + Healthy(keys[1..], q);
        assert Healthy(keys, q)[1..] == Healthy(keys[1..], q);
      }
    }
  }

  /** The providers that healthy graphs bind are themselves outside quarantine. */
  ghost predicate ProvidersOutside(res: Resources, q: set<GraphId>) {
    forall g :: Graph(g) in res && g !in q && res[Graph(g)].provider.Some? ==> res[Graph(g)].provider.value.EmbeddingProvider?
  }

  lemma {:induction false} GatherSame(keys: seq<Address>, res: Resources, blobs: map<BlobKey, string>, res': Resources, blobs': map<BlobKey, string>, q: set<GraphId>)
    requires SameOutside(res, blobs, res', blobs', q) && ProvidersOutside(res, q)
    requires forall a :: a in keys ==> !InQuarantine(a, q)
    ensures GatherGraphs(keys, res, q) == GatherGraphs(keys, res', q)
    ensures GatherQueries(keys, res, blobs, q) == GatherQueries(keys, res', blobs', q)
    ensures GatherPolicies(keys, res, blobs, q) == GatherPolicies(keys, res', blobs', q)
  {
    if keys != [] {
      GatherSame(keys[1..], res, blobs, res', blobs', q);
      var a := keys[0];
      assert a in keys && !InQuarantine(a, q);
      if a in res { assert !InQuarantine((a, res[a].digest).0, q); }
      if a.Graph? && a in res && res[a].provider.Some? { assert !InQuarantine(res[a].provider.value, q); }
    }
  }

  lemma EntrySame(res: Resources, blobs: map<BlobKey, string>, res': Resources, blobs': map<BlobKey, string>, q: set<GraphId>, rd: Reads, a: Address)
    requires SameOutside(res, blobs, res', blobs', q) && a in res && a in res' && !InQuarantine(a, q)
    requires a.Graph? && res[a].provider.Some? ==> res[a].provider.value.EmbeddingProvider?
    ensures EntryOk(res, blobs, rd, q, a) <==> EntryOk(res', blobs', rd, q, a)
  {
    assert !InQuarantine((a, res[a].digest).0, q);
    if a.Graph? {
      var g := a.graph;
      assert !InQuarantine(Schema(g), q);
      if res[a].provider.Some? { assert !InQuarantine(res[a].provider.value, q); }
      forall n ensures n in QueryDigests(res, g) <==> n in QueryDigests(res', g) { if n.Query? && n.graph == g { assert !InQuarantine(n, q); } }
      assert QueryDigests(res, g) == QueryDigests(res', g);
    }
  }

  lemma SortedHealthySame(res: Resources, blobs: map<BlobKey, string>, res': Resources, blobs': map<BlobKey, string>, q: set<GraphId>)
    requires SameOutside(res, blobs, res', blobs', q)
    ensures Healthy(SortedKeys(res.Keys), q) == Healthy(SortedKeys(res'.Keys), q)
  {
    HealthySorted(SortedKeys(res.Keys), q);
    HealthySorted(SortedKeys(res'.Keys), q);
    SortedUnique(Healthy(SortedKeys(res.Keys), q), Healthy(SortedKeys(res'.Keys), q));
  }

  lemma SnapshotSame(res: Resources, blobs: map<BlobKey, string>, res': Resources, blobs': map<BlobKey, string>, q: set<GraphId>)
    requires SameOutside(res, blobs, res', blobs', q) && ProvidersOutside(res, q)
    ensures SnapshotOf(res, blobs, q) == SnapshotOf(res', blobs', q)
  {
    SortedHealthySame(res, blobs, res', blobs', q);
    GatherHealthy(SortedKeys(res.Keys), res, blobs, q);
    GatherHealthy(SortedKeys(res'.Keys), res', blobs', q);
    GatherSame(Healthy(SortedKeys(res.Keys), q), res, blobs, res', blobs', q);
  }

  lemma EntriesSame(res: Resources, blobs: map<BlobKey, string>, res': Resources, blobs': map<BlobKey, string>, q: set<GraphId>, rd: Reads)
    requires SameOutside(res, blobs, res', blobs', q) && ProvidersOutside(res, q)
    requires forall a :: a in res ==> EntryOk(res, blobs, rd, q, a)
    ensures forall a :: a in res' ==> EntryOk(res', blobs', rd, q, a)
  {
    forall a | a in res' ensures EntryOk(res', blobs', rd, q, a) {
      if !InQuarantine(a, q) {
        assert a in res;
        EntrySame(res, blobs, res', blobs', q, rd, a);
      }
    }
  }

  lemma EntriesBindProviders(res: Resources, blobs: map<BlobKey, string>, rd: Reads, q: set<GraphId>)
    requires forall a :: a in res ==> EntryOk(res, blobs, rd, q, a)
    ensures ProvidersOutside(res, q)
  {
    forall g | Graph(g) in res && g !in q && res[Graph(g)].provider.Some? ensures res[Graph(g)].provider.value.EmbeddingProvider? {
      assert EntryOk(res, blobs, rd, q, Graph(g));
    }
  }

  /** What quarantined graphs recorded, or kept in the catalog, cannot change a successful snapshot. */
  lemma QuarantineNonInterference(w: World, w': World, rd: Reads)
    requires w.ledger.Some? && w'.ledger.Some? && w.sidecars == w'.sidecars
    requires SameOutside(ResourcesOf(w), w.blobs, ResourcesOf(w'), w'.blobs, Quarantined(w.sidecars))
    requires ServeSnapshot(w, rd).Some?
    ensures ServeSnapshot(w', rd) == ServeSnapshot(w, rd)
  {
    var res, res', q := ResourcesOf(w), ResourcesOf(w'), Quarantined(w.sidecars);
    EntriesBindProviders(res, w.blobs, rd, q);
    SnapshotSame(res, w.blobs, res', w'.blobs, q);
    EntriesSame(res, w.blobs, res', w'.blobs, q, rd);
  }
}
