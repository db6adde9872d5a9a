/** What a snapshot hands out, said of the ledger and the catalog alone. */
module Snapshots {
  import opened Addresses
  import opened Digests
  import opened Sorting
  import opened Ledgers
  import opened CrashSafety
  import opened Serve

  // ---- bindings ----

  /** A binding that survives quarantine: the cluster scope, or a graph outside it. */
  predicate Live(b: Address, q: set<GraphId>) {
    b.Graph? ==> b.graph !in q
  }

  /** `r` is `bindings` without the quarantined graphs, in order: the entries at the ascending positions `at`. */
  ghost predicate Picks(bindings: seq<Address>, q: set<GraphId>, r: seq<Address>, at: seq<nat>) {
    && |at| == |r|
    && (forall i, j :: 0 <= i < j < |at| ==> at[i] < at[j])
    && (forall i :: 0 <= i < |at| ==> at[i] < |bindings| && r[i] == bindings[at[i]])
    && (forall j: nat :: j < |bindings| ==> (j in at <==> Live(bindings[j], q)))
  }

  lemma {:induction false} BindingsPicked(bindings: seq<Address>, q: set<GraphId>) returns (at: seq<nat>)
    ensures Picks(bindings, q, LiveBindings(bindings, q), at)
    decreases |bindings|
  {
    if bindings == [] {
      at := [];
    } else {
      var rest := BindingsPicked(bindings[1..], q);
      at := PickFirst(bindings, q, rest);
    }
  }

  lemma PickFirst(bindings: seq<Address>, q: set<GraphId>, rest: seq<nat>) returns (at: seq<nat>)
    requires bindings != [] && Picks(bindings[1..], q, LiveBindings(bindings[1..], q), rest)
    ensures Picks(bindings, q, LiveBindings(bindings, q), at)
  {
    var later := seq(|rest|, i requires 0 <= i < |rest| => rest[i] + 1);
    var r := LiveBindings(bindings[1..], q);
    PickLater(bindings, q, r, rest, later);
    if Live(bindings[0], q) {
      at := [0] + later;
      PickAlso(bindings, q, r, later);
      assert LiveBindings(bindings, q) == [bindings[0]] + r;
    } else {
      at := later;
      assert LiveBindings(bindings, q) == r;
    }
  }

  /** `r` picks what is live behind the first binding. */
  ghost predicate PicksBehind(bindings: seq<Address>, q: set<GraphId>, r: seq<Address>, at: seq<nat>) {
    && |at| == |r|
    && (forall i, j :: 0 <= i < j < |at| ==> at[i] < at[j])
    && (forall i :: 0 <= i < |at| ==> 0 < at[i] < |bindings| && r[i] == bindings[at[i]])
    && (forall j: nat :: 0 < j < |bindings| ==> (j in at <==> Live(bindings[j], q)))
  }

  lemma PickLater(bindings: seq<Address>, q: set<GraphId>, r: seq<Address>, rest: seq<nat>, later: seq<nat>)
    requires bindings != [] && Picks(bindings[1..], q, r, rest)
    requires |later| == |rest| && forall i :: 0 <= i < |rest| ==> later[i] == rest[i] + 1
    ensures PicksBehind(bindings, q, r, later)
  {
    forall j: nat | 0 < j < |bindings| ensures j in later <==> Live(bindings[j], q) {
      ShiftedIn(rest, later, j);
      assert bindings[j] == bindings[1..][j - 1];
    }
  }

  lemma ShiftedIn(rest: seq<nat>, later: seq<nat>, j: nat)
    requires 0 < j && |later| == |rest| && forall i :: 0 <= i < |rest| ==> later[i] == rest[i] + 1
    ensures j in later <==> j - 1 in rest
  {
    if j - 1 in rest {
      var i :| 0 <= i < |rest| && rest[i] == j - 1;
      assert later[i] == j;
    }
    if j in later {
      var i :| 0 <= i < |later| && later[i] == j;
      assert rest[i] == j - 1;
    }
  }

  lemma PickAlso(bindings: seq<Address>, q: set<GraphId>, r: seq<Address>, later: seq<nat>)
    requires bindings != [] && Live(bindings[0], q) && PicksBehind(bindings, q, r, later)
    ensures Picks(bindings, q, [bindings[0]] + r, [0] + later)
  {
    var at := [0] + later;
    assert at[0] == 0;
    assert forall i :: 0 < i < |at| ==> at[i] == later[i - 1];
  }

  /** Some binding of the policy is not a quarantined graph. */
  ghost predicate SomeLive(bindings: seq<Address>, q: set<GraphId>) {
    exists j :: 0 <= j < |bindings| && Live(bindings[j], q)
  }

  lemma ServedIff(res: Resources, q: set<GraphId>, a: Address)
    ensures PolicyServed(res, q, a) <==> a in res && res[a].appliesTo.Some? && SomeLive(res[a].appliesTo.value, q)
  {
    if a in res && res[a].appliesTo.Some? {
      var bs := res[a].appliesTo.value;
      var live := LiveBindings(bs, q);
      if live != [] {
        assert live[0] in live;
        var j :| 0 <= j < |bs| && bs[j] == live[0];
      }
      if SomeLive(bs, q) {
        var j :| 0 <= j < |bs| && Live(bs[j], q);
        assert bs[j] in live;
      }
    }
  }

  // ---- lists in address order ----

  ghost predicate Ascending(keys: seq<Address>) {
    forall i, j :: 0 <= i < j < |keys| ==> Before(keys[i], keys[j])
  }

  ghost function GraphKeys(xs: seq<ServingGraph>): seq<Address> {
    seq(|xs|, i requires 0 <= i < |xs| => Graph(xs[i].graph))
  }

  ghost function QueryKeys(xs: seq<ServingQuery>): seq<Address> {
    seq(|xs|, i requires 0 <= i < |xs| => Query(xs[i].graph, xs[i].name))
  }

  ghost function PolicyKeys(xs: seq<ServingPolicy>): seq<Address> {
    seq(|xs|, i requires 0 <= i < |xs| => Policy(xs[i].name))
  }

  /** A first key followed by keys behind it. */
  lemma AscendingCons(a: Address, ks: seq<Address>, keys: seq<Address>)
    requires keys != [] && Sorted(keys) && a == keys[0] && Ascending(ks) && forall k :: k in ks ==> k in keys[1..]
    ensures Ascending([a] + ks)
  {
    forall i | 0 <= i < |ks| ensures Before(a, ks[i]) {
      assert ks[i] in keys[1..];
      var j :| 0 <= j < |keys| - 1 && keys[1..][j] == ks[i];
      assert keys[j + 1] == ks[i];
    }
  }

  lemma GraphKeysCons(x: ServingGraph, rest: seq<ServingGraph>)
    ensures GraphKeys([x] + rest) == [Graph(x.graph)] + GraphKeys(rest)
  {
  }

  lemma QueryKeysCons(x: ServingQuery, rest: seq<ServingQuery>)
    ensures QueryKeys([x] + rest) == [Query(x.graph, x.name)] + QueryKeys(rest)
  {
  }

  lemma PolicyKeysCons(x: ServingPolicy, rest: seq<ServingPolicy>)
    ensures PolicyKeys([x] + rest) == [Policy(x.name)] + PolicyKeys(rest)
  {
  }

  lemma {:induction false} GraphMembers(keys: seq<Address>, res: Resources, q: set<GraphId>)
    ensures forall x :: x in GatherGraphs(keys, res, q) <==>
              Graph(x.graph) in keys && Graph(x.graph) in res && x.graph !in q
              && x.embedding == EmbeddingOf(res, x.graph) && x.policy == GraphPolicy(res, x.graph)
  {
    if keys != [] {
      GraphMembers(keys[1..], res, q);
      assert forall a :: a in keys <==> a == keys[0] || a in keys[1..];
    }
  }

  lemma GraphFirst(keys: seq<Address>, x: ServingGraph, rest: seq<ServingGraph>)
    requires keys != [] && Sorted(keys) && keys[0] == Graph(x.graph) && Ascending(GraphKeys(rest))
    requires forall y :: y in rest ==> Graph(y.graph) in keys[1..]
    ensures Ascending(GraphKeys([x] + rest))
  {
    forall k | k in GraphKeys(rest) ensures k in keys[1..] {
      var i :| 0 <= i < |rest| && GraphKeys(rest)[i] == k;
      assert rest[i] in rest;
    }
    AscendingCons(keys[0], GraphKeys(rest), keys);
    GraphKeysCons(x, rest);
  }

  lemma {:induction false} GraphOrder(keys: seq<Address>, res: Resources, q: set<GraphId>)
    requires Sorted(keys)
    ensures Ascending(GraphKeys(GatherGraphs(keys, res, q)))
  {
    if keys != [] {
      var a, rest := keys[0], GatherGraphs(keys[1..], res, q);
      GraphOrder(keys[1..], res, q);
      if a in res && a.Graph? && a.graph !in q {
        var x := ServingGraph(a.graph, EmbeddingOf(res, a.graph), GraphPolicy(res, a.graph));
        forall y | y in rest ensures Graph(y.graph) in keys[1..] { GraphMembers(keys[1..], res, q); }
        GraphFirst(keys, x, rest);
        assert GatherGraphs(keys, res, q) == [x] + rest;
      } else {
        assert GatherGraphs(keys, res, q) == rest;
      }
    }
  }

  lemma {:induction false} QueryMembers(keys: seq<Address>, res: Resources, blobs: map<BlobKey, string>, q: set<GraphId>)
    ensures forall x :: x in GatherQueries(keys, res, blobs, q) <==>
              Query(x.graph, x.name) in keys && Query(x.graph, x.name) in res && x.graph !in q
              && x.source == SourceOf(res, blobs, Query(x.graph, x.name))
  {
    if keys != [] {
      QueryMembers(keys[1..], res, blobs, q);
      assert forall a :: a in keys <==> a == keys[0] || a in keys[1..];
    }
  }

  lemma QueryFirst(keys: seq<Address>, x: ServingQuery, rest: seq<ServingQuery>)
    requires keys != [] && Sorted(keys) && keys[0] == Query(x.graph, x.name) && Ascending(QueryKeys(rest))
    requires forall y :: y in rest ==> Query(y.graph, y.name) in keys[1..]
    ensures Ascending(QueryKeys([x] + rest))
  {
    forall k | k in QueryKeys(rest) ensures k in keys[1..] {
      var i :| 0 <= i < |rest| && QueryKeys(rest)[i] == k;
      assert rest[i] in rest;
    }
    AscendingCons(keys[0], QueryKeys(rest), keys);
    QueryKeysCons(x, rest);
  }

  lemma {:induction false} QueryOrder(keys: seq<Address>, res: Resources, blobs: map<BlobKey, string>, q: set<GraphId>)
    requires Sorted(keys)
    ensures Ascending(QueryKeys(GatherQueries(keys, res, blobs, q)))
  {
    if keys != [] {
      var a, rest := keys[0], GatherQueries(keys[1..], res, blobs, q);
      QueryOrder(keys[1..], res, blobs, q);
      if a in res && a.Query? && a.graph !in q {
        var x := ServingQuery(a.graph, a.name, SourceOf(res, blobs, a));
        forall y | y in rest ensures Query(y.graph, y.name) in keys[1..] { QueryMembers(keys[1..], res, blobs, q); }
        QueryFirst(keys, x, rest);
        assert GatherQueries(keys, res, blobs, q) == [x] + rest;
      } else {
        assert GatherQueries(keys, res, blobs, q) == rest;
      }
    }
  }

  lemma {:induction false} PolicyMembers(keys: seq<Address>, res: Resources, blobs: map<BlobKey, string>, q: set<GraphId>)
    ensures forall x :: x in GatherPolicies(keys, res, blobs, q) <==>
              Policy(x.name) in keys && PolicyServed(res, q, Policy(x.name)) && x.source == SourceOf(res, blobs, Policy(x.name))
              && x.appliesTo == LiveBindings(res[Policy(x.name)].appliesTo.value, q)
  {
    if keys != [] {
      PolicyMembers(keys[1..], res, blobs, q);
      assert forall a :: a in keys <==> a == keys[0] || a in keys[1..];
    }
  }

  lemma PolicyFirst(keys: seq<Address>, x: ServingPolicy, rest: seq<ServingPolicy>)
    requires keys != [] && Sorted(keys) && keys[0] == Policy(x.name) && Ascending(PolicyKeys(rest))
    requires forall y :: y in rest ==> Policy(y.name) in keys[1..]
    ensures Ascending(PolicyKeys([x] + rest))
  {
    forall k | k in PolicyKeys(rest) ensures k in keys[1..] {
      var i :| 0 <= i < |rest| && PolicyKeys(rest)[i] == k;
      assert rest[i] in rest;
    }
    AscendingCons(keys[0], PolicyKeys(rest), keys);
    PolicyKeysCons(x, rest);
  }

  lemma {:induction false} PolicyOrder(keys: seq<Address>, res: Resources, blobs: map<BlobKey, string>, q: set<GraphId>)
    requires Sorted(keys)
    ensures Ascending(PolicyKeys(GatherPolicies(keys, res, blobs, q)))
  {
    if keys != [] {
      var a, rest := keys[0], GatherPolicies(keys[1..], res, blobs, q);
      PolicyOrder(keys[1..], res, blobs, q);
      if a.Policy? && PolicyServed(res, q, a) {
        var x := ServingPolicy(a.name, SourceOf(res, blobs, a), LiveBindings(res[a].appliesTo.value, q));
        forall y | y in rest ensures Policy(y.name) in keys[1..] { PolicyMembers(keys[1..], res, blobs, q); }
        PolicyFirst(keys, x, rest);
        assert GatherPolicies(keys, res, blobs, q) == [x] + rest;
      } else {
        assert GatherPolicies(keys, res, blobs, q) == rest;
      }
    }
  }

  // ---- what is handed out ----

  /** Graph `g` served as recorded: its Blob policy, and the profile its provider's recorded digest names. */
  ghost predicate ServesGraph(x: ServingGraph, res: Resources, g: GraphId) {
    && x.graph == g && Graph(g) in res
    && x.policy == (if res[Graph(g)].blobPolicy.Some? then res[Graph(g)].blobPolicy.value else Deny)
    && match res[Graph(g)].provider
       case None => x.embedding == None
       case Some(p) => p in res && x.embedding == res[p].profile && x.embedding.Some? && ProfileDigest(x.embedding.value) == res[p].digest
  }

  /** A query served with a source of its recorded digest. */
  ghost predicate ServesQuery(x: ServingQuery, res: Resources, g: GraphId, n: string) {
    x.graph == g && x.name == n && Query(g, n) in res && ContentDigest(x.source) == res[Query(g, n)].digest
  }

  /** A policy served with a source of its recorded digest and its recorded bindings outside quarantine, in order. */
  ghost predicate ServesPolicy(x: ServingPolicy, res: Resources, q: set<GraphId>, n: string) {
    && x.name == n && Policy(n) in res && ContentDigest(x.source) == res[Policy(n)].digest
    && res[Policy(n)].appliesTo.Some? && exists at :: Picks(res[Policy(n)].appliesTo.value, q, x.appliesTo, at)
  }

  lemma ServedGraphs(w: World, rd: Reads)
    requires ServeSnapshot(w, rd).Some?
    ensures var xs, res, q := ServeSnapshot(w, rd).value.graphs, ResourcesOf(w), Quarantined(w.sidecars);
            && Ascending(GraphKeys(xs))
            && (forall x :: x in xs ==> x.graph !in q && ServesGraph(x, res, x.graph))
            && (forall g :: Graph(g) in res && g !in q ==> exists x :: x in xs && ServesGraph(x, res, g))
  {
    var xs, res, q := ServeSnapshot(w, rd).value.graphs, ResourcesOf(w), Quarantined(w.sidecars);
    GraphMembers(SortedKeys(res.Keys), res, q);
    GraphOrder(SortedKeys(res.Keys), res, q);
    forall g | Graph(g) in res && g !in q ensures ServesGraph(ServingGraph(g, EmbeddingOf(res, g), GraphPolicy(res, g)), res, g) {
      assert EntryOk(res, w.blobs, rd, q, Graph(g));
    }
    forall g | Graph(g) in res && g !in q ensures exists x :: x in xs && ServesGraph(x, res, g) {
      assert ServingGraph(g, EmbeddingOf(res, g), GraphPolicy(res, g)) in xs;
    }
  }

  lemma ServedQueries(w: World, rd: Reads)
    requires ServeSnapshot(w, rd).Some?
    ensures var xs, res, q := ServeSnapshot(w, rd).value.queries, ResourcesOf(w), Quarantined(w.sidecars);
            && Ascending(QueryKeys(xs))
            && (forall x :: x in xs ==> x.graph !in q && ServesQuery(x, res, x.graph, x.name))
            && (forall g, n :: Query(g, n) in res && g !in q ==> exists x :: x in xs && ServesQuery(x, res, g, n))
  {
    var xs, res, q := ServeSnapshot(w, rd).value.queries, ResourcesOf(w), Quarantined(w.sidecars);
    QueryMembers(SortedKeys(res.Keys), res, w.blobs, q);
    QueryOrder(SortedKeys(res.Keys), res, w.blobs, q);
    forall g, n | Query(g, n) in res && g !in q
      ensures ServesQuery(ServingQuery(g, n, SourceOf(res, w.blobs, Query(g, n))), res, g, n)
    {
      assert EntryOk(res, w.blobs, rd, q, Query(g, n));
    }
    forall g, n | Query(g, n) in res && g !in q ensures exists x :: x in xs && ServesQuery(x, res, g, n) {
      assert ServingQuery(g, n, SourceOf(res, w.blobs, Query(g, n))) in xs;
    }
  }

  lemma PolicyIsServed(res: Resources, blobs: map<BlobKey, string>, rd: Reads, q: set<GraphId>, n: string)
    requires PolicyServed(res, q, Policy(n)) && EntryOk(res, blobs, rd, q, Policy(n))
    ensures var a := Policy(n); ServesPolicy(ServingPolicy(n, SourceOf(res, blobs, a), LiveBindings(res[a].appliesTo.value, q)), res, q, n)
  {
    var at := BindingsPicked(res[Policy(n)].appliesTo.value, q);
  }

  lemma ServedPolicies(w: World, rd: Reads)
    requires ServeSnapshot(w, rd).Some?
    ensures var xs, res, q := ServeSnapshot(w, rd).value.policies, ResourcesOf(w), Quarantined(w.sidecars);
            && Ascending(PolicyKeys(xs))
            && (forall x :: x in xs ==> ServesPolicy(x, res, q, x.name) && SomeLive(res[Policy(x.name)].appliesTo.value, q))
            && (forall n :: Policy(n) in res ==> res[Policy(n)].appliesTo.Some?)
            && (forall n :: Policy(n) in res && SomeLive(res[Policy(n)].appliesTo.value, q) ==> exists x :: x in xs && ServesPolicy(x, res, q, n))
  {
    var xs, res, q := ServeSnapshot(w, rd).value.policies, ResourcesOf(w), Quarantined(w.sidecars);
    PolicyMembers(SortedKeys(res.Keys), res, w.blobs, q);
    PolicyOrder(SortedKeys(res.Keys), res, w.blobs, q);
    forall n | Policy(n) in res ensures res[Policy(n)].appliesTo.Some? { assert EntryOk(res, w.blobs, rd, q, Policy(n)); }
    forall x | x in xs ensures ServesPolicy(x, res, q, x.name) && SomeLive(res[Policy(x.name)].appliesTo.value, q) {
      assert EntryOk(res, w.blobs, rd, q, Policy(x.name));
      ServedIff(res, q, Policy(x.name));
      PolicyIsServed(res, w.blobs, rd, q, x.name);
    }
    forall n | Policy(n) in res && SomeLive(res[Policy(n)].appliesTo.value, q) ensures exists x :: x in xs && ServesPolicy(x, res, q, n) {
      assert EntryOk(res, w.blobs, rd, q, Policy(n));
      ServedIff(res, q, Policy(n));
      PolicyIsServed(res, w.blobs, rd, q, n);
      assert ServingPolicy(n, SourceOf(res, w.blobs, Policy(n)), LiveBindings(res[Policy(n)].appliesTo.value, q)) in xs;
    }
  }

  // ---- when anything is handed out ----

  /** The catalog can be read at `a` and holds the content its recorded digest names. */
  ghost predicate Readable(w: World, rd: Reads, a: Address) {
    a in ResourcesOf(w) && !rd.badBlob(a) && exists k :: k in w.blobs && k == (a, ResourcesOf(w)[a].digest) && ContentDigest(w.blobs[k]) == k.1
  }

  /** The provider a graph binds is an applied embedding provider whose profile matches its digest. */
  ghost predicate Usable(res: Resources, p: Address) {
    p.EmbeddingProvider? && p in res && exists f :: res[p].profile == Some(f) && ProfileDigest(f) == res[p].digest
  }

  /** Everything to be served is in order: graphs bound and usable, queries and policies readable, policies with bindings. */
  ghost predicate InOrder(w: World, rd: Reads, q: set<GraphId>) {
    var res := ResourcesOf(w);
    && (forall g :: Graph(g) in res && g !in q ==> Bound(res, g) && (res[Graph(g)].provider.Some? ==> Usable(res, res[Graph(g)].provider.value)))
    && (forall g, n :: Query(g, n) in res && g !in q ==> Readable(w, rd, Query(g, n)))
    && (forall n :: Policy(n) in res ==>
          res[Policy(n)].appliesTo.Some? && (SomeLive(res[Policy(n)].appliesTo.value, q) ==> Readable(w, rd, Policy(n))))
  }

  ghost predicate Servable(w: World, rd: Reads) {
    var res, q := ResourcesOf(w), Quarantined(w.sidecars);
    && w.ledger.Some? && !rd.badSidecar && !Unattributed(w.sidecars)
    && (exists g :: Graph(g) in res && g !in q) && InOrder(w, rd, q)
  }

  lemma EntryOkIff(w: World, rd: Reads, a: Address)
    requires a in ResourcesOf(w)
    ensures var res, q := ResourcesOf(w), Quarantined(w.sidecars);
            EntryOk(res, w.blobs, rd, q, a) <==>
            match a
            case Graph(g) => g in q || (Bound(res, g) && (res[a].provider.Some? ==> Usable(res, res[a].provider.value)))
            case Query(g, _) => g in q || Readable(w, rd, a)
            case Policy(_) => res[a].appliesTo.Some? && (SomeLive(res[a].appliesTo.value, q) ==> Readable(w, rd, a))
            case _ => true
  {
    ServedIff(ResourcesOf(w), Quarantined(w.sidecars), a);
  }

  lemma EntriesOkIff(w: World, rd: Reads)
    ensures var res, q := ResourcesOf(w), Quarantined(w.sidecars);
            (forall a :: a in res ==> EntryOk(res, w.blobs, rd, q, a)) <==> InOrder(w, rd, q)
  {
    forall a | a in ResourcesOf(w) { EntryOkIff(w, rd, a); }
  }

  lemma SomeGraphIff(res: Resources, q: set<GraphId>)
    ensures GatherGraphs(SortedKeys(res.Keys), res, q) != [] <==> exists g :: Graph(g) in res && g !in q
  {
    var xs := GatherGraphs(SortedKeys(res.Keys), res, q);
    GraphMembers(SortedKeys(res.Keys), res, q);
    if xs != [] { assert xs[0] in xs && Graph(xs[0].graph) in res; }
    forall g | Graph(g) in res && g !in q ensures xs != [] {
      assert ServingGraph(g, EmbeddingOf(res, g), GraphPolicy(res, g)) in xs;
    }
  }

  /** Fail closed: a snapshot is handed out exactly if nothing it would serve, and no sidecar, is in doubt. */
  lemma SnapshotIff(w: World, rd: Reads)
    ensures ServeSnapshot(w, rd).Some? <==> Servable(w, rd)
  {
    if w.ledger.Some? && !rd.badSidecar && !Unattributed(w.sidecars) {
      EntriesOkIff(w, rd);
      SomeGraphIff(ResourcesOf(w), Quarantined(w.sidecars));
    }
  }
}
