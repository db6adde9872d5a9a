/** `read_snapshot_with_store` step by step: accumulate, remember every error, and hand out all or nothing. */
module ServeRun {
  import opened Text
  import opened Addresses
  import opened Digests
  import opened Sorting
  import opened Ledgers
  import opened Serve

  predicate Blank(id: string) {
    Trim(id) == ""
  }

  /** The sidecar loop: whose graphs to quarantine, and whether some sidecar cannot be attributed. */
  method CollectQuarantine(sidecars: map<OpId, Sidecar>) returns (quarantined: set<GraphId>, unattributed: bool)
    ensures unattributed == Unattributed(sidecars)
    ensures !unattributed ==> quarantined == Quarantined(sidecars)
  {
    quarantined, unattributed := {}, false;
    var left := sidecars.Keys;
    while left != {}
      invariant left <= sidecars.Keys
      invariant unattributed <==> exists op :: op in sidecars && op !in left && Blank(sidecars[op].graph)
      invariant !unattributed ==> quarantined == set op | op in sidecars && op !in left :: sidecars[op].graph
      decreases |left|
    {
      var op :| op in left;
      left := left - {op};
      if Blank(sidecars[op].graph) {
        unattributed := true;
        continue;
      }
      quarantined := quarantined + {sidecars[op].graph};
    }
  }

  /** Some graph that would be served binds provider `p`. */
  ghost predicate Required(res: Resources, q: set<GraphId>, p: Address) {
    exists g :: Graph(g) in res && g !in q && res[Graph(g)].provider == Some(p)
  }

  /** Exactly the providers that healthy graphs bind and whose recorded profile matches its digest. */
  ghost predicate Usable(profiles: map<Address, Profile>, res: Resources, q: set<GraphId>) {
    && (forall p :: p in profiles <==> Required(res, q, p) && ProfileOk(res, p))
    && (forall p :: p in profiles ==> p in res && res[p].profile == Some(profiles[p]))
  }

  /** The same over the keys visited so far. */
  ghost predicate UsableSoFar(profiles: map<Address, Profile>, keys: seq<Address>, required: set<Address>, res: Resources) {
    && (forall p :: p in profiles <==> p in keys && p in required && ProfileOk(res, p))
    && (forall p :: p in profiles ==> p in res && res[p].profile == Some(profiles[p]))
  }

  lemma ProfileTurn(profiles: map<Address, Profile>, keys: seq<Address>, n: nat, required: set<Address>, res: Resources)
    requires n < |keys| && UsableSoFar(profiles, keys[..n], required, res)
    ensures UsableSoFar(if keys[n] in required && ProfileOk(res, keys[n]) then profiles[keys[n] := res[keys[n]].profile.value] else profiles,
                        keys[..n + 1], required, res)
  {
    assert keys[..n + 1] == keys[..n] + [keys[n]];
  }

  /** The profile loop: the usable profiles of the providers that healthy graphs bind. */
  method CollectProfiles(res: Resources, q: set<GraphId>) returns (profiles: map<Address, Profile>, failed: bool)
    ensures Usable(profiles, res, q)
    ensures failed ==> exists p :: Required(res, q, p) && !ProfileOk(res, p)
  {
    var required := set a | a in res && a.Graph? && a.graph !in q && res[a].provider.Some? :: res[a].provider.value;
    profiles, failed := map[], false;
    ghost var bad: Option<Address> := None;
    var keys := SortedKeys(res.Keys);
    for n := 0 to |keys|
      invariant UsableSoFar(profiles, keys[..n], required, res)
      invariant failed ==> bad.Some? && bad.value in required && !ProfileOk(res, bad.value)
    {
      var p := keys[n];
      assert p in keys;
      ProfileTurn(profiles, keys, n, required, res);
      if p.EmbeddingProvider? && p in required {
        if res[p].profile.None? || ProfileDigest(res[p].profile.value) != res[p].digest {
          failed, bad := true, Some(p);
        } else {
          profiles := profiles[p := res[p].profile.value];
        }
      }
    }
    assert keys[..|keys|] == keys;
    RequiredSet(res, q, required);
  }

  lemma RequiredSet(res: Resources, q: set<GraphId>, required: set<Address>)
    requires required == set a | a in res && a.Graph? && a.graph !in q && res[a].provider.Some? :: res[a].provider.value
    ensures forall p :: p in required <==> Required(res, q, p)
  {
    forall p | Required(res, q, p) ensures p in required {
      var g :| Graph(g) in res && g !in q && res[Graph(g)].provider == Some(p);
      assert Graph(g).graph == g;
    }
  }

  // ---- what one key adds to each of the three lists ----

  function GraphPart(res: Resources, q: set<GraphId>, a: Address): seq<ServingGraph> {
    if a in res && a.Graph? && a.graph !in q then [ServingGraph(a.graph, EmbeddingOf(res, a.graph), GraphPolicy(res, a.graph))] else []
  }

  function QueryPart(res: Resources, blobs: map<BlobKey, string>, q: set<GraphId>, a: Address): seq<ServingQuery> {
    if a in res && a.Query? && a.graph !in q then [ServingQuery(a.graph, a.name, SourceOf(res, blobs, a))] else []
  }

  function PolicyPart(res: Resources, blobs: map<BlobKey, string>, q: set<GraphId>, a: Address): seq<ServingPolicy> {
    if a.Policy? && PolicyServed(res, q, a) then [ServingPolicy(a.name, SourceOf(res, blobs, a), LiveBindings(res[a].appliesTo.value, q))] else []
  }

  /** With these lists gathered already, what is left of the keys completes the snapshot. */
  ghost predicate Completes(s: Snapshot, keys: seq<Address>, res: Resources, blobs: map<BlobKey, string>, q: set<GraphId>, goal: Snapshot) {
    && s.graphs + GatherGraphs(keys, res, q) == goal.graphs
    && s.queries + GatherQueries(keys, res, blobs, q) == goal.queries
    && s.policies + GatherPolicies(keys, res, blobs, q) == goal.policies
  }

  lemma CompletesTurn(s: Snapshot, keys: seq<Address>, res: Resources, blobs: map<BlobKey, string>, q: set<GraphId>, goal: Snapshot)
    requires keys != [] && Completes(s, keys, res, blobs, q, goal)
    ensures var a := keys[0];
            Completes(Snapshot(s.graphs + GraphPart(res, q, a), s.queries + QueryPart(res, blobs, q, a), s.policies + PolicyPart(res, blobs, q, a)),
                      keys[1..], res, blobs, q, goal)
  {
  }

  /** The body of the main loop: `ok` is false exactly when the entry draws an error. */
  method ServeEntry(s: Snapshot, res: Resources, blobs: map<BlobKey, string>, rd: Reads, q: set<GraphId>, profiles: map<Address, Profile>, a: Address)
    returns (ok: bool, s': Snapshot)
    requires a in res && Usable(profiles, res, q)
    ensures ok == EntryOk(res, blobs, rd, q, a)
    ensures ok ==> s' == Snapshot(s.graphs + GraphPart(res, q, a), s.queries + QueryPart(res, blobs, q, a), s.policies + PolicyPart(res, blobs, q, a))
  {
    ok, s' := true, s;
    match a {
      case Graph(g) =>
        if g in q { return; }
        var graph;
        ok, graph := ServeGraph(res, q, profiles, g);
        s' := s.(graphs := s.graphs + [graph]);
      case Query(g, name) =>
        if g in q { return; }
        ok := PayloadOk(res, blobs, rd, a);
        s' := s.(queries := s.queries + [ServingQuery(g, name, SourceOf(res, blobs, a))]);
      case Policy(name) =>
        if res[a].appliesTo.None? { return false, s; }
        var appliesTo := LiveBindings(res[a].appliesTo.value, q);
        if appliesTo == [] { return; }
        ok := PayloadOk(res, blobs, rd, a);
        s' := s.(policies := s.policies + [ServingPolicy(name, SourceOf(res, blobs, a), appliesTo)]);
      case _ =>
    }
  }

  /** The main loop over the applied resources. */
  method GatherServing(res: Resources, blobs: map<BlobKey, string>, rd: Reads, q: set<GraphId>, profiles: map<Address, Profile>)
    returns (snapshot: Snapshot, failed: bool)
    requires Usable(profiles, res, q)
    ensures failed <==> exists a :: a in res && !EntryOk(res, blobs, rd, q, a)
    ensures !failed ==> snapshot == SnapshotOf(res, blobs, q)
  {
    snapshot, failed := Snapshot([], [], []), false;
    var keys := SortedKeys(res.Keys);
    ghost var goal := SnapshotOf(res, blobs, q);
    assert keys[0..] == keys;
    for n := 0 to |keys|
      invariant failed <==> exists i :: 0 <= i < n && keys[i] in res && !EntryOk(res, blobs, rd, q, keys[i])
      invariant !failed ==> Completes(snapshot, keys[n..], res, blobs, q, goal)
    {
      assert keys[n] in keys && keys[n..][0] == keys[n] && keys[n..][1..] == keys[n + 1..];
      if !failed { CompletesTurn(snapshot, keys[n..], res, blobs, q, goal); }
      var ok;
      ok, snapshot := ServeEntry(snapshot, res, blobs, rd, q, profiles, keys[n]);
      if !ok { failed := true; }
    }
  }

  /** One graph entry: its provider must be a usable embedding profile and its composite digest must bind. */
  method ServeGraph(res: Resources, q: set<GraphId>, profiles: map<Address, Profile>, g: GraphId) returns (ok: bool, graph: ServingGraph)
    requires Graph(g) in res && g !in q
    requires Usable(profiles, res, q)
    ensures ok == GraphOk(res, g)
    ensures ok ==> graph == ServingGraph(g, EmbeddingOf(res, g), GraphPolicy(res, g))
  {
    var entry := res[Graph(g)];
    var embedding: Option<Profile> := None;
    ok := true;
    if entry.provider.Some? {
      assert Required(res, q, entry.provider.value);
      if entry.provider.value.EmbeddingProvider? && entry.provider.value in profiles {
        embedding := Some(profiles[entry.provider.value]);
      } else {
        ok := false;
      }
    }
    if ExpectedGraphDigest(res, g, entry) != entry.digest { ok := false; }
    graph := ServingGraph(g, embedding, PolicyOf(entry));
  }

  /** `read_snapshot_with_store` computes exactly `ServeSnapshot`. */
  method ReadSnapshot(w: World, rd: Reads) returns (r: Option<Snapshot>)
    ensures r == ServeSnapshot(w, rd)
  {
    var q, unattributed := CollectQuarantine(w.sidecars);
    if rd.badSidecar || unattributed { return None; }
    if w.ledger.None? { return None; }
    var res := w.ledger.value.resources;
    var profiles, badProfile := CollectProfiles(res, q);
    var snapshot, failed := GatherServing(res, w.blobs, rd, q, profiles);
    if badProfile {
      ghost var p :| Required(res, q, p) && !ProfileOk(res, p);
      ghost var g :| Graph(g) in res && g !in q && res[Graph(g)].provider == Some(p);
      assert !EntryOk(res, w.blobs, rd, q, Graph(g));
    }
    if failed || badProfile || snapshot.graphs == [] { return None; }
    return Some(snapshot);
  }
}
