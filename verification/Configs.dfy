/** The part of `load_desired` that turns parsed declarations into the desired maps. */
module Configs {
  import opened Text
  import opened Addresses
  import opened Digests
  import opened Sorting
  import opened Ledgers
  import opened Plan
  import opened Apply
  import opened ApplySafety
  import opened ApplyConverges

  /** A declared graph with its sources already read and hashed. */
  datatype RawGraph = RawGraph(schema: Digest, queries: map<string, Digest>, provider: Option<string>, policy: BlobPolicy)
  datatype RawPolicy = RawPolicy(digest: Digest, appliesTo: seq<string>)
  datatype RawConfig = RawConfig(providers: map<string, Profile>, graphs: map<GraphId, RawGraph>, policies: map<string, RawPolicy>)

  const CLUSTER_SCOPE := Unknown("cluster")

  /** `normalize_embedding_provider_target`. */
  function ProviderName(text: string): Option<string> {
    if StartsWith(text, "provider.embedding.") then Some(text[19..])
    else if '.' in text then None
    else Some(text)
  }

  /** `normalize_policy_target`. */
  function PolicyTarget(text: string): Option<Address> {
    if text == "cluster" then Some(CLUSTER_SCOPE)
    else if StartsWith(text, "graph.") then Some(Graph(text[6..]))
    else if '.' in text then None
    else Some(Graph(text))
  }

  /** The normalized, sorted, deduplicated bindings of a policy. */
  function Targets(texts: seq<string>): set<Address> {
    set i | 0 <= i < |texts| && PolicyTarget(texts[i]).Some? :: PolicyTarget(texts[i]).value
  }

  // ---- validation ----

  predicate ValidGraph(raw: RawConfig, g: GraphId)
    requires g in raw.graphs
  {
    && ValidId(g) && (forall n :: n in raw.graphs[g].queries ==> ValidId(n))
    && (raw.graphs[g].provider.Some? ==>
          var name := ProviderName(raw.graphs[g].provider.value); name.Some? && name.value in raw.providers)
  }

  predicate ValidPolicy(raw: RawConfig, p: string)
    requires p in raw.policies
  {
    var texts := raw.policies[p].appliesTo;
    && ValidId(p) && texts != []
    && (forall i :: 0 <= i < |texts| ==>
          var t := PolicyTarget(texts[i]); t.Some? && (t.value.Graph? ==> t.value.graph in raw.graphs))
    && (CLUSTER_SCOPE in Targets(texts) ==> Targets(texts) == {CLUSTER_SCOPE})
  }

  /** No binding belongs to two policies. */
  predicate OneOwner(raw: RawConfig) {
    forall p, q :: p in raw.policies && q in raw.policies && p != q ==> Targets(raw.policies[p].appliesTo) !! Targets(raw.policies[q].appliesTo)
  }

  predicate Valid(raw: RawConfig) {
    && (forall n :: n in raw.providers ==> ValidId(n))
    && (forall g :: g in raw.graphs ==> ValidGraph(raw, g))
    && (forall p :: p in raw.policies ==> ValidPolicy(raw, p))
    && OneOwner(raw)
  }

  // ---- construction ----

  function ProviderOf(rg: RawGraph): Option<Address> {
    if rg.provider.Some? && ProviderName(rg.provider.value).Some?
    then Some(EmbeddingProvider(ProviderName(rg.provider.value).value)) else None
  }

  function RawQueries(raw: RawConfig, g: GraphId): (q: map<Address, Digest>)
    requires g in raw.graphs
    ensures QueriesOf(g, q)
  {
    map n | n in raw.graphs[g].queries :: Query(g, n) := raw.graphs[g].queries[n]
  }

  function RawProviderDigest(raw: RawConfig, provider: Option<Address>): Option<Digest> {
    if provider.Some? && provider.value.EmbeddingProvider? && provider.value.name in raw.providers
    then Some(ProfileDigest(raw.providers[provider.value.name])) else None
  }

  function Composite(raw: RawConfig, g: GraphId): Digest
    requires g in raw.graphs
  {
    var rg := raw.graphs[g];
    GraphDigest(g, Some(rg.schema), RawQueries(raw, g), ProviderOf(rg), RawProviderDigest(raw, ProviderOf(rg)), rg.policy)
  }

  predicate IsDeclared(raw: RawConfig, a: Address) {
    match a
    case Graph(g) => g in raw.graphs
    case Schema(g) => g in raw.graphs
    case Query(g, n) => g in raw.graphs && n in raw.graphs[g].queries
    case Policy(p) => p in raw.policies
    case EmbeddingProvider(n) => n in raw.providers
    case Unknown(_) => false
  }

  function DeclaredAddresses(raw: RawConfig): set<Address> {
    (set g | g in raw.graphs :: Graph(g)) + (set g | g in raw.graphs :: Schema(g))
    + (set g, n | g in raw.graphs && n in raw.graphs[g].queries :: Query(g, n))
    + (set p | p in raw.policies :: Policy(p)) + (set n | n in raw.providers :: EmbeddingProvider(n))
  }

  function DigestFor(raw: RawConfig, a: Address): Digest
    requires IsDeclared(raw, a)
  {
    match a
    case Graph(g) => Composite(raw, g)
    case Schema(g) => raw.graphs[g].schema
    case Query(g, n) => raw.graphs[g].queries[n]
    case Policy(p) => raw.policies[p].digest
    case EmbeddingProvider(n) => ProfileDigest(raw.providers[n])
  }

  function ResourceMap(raw: RawConfig): map<Address, Digest> {
    map a | a in DeclaredAddresses(raw) && IsDeclared(raw, a) :: DigestFor(raw, a)
  }

  function GraphsInOrder(keys: seq<Address>, raw: RawConfig): seq<DesiredGraph>
    requires forall a :: a in keys ==> a.Graph? && a.graph in raw.graphs
  {
    if keys == [] then []
    else
      var rg := raw.graphs[keys[0].graph];
      [DesiredGraph(keys[0].graph, rg.schema, ProviderOf(rg), rg.policy)] + GraphsInOrder(keys[1..], raw)
  }

  function GraphDependencies(raw: RawConfig): set<Dependency> {
    (set g | g in raw.graphs :: Dependency(Schema(g), Graph(g)))
    + (set g, n | g in raw.graphs && n in raw.graphs[g].queries :: Dependency(Query(g, n), Graph(g)))
    + (set g, n | g in raw.graphs && n in raw.graphs[g].queries :: Dependency(Query(g, n), Schema(g)))
    + (set g | g in raw.graphs && ProviderOf(raw.graphs[g]).Some? :: Dependency(Graph(g), ProviderOf(raw.graphs[g]).value))
  }

  function PolicyDependencies(raw: RawConfig): set<Dependency> {
    set p, a | p in raw.policies && a in Targets(raw.policies[p].appliesTo) && a.Graph? :: Dependency(Policy(p), a)
  }

  function Build(raw: RawConfig, configDigest: Digest): Desired {
    Desired(
      configDigest,
      GraphsInOrder(SortedKeys(set g | g in raw.graphs :: Graph(g)), raw),
      ResourceMap(raw),
      GraphDependencies(raw) + PolicyDependencies(raw),
      map p | p in raw.policies :: Policy(p) := SortedKeys(Targets(raw.policies[p].appliesTo)),
      map n | n in raw.providers :: EmbeddingProvider(n) := raw.providers[n])
  }

  /** A configuration with any validation error yields no desired cluster to act on. */
  function LoadDesired(raw: RawConfig, configDigest: Digest): Option<Desired> {
    if Valid(raw) then Some(Build(raw, configDigest)) else None
  }

  // ---- what loading guarantees ----

  lemma ResourceFacts(raw: RawConfig, a: Address)
    ensures a in ResourceMap(raw) <==> IsDeclared(raw, a)
    ensures IsDeclared(raw, a) ==> ResourceMap(raw)[a] == DigestFor(raw, a)
  {
    if IsDeclared(raw, a) { assert a in DeclaredAddresses(raw); }
  }

  lemma {:induction false} GraphsInOrderFacts(keys: seq<Address>, raw: RawConfig)
    requires forall a :: a in keys ==> a.Graph? && a.graph in raw.graphs
    ensures var gs := GraphsInOrder(keys, raw);
            && |gs| == |keys|
            && (forall i :: 0 <= i < |keys| ==> gs[i] == DesiredGraph(keys[i].graph, raw.graphs[keys[i].graph].schema,
                                                                     ProviderOf(raw.graphs[keys[i].graph]), raw.graphs[keys[i].graph].policy))
  {
    if keys != [] { GraphsInOrderFacts(keys[1..], raw); }
  }

  lemma BuiltGraphs(raw: RawConfig, cd: Digest)
    ensures var gs := Build(raw, cd).graphs;
            && (forall i, j :: 0 <= i < j < |gs| ==> gs[i].id != gs[j].id)
            && (forall dg :: dg in gs ==> FromRaw(raw, dg))
            && (forall g :: g in raw.graphs <==> FindGraph(gs, g).Some?)
  {
    var keys := SortedKeys(set g | g in raw.graphs :: Graph(g));
    var gs := GraphsInOrder(keys, raw);
    GraphsInOrderFacts(keys, raw);
    SortedDistinct(keys);
    forall i, j | 0 <= i < j < |gs| ensures gs[i].id != gs[j].id { assert keys[i] != keys[j] && keys[i] in keys && keys[j] in keys; }
    forall dg | dg in gs ensures FromRaw(raw, dg) {
      var i :| 0 <= i < |gs| && gs[i] == dg;
      assert keys[i] in keys;
    }
    forall g ensures g in raw.graphs <==> FindGraph(gs, g).Some? {
      if g in raw.graphs {
        assert Graph(g) in keys;
        var i :| 0 <= i < |keys| && keys[i] == Graph(g);
        assert gs[i] in gs;
      }
    }
  }

  /** The desired graph carries the declaration's own schema, provider and policy. */
  predicate FromRaw(raw: RawConfig, dg: DesiredGraph) {
    && dg.id in raw.graphs && dg.schemaDigest == raw.graphs[dg.id].schema
    && dg.provider == ProviderOf(raw.graphs[dg.id]) && dg.policy == raw.graphs[dg.id].policy
  }

  /** The desired digests are the declared addresses with their declared digests. */
  ghost predicate DigestsFrom(raw: RawConfig, m: map<Address, Digest>) {
    forall a: Address :: (a in m <==> IsDeclared(raw, a)) && (IsDeclared(raw, a) ==> m[a] == DigestFor(raw, a))
  }

  ghost predicate BuiltFrom(raw: RawConfig, d: Desired) {
    && DigestsFrom(raw, d.digests)
    && (forall a :: a in d.bindings ==> a.Policy? && a.name in raw.policies)
    && (forall a :: a in d.profiles ==> a.EmbeddingProvider? && a.name in raw.providers)
    && (forall i, j :: 0 <= i < j < |d.graphs| ==> d.graphs[i].id != d.graphs[j].id)
    && (forall dg :: dg in d.graphs ==> FromRaw(raw, dg))
    && (forall g :: g in raw.graphs <==> FindGraph(d.graphs, g).Some?)
  }

  lemma BuildIsBuilt(raw: RawConfig, cd: Digest)
    ensures BuiltFrom(raw, Build(raw, cd))
  {
    BuiltGraphs(raw, cd);
    forall a: Address ensures (a in ResourceMap(raw) <==> IsDeclared(raw, a)) && (IsDeclared(raw, a) ==> ResourceMap(raw)[a] == DigestFor(raw, a)) {
      ResourceFacts(raw, a);
    }
  }

  lemma BuiltQueries(raw: RawConfig, d: Desired, g: GraphId)
    requires DigestsFrom(raw, d.digests) && g in raw.graphs
    ensures DesiredQueries(d, g) == RawQueries(raw, g)
  {
    forall a: Address ensures a in DesiredQueries(d, g) <==> a in RawQueries(raw, g) {
      if a.Query? && a.graph == g { assert a == Query(g, a.name); }
    }
    forall a | a in RawQueries(raw, g) ensures DesiredQueries(d, g)[a] == RawQueries(raw, g)[a] {
      assert a == Query(g, a.name);
    }
  }

  lemma BuiltComposite(raw: RawConfig, d: Desired, dg: DesiredGraph)
    requires Valid(raw) && DigestsFrom(raw, d.digests) && FromRaw(raw, dg)
    ensures DesiredComposite(d, dg) == Composite(raw, dg.id)
  {
    BuiltQueries(raw, d, dg.id);
    assert ValidGraph(raw, dg.id);
    assert DesiredProviderDigest(d, dg.provider) == RawProviderDigest(raw, dg.provider);
  }

  lemma BuiltDeclared(raw: RawConfig, d: Desired)
    requires BuiltFrom(raw, d)
    ensures Declared(d)
  {
    forall a | a in d.bindings ensures a in d.digests { assert IsDeclared(raw, a); }
    forall a | a in d.profiles ensures a in d.digests { assert IsDeclared(raw, a); }
    forall dg | dg in d.graphs
      ensures Schema(dg.id) in d.digests && d.digests[Schema(dg.id)] == dg.schemaDigest && (dg.provider.Some? ==> dg.provider.value.EmbeddingProvider?)
    {
      assert FromRaw(raw, dg) && IsDeclared(raw, Schema(dg.id));
    }
  }

  /** Every configuration that loads satisfies what the planner, the sweep and the run assume of it. */
  lemma LoadedConfigIsSound(raw: RawConfig, cd: Digest)
    requires LoadDesired(raw, cd).Some?
    ensures Loaded(LoadDesired(raw, cd).value)
  {
    BuildIsBuilt(raw, cd);
    BuiltLoads(raw, Build(raw, cd));
  }

  lemma BuiltLoads(raw: RawConfig, d: Desired)
    requires Valid(raw) && BuiltFrom(raw, d)
    ensures Loaded(d)
  {
    BuiltDeclared(raw, d);
    forall dg | dg in d.graphs ensures Graph(dg.id) in d.digests && d.digests[Graph(dg.id)] == DesiredComposite(d, dg) {
      assert IsDeclared(raw, Graph(dg.id));
      BuiltComposite(raw, d, dg);
    }
    forall a | a in d.digests ensures !a.Unknown? && (a.Query? ==> Graph(a.graph) in d.digests) {
      assert IsDeclared(raw, a);
      if a.Query? { assert IsDeclared(raw, Graph(a.graph)); }
    }
  }

  lemma PolicyDependencyIff(raw: RawConfig, p: string, a: Address)
    requires p in raw.policies
    ensures Dependency(Policy(p), a) in PolicyDependencies(raw) <==> a in Targets(raw.policies[p].appliesTo) && a.Graph?
  {
    var dep := Dependency(Policy(p), a);
    assert forall q, b :: Dependency(Policy(q), b) == dep ==> q == p && b == a;
  }

  lemma NoPolicyEdge(raw: RawConfig, p: string, a: Address)
    ensures Dependency(Policy(p), a) !in GraphDependencies(raw)
  {
  }

  /** A policy is bound to exactly the graphs it waits on. */
  lemma PolicyWaitsOnBindings(raw: RawConfig, cd: Digest, p: string, g: GraphId)
    requires p in raw.policies
    ensures var d := Build(raw, cd);
            && Policy(p) in d.bindings
            && (Dependency(Policy(p), Graph(g)) in d.dependencies <==> Graph(g) in d.bindings[Policy(p)])
  {
    PolicyDependencyIff(raw, p, Graph(g));
    NoPolicyEdge(raw, p, Graph(g));
  }

  /** Some declared target of the policy normalizes to `a`. */
  ghost predicate Targeted(rp: RawPolicy, a: Address) {
    exists i :: 0 <= i < |rp.appliesTo| && PolicyTarget(rp.appliesTo[i]) == Some(a)
  }

  lemma TargetsIff(rp: RawPolicy, a: Address)
    ensures a in Targets(rp.appliesTo) <==> Targeted(rp, a)
  {
  }

  /** Exactly the declared policies, each with exactly its normalized targets, in order and once each. */
  ghost predicate BindingsFrom(raw: RawConfig, bindings: map<Address, seq<Address>>) {
    && (forall a :: a in bindings <==> a.Policy? && a.name in raw.policies)
    && (forall p :: p in raw.policies ==>
          Policy(p) in bindings && Sorted(bindings[Policy(p)]) && forall a :: a in bindings[Policy(p)] <==> Targeted(raw.policies[p], a))
  }

  /** Exactly the declared providers, each with its own profile, whose digest is the one planned. */
  ghost predicate ProfilesFrom(raw: RawConfig, profiles: map<Address, Profile>, digests: map<Address, Digest>) {
    && (forall a :: a in profiles <==> a.EmbeddingProvider? && a.name in raw.providers)
    && (forall a :: a in profiles ==> a.EmbeddingProvider? && a.name in raw.providers && profiles[a] == raw.providers[a.name])
    && (forall a :: a in profiles ==> a in digests && digests[a] == ProfileDigest(profiles[a]))
  }

  /** Exactly the declared graphs, as declared, in address order. */
  ghost predicate GraphsFrom(raw: RawConfig, graphs: seq<DesiredGraph>) {
    && (forall dg :: dg in graphs ==> FromRaw(raw, dg)) && (forall g :: g in raw.graphs <==> FindGraph(graphs, g).Some?)
    && (forall i, j :: 0 <= i < j < |graphs| ==> Before(Graph(graphs[i].id), Graph(graphs[j].id)))
  }

  lemma BuiltBindings(raw: RawConfig, cd: Digest)
    ensures BindingsFrom(raw, Build(raw, cd).bindings)
  {
    var bindings := Build(raw, cd).bindings;
    forall p | p in raw.policies
      ensures Policy(p) in bindings && Sorted(bindings[Policy(p)]) && forall a :: a in bindings[Policy(p)] <==> Targeted(raw.policies[p], a)
    {
      forall a ensures a in bindings[Policy(p)] <==> Targeted(raw.policies[p], a) { TargetsIff(raw.policies[p], a); }
    }
  }

  lemma BuiltProfiles(raw: RawConfig, cd: Digest)
    ensures ProfilesFrom(raw, Build(raw, cd).profiles, Build(raw, cd).digests)
  {
    var d := Build(raw, cd);
    forall a | a in d.profiles ensures a in d.digests && d.digests[a] == ProfileDigest(d.profiles[a]) { ResourceFacts(raw, a); }
  }

  /** What a loaded configuration hands to the planner is what was declared: digests, bindings, profiles and graphs. */
  lemma LoadedConfigIsExact(raw: RawConfig, cd: Digest)
    requires LoadDesired(raw, cd).Some?
    ensures var d := LoadDesired(raw, cd).value;
            && d.configDigest == cd && DigestsFrom(raw, d.digests) && BindingsFrom(raw, d.bindings)
            && ProfilesFrom(raw, d.profiles, d.digests) && GraphsFrom(raw, d.graphs)
  {
    BuildIsBuilt(raw, cd);
    BuiltBindings(raw, cd);
    BuiltProfiles(raw, cd);
    GraphsAscend(raw, cd);
  }

  lemma GraphsAscend(raw: RawConfig, cd: Digest)
    ensures var gs := Build(raw, cd).graphs; forall i, j :: 0 <= i < j < |gs| ==> Before(Graph(gs[i].id), Graph(gs[j].id))
  {
    var keys := SortedKeys(set g | g in raw.graphs :: Graph(g));
    GraphsInOrderFacts(keys, raw);
    assert forall i :: 0 <= i < |keys| ==> keys[i] in keys && keys[i].Graph?;
  }
}
