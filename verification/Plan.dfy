/** The plan: `diff_resources` and the two metadata passes of `diff.rs`. */
module Plan {
  import opened Addresses
  import opened Digests
  import opened Sorting
  import opened Ledgers

  // ---- desired configuration, as `load_desired` hands it over ----

  datatype DesiredGraph = DesiredGraph(id: GraphId, schemaDigest: Digest, provider: Option<Address>, policy: BlobPolicy)

  datatype Dependency = Dependency(from: Address, to: Address)

  datatype Desired = Desired(
    configDigest: Digest,
    graphs: seq<DesiredGraph>,
    digests: map<Address, Digest>,
    dependencies: set<Dependency>,
    bindings: map<Address, seq<Address>>,
    profiles: map<Address, Profile>)

  // ---- changes ----

  datatype Operation = Create | Update | Delete
  datatype Disposition = Applied | Derived | Deferred | Blocked
  datatype Metadata = PolicyBindings | EmbeddingProfile

  datatype Change = Change(
    resource: Address, operation: Operation, before: Option<Digest>, after: Option<Digest>,
    disposition: Option<Disposition>, reason: Option<Reason>, metadata: Option<Metadata>)

  function DigestChange(a: Address, op: Operation, before: Option<Digest>, after: Option<Digest>): Change {
    Change(a, op, before, after, None, None, None)
  }

  function MetadataChange(a: Address, digest: Digest, metadata: Metadata): Change {
    Change(a, Update, Some(digest), Some(digest), None, None, Some(metadata))
  }

  // ---- what the plan says about one address ----

  function DiffAt(prior: map<Address, Digest>, desired: map<Address, Digest>, a: Address): Option<Change> {
    if a in desired then
      if a !in prior then Some(DigestChange(a, Create, None, Some(desired[a])))
      else if prior[a] != desired[a] then Some(DigestChange(a, Update, Some(prior[a]), Some(desired[a])))
      else None
    else if a in prior then Some(DigestChange(a, Delete, Some(prior[a]), None))
    else None
  }

  function BindingAt(res: Resources, d: Desired, a: Address): Option<Change> {
    if a in d.bindings && a in res && res[a].appliesTo != Some(d.bindings[a])
    then Some(MetadataChange(a, res[a].digest, PolicyBindings)) else None
  }

  function ProfileAt(res: Resources, d: Desired, a: Address): Option<Change> {
    if a in d.profiles && a in res && res[a].profile != Some(d.profiles[a])
    then Some(MetadataChange(a, res[a].digest, EmbeddingProfile)) else None
  }

  function PlanAt(res: Resources, d: Desired, a: Address): (c: Option<Change>)
    ensures c.Some? ==> c.value.resource == a && (a in res || a in d.digests)
  {
    var diff := DiffAt(ResourceDigests(res), d.digests, a);
    if diff.Some? then diff
    else
      var binding := BindingAt(res, d, a);
      if binding.Some? then binding else ProfileAt(res, d, a)
  }

  /** The plan at an address that carries no policy or profile metadata. */
  lemma PlanAtPlain(res: Resources, d: Desired, a: Address)
    requires a !in d.bindings && a !in d.profiles
    ensures PlanAt(res, d, a) ==
            if a in d.digests then
              if a !in res then Some(DigestChange(a, Create, None, Some(d.digests[a])))
              else if res[a].digest != d.digests[a] then Some(DigestChange(a, Update, Some(res[a].digest), Some(d.digests[a])))
              else None
            else if a in res then Some(DigestChange(a, Delete, Some(res[a].digest), None))
            else None
  {
  }

  function Collect(keys: seq<Address>, res: Resources, d: Desired): seq<Change> {
    if keys == [] then []
    else
      var c := PlanAt(res, d, keys[0]);
      (if c.Some? then [c.value] else []) + Collect(keys[1..], res, d)
  }

  /** The full plan, in address order. */
  function PlanOf(res: Resources, d: Desired): seq<Change> {
    Collect(SortedKeys(res.Keys + d.digests.Keys), res, d)
  }

  ghost predicate SortedChanges(cs: seq<Change>) {
    forall i, j :: 0 <= i < j < |cs| ==> Before(cs[i].resource, cs[j].resource)
  }

  ghost predicate UniqueResources(cs: seq<Change>) {
    forall i, j :: 0 <= i < j < |cs| ==> cs[i].resource != cs[j].resource
  }

  lemma {:induction false} CollectFacts(keys: seq<Address>, res: Resources, d: Desired)
    requires Sorted(keys)
    ensures forall c :: c in Collect(keys, res, d) <==> c.resource in keys && PlanAt(res, d, c.resource) == Some(c)
    ensures SortedChanges(Collect(keys, res, d))
    decreases |keys|
  {
    if keys != [] {
      CollectFacts(keys[1..], res, d);
      var rest := Collect(keys[1..], res, d);
      forall c | c in rest ensures Before(keys[0], c.resource) {
        var i :| 0 <= i < |keys| - 1 && keys[1..][i] == c.resource;
        assert keys[i + 1] == c.resource;
      }
      assert forall i :: 0 <= i < |rest| ==> rest[i] in rest;
    }
  }

  lemma SortedIsUnique(cs: seq<Change>)
    requires SortedChanges(cs)
    ensures UniqueResources(cs)
  {
    forall c | c in cs { BeforeIrreflexive(c.resource); }
  }

  /** The plan is address-sorted, names each address at most once, and lists exactly the required changes. */
  lemma PlanFacts(res: Resources, d: Desired)
    ensures forall c :: c in PlanOf(res, d) <==> PlanAt(res, d, c.resource) == Some(c)
    ensures SortedChanges(PlanOf(res, d)) && UniqueResources(PlanOf(res, d))
  {
    CollectFacts(SortedKeys(res.Keys + d.digests.Keys), res, d);
    SortedIsUnique(PlanOf(res, d));
  }

  // ---- replaying a plan on the ledger ----

  function Lookup<T>(m: map<Address, T>, a: Address): Option<T> {
    if a in m then Some(m[a]) else None
  }

  /** What apply writes for one executed change. */
  function ApplyChange(res: Resources, c: Change, d: Desired): Resources {
    match c.operation
    case Delete => res - {c.resource}
    case _ => res[c.resource := Resource(OrEmpty(c.after), Lookup(d.bindings, c.resource), None, Lookup(d.profiles, c.resource), None)]
  }

  function Replay(res: Resources, cs: seq<Change>, d: Desired): Resources
    decreases |cs|
  {
    if cs == [] then res else Replay(ApplyChange(res, cs[0], d), cs[1..], d)
  }

  lemma {:induction false} ReplayElsewhere(res: Resources, cs: seq<Change>, d: Desired, a: Address)
    requires forall c :: c in cs ==> c.resource != a
    ensures a in Replay(res, cs, d) <==> a in res
    ensures a in res ==> Replay(res, cs, d)[a] == res[a]
    decreases |cs|
  {
    if cs != [] {
      assert cs[0] in cs;
      ReplayElsewhere(ApplyChange(res, cs[0], d), cs[1..], d, a);
    }
  }

  lemma {:induction false} ReplayHere(res: Resources, cs: seq<Change>, d: Desired, c: Change)
    requires UniqueResources(cs) && c in cs
    ensures var res', one := Replay(res, cs, d), ApplyChange(res, c, d);
            (c.resource in res' <==> c.resource in one) && (c.resource in one ==> res'[c.resource] == one[c.resource])
    decreases |cs|
  {
    if cs[0] == c {
      forall c' | c' in cs[1..] ensures c'.resource != c.resource {
        var i :| 0 <= i < |cs| - 1 && cs[1..][i] == c';
        assert cs[i + 1] == c';
      }
      ReplayElsewhere(ApplyChange(res, c, d), cs[1..], d, c.resource);
    } else {
      var i :| 0 <= i < |cs| && cs[i] == c;
      assert cs[1..][i - 1] == c;
      ReplayHere(ApplyChange(res, cs[0], d), cs[1..], d, c);
    }
  }

  ghost predicate Agrees(res: Resources, d: Desired) {
    && ResourceDigests(res) == d.digests
    && (forall a :: a in d.bindings ==> a in res && res[a].appliesTo == Some(d.bindings[a]))
    && (forall a :: a in d.profiles ==> a in res && res[a].profile == Some(d.profiles[a]))
  }

  ghost predicate MetadataDeclared(d: Desired) {
    d.bindings.Keys <= d.digests.Keys && d.profiles.Keys <= d.digests.Keys
  }

  /** No change at an address means agreement there; a delete means it is not desired. */
  lemma PlanAtDesired(res: Resources, d: Desired, a: Address)
    requires MetadataDeclared(d)
    ensures PlanAt(res, d, a).None? ==>
              && DigestAt(res, a) == Lookup(d.digests, a)
              && (a in d.bindings ==> a in res && res[a].appliesTo == Some(d.bindings[a]))
              && (a in d.profiles ==> a in res && res[a].profile == Some(d.profiles[a]))
    ensures PlanAt(res, d, a).Some? && PlanAt(res, d, a).value.operation == Delete ==> a !in d.digests
    ensures PlanAt(res, d, a).Some? && PlanAt(res, d, a).value.operation != Delete ==> a in d.digests
  {
    assert a in ResourceDigests(res) <==> a in res;
  }

  lemma AfterIsDesired(res: Resources, d: Desired, a: Address)
    requires MetadataDeclared(d)
    requires PlanAt(res, d, a).Some? && PlanAt(res, d, a).value.operation != Delete
    ensures a in d.digests && PlanAt(res, d, a).value.after == Some(d.digests[a])
  {
    assert a in ResourceDigests(res) <==> a in res;
  }

  /** Replaying the plan on the prior ledger reaches exactly the desired digests, bindings and profiles. */
  lemma PlanIsExact(res: Resources, d: Desired)
    requires MetadataDeclared(d)
    ensures Agrees(Replay(res, PlanOf(res, d), d), d)
  {
    var cs := PlanOf(res, d);
    var res' := Replay(res, cs, d);
    PlanFacts(res, d);
    forall a: Address
      ensures DigestAt(res', a) == Lookup(d.digests, a)
      ensures a in d.bindings ==> a in res' && res'[a].appliesTo == Some(d.bindings[a])
      ensures a in d.profiles ==> a in res' && res'[a].profile == Some(d.profiles[a])
    {
      PlanExactAt(res, d, a);
    }
    forall a ensures a in ResourceDigests(res') <==> a in d.digests { assert DigestAt(res', a) == Lookup(d.digests, a); }
    forall a | a in d.digests ensures ResourceDigests(res')[a] == d.digests[a] { assert DigestAt(res', a) == Lookup(d.digests, a); }
  }

  lemma PlanExactAt(res: Resources, d: Desired, a: Address)
    requires MetadataDeclared(d)
    ensures var res' := Replay(res, PlanOf(res, d), d);
            && DigestAt(res', a) == Lookup(d.digests, a)
            && (a in d.bindings ==> a in res' && res'[a].appliesTo == Some(d.bindings[a]))
            && (a in d.profiles ==> a in res' && res'[a].profile == Some(d.profiles[a]))
  {
    var cs := PlanOf(res, d);
    PlanFacts(res, d);
    PlanAtDesired(res, d, a);
    var c := PlanAt(res, d, a);
    if c.Some? {
      assert c.value in cs;
      if c.value.operation != Delete { AfterIsDesired(res, d, a); }
      ReplayHere(res, cs, d, c.value);
    } else {
      ReplayElsewhere(res, cs, d, a);
    }
  }

  /** The plan is empty exactly when digests, bindings and profiles already agree. */
  lemma PlanEmptyIffAgrees(res: Resources, d: Desired)
    requires MetadataDeclared(d)
    ensures PlanOf(res, d) == [] <==> Agrees(res, d)
  {
    PlanFacts(res, d);
    PlanIsExact(res, d);
    assert PlanOf(res, d) == [] || PlanOf(res, d)[0] in PlanOf(res, d);
    if Agrees(res, d) {
      forall a: Address ensures PlanAt(res, d, a).None? {
        assert DigestAt(res, a) == if a in ResourceDigests(res) then Some(ResourceDigests(res)[a]) else None;
      }
    }
  }

  /**
   A planned change, read off the two sides: its digests are what is recorded and what is desired, its operation says which
   of them exist, and a change of equal digests is a binding or, failing that, a profile that differs.
   */
  lemma PlanRow(res: Resources, d: Desired, c: Change)
    requires MetadataDeclared(d) && c in PlanOf(res, d)
    ensures var a := c.resource;
            && c.before == DigestAt(res, a) && c.after == Lookup(d.digests, a)
            && (c.operation == Create <==> a !in res) && (c.operation == Delete <==> a !in d.digests)
            && (c.metadata == None <==> DigestAt(res, a) != Lookup(d.digests, a))
            && (c.metadata == Some(PolicyBindings) <==>
                  DigestAt(res, a) == Lookup(d.digests, a) && a in d.bindings && a in res && res[a].appliesTo != Some(d.bindings[a]))
            && c.disposition == None && c.reason == None
  {
    PlanFacts(res, d);
    assert c.resource in ResourceDigests(res) <==> c.resource in res;
  }
}
