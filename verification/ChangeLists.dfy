/** The change list of `diff.rs` as the planner works on it: built by loops, sorted, extended and stamped in place. */
module ChangeLists {
  import opened Addresses
  import opened Digests
  import opened Sorting
  import opened Ledgers
  import opened Plan
  import opened Classify

  // ---- sort_by on the address ----

  function Insert(c: Change, cs: seq<Change>): seq<Change> {
    if cs == [] || Before(c.resource, cs[0].resource) then [c] + cs else [cs[0]] + Insert(c, cs[1..])
  }

  function SortChanges(cs: seq<Change>): seq<Change> {
    if cs == [] then [] else Insert(cs[0], SortChanges(cs[1..]))
  }

  lemma {:induction false} InsertFacts(c: Change, cs: seq<Change>)
    requires SortedChanges(cs) && forall x :: x in cs ==> x.resource != c.resource
    ensures SortedChanges(Insert(c, cs))
    ensures forall x :: x in Insert(c, cs) <==> x == c || x in cs
  {
    if cs != [] {
      var rest := Insert(c, cs[1..]);
      if Before(c.resource, cs[0].resource) {
        forall i | 0 < i < |cs| ensures Before(c.resource, cs[i].resource) {
          BeforeTransitive(c.resource, cs[0].resource, cs[i].resource);
        }
      } else {
        InsertFacts(c, cs[1..]);
        BeforeTotal(c.resource, cs[0].resource);
        assert cs[0] in cs;
        forall i | 0 <= i < |rest| ensures Before(cs[0].resource, rest[i].resource) {
          assert rest[i] in rest;
          if rest[i] != c {
            var j :| 0 <= j < |cs| - 1 && cs[1..][j] == rest[i];
            assert cs[j + 1] == rest[i];
          }
        }
      }
    }
  }

  /** Sorting keeps the elements; without two changes to one address the result is strictly ascending. */
  lemma {:induction false} SortFacts(cs: seq<Change>)
    requires UniqueResources(cs)
    ensures SortedChanges(SortChanges(cs))
    ensures forall x :: x in SortChanges(cs) <==> x in cs
  {
    if cs != [] {
      SortFacts(cs[1..]);
      forall x | x in SortChanges(cs[1..]) ensures x.resource != cs[0].resource {
        var j :| 0 <= j < |cs| - 1 && cs[1..][j] == x;
        assert cs[j + 1] == x;
      }
      InsertFacts(cs[0], SortChanges(cs[1..]));
    }
  }

  /** Two ascending lists of the same changes are one list. */
  lemma {:induction false} SortedChangesUnique(s: seq<Change>, t: seq<Change>)
    requires SortedChanges(s) && SortedChanges(t)
    requires forall c :: c in s <==> c in t
    ensures s == t
    decreases |s|
  {
    assert t != [] ==> t[0] in t;
    if s != [] {
      assert s[0] in s;
      SameFirst(s, t);
      SameRest(s, t);
      SortedChangesUnique(s[1..], t[1..]);
    }
  }

  lemma SameFirst(s: seq<Change>, t: seq<Change>)
    requires SortedChanges(s) && SortedChanges(t) && s != [] && t != []
    requires forall c :: c in s <==> c in t
    ensures s[0] == t[0]
  {
    assert s[0] in s && t[0] in t;
    var i :| 0 <= i < |t| && t[i] == s[0];
    var j :| 0 <= j < |s| && s[j] == t[0];
    if i > 0 && j > 0 {
      BeforeTransitive(s[0].resource, t[0].resource, s[0].resource);
      BeforeIrreflexive(s[0].resource);
    }
  }

  lemma SameRest(s: seq<Change>, t: seq<Change>)
    requires SortedChanges(s) && SortedChanges(t) && s != [] && t != [] && s[0] == t[0]
    requires forall c :: c in s <==> c in t
    ensures forall c :: c in s[1..] <==> c in t[1..]
  {
    RestMembers(s);
    RestMembers(t);
  }

  lemma RestMembers(s: seq<Change>)
    requires SortedChanges(s) && s != []
    ensures forall c :: c in s[1..] <==> c in s && c != s[0]
  {
    BeforeIrreflexive(s[0].resource);
    assert s == [s[0]] + s[1..];
    assert forall i :: 0 <= i < |s| - 1 ==> s[1..][i] == s[i + 1];
  }

  // ---- the list ----

  predicate Mentions(cs: seq<Change>, a: Address) {
    exists i :: 0 <= i < |cs| && cs[i].resource == a
  }

  /** What the keys visited so far have contributed. */
  ghost predicate Gathered(cs: seq<Change>, keys: seq<Address>, n: nat, at: Address -> Option<Change>)
    requires n <= |keys|
  {
    && UniqueResources(cs)
    && (forall c :: c in cs <==> c.resource in keys[..n] && at(c.resource) == Some(c))
  }

  lemma GatherStep(cs: seq<Change>, keys: seq<Address>, n: nat, at: Address -> Option<Change>)
    requires n < |keys| && Sorted(keys) && Gathered(cs, keys, n, at)
    requires at(keys[n]).Some? ==> at(keys[n]).value.resource == keys[n]
    ensures Gathered(if at(keys[n]).Some? then cs + [at(keys[n]).value] else cs, keys, n + 1, at)
  {
    SortedDistinct(keys);
    assert keys[..n + 1] == keys[..n] + [keys[n]];
    assert keys[n] !in keys[..n];
    forall i | 0 <= i < |cs| ensures cs[i].resource != keys[n] { assert cs[i] in cs; }
  }

  /** Appending what another loop gathered at addresses the list does not mention yet, then sorting. */
  lemma AppendAndSort(cs: seq<Change>, added: seq<Change>)
    requires UniqueResources(cs) && UniqueResources(added)
    requires forall c :: c in added ==> !Mentions(cs, c.resource)
    ensures SortedChanges(SortChanges(cs + added))
    ensures forall c :: c in SortChanges(cs + added) <==> c in cs || c in added
  {
    forall i, j | 0 <= i < |cs| && 0 <= j < |added| ensures cs[i].resource != added[j].resource {
      assert added[j] in added;
    }
    SortFacts(cs + added);
  }

  /** The two passes of the diff touch disjoint addresses and together list exactly the differences. */
  lemma BothPasses(prior: map<Address, Digest>, desired: map<Address, Digest>,
                   first: seq<Change>, desiredKeys: seq<Address>, kept: Address -> Option<Change>,
                   deletes: seq<Change>, priorKeys: seq<Address>, gone: Address -> Option<Change>)
    requires Gathered(first, desiredKeys, |desiredKeys|, kept) && Gathered(deletes, priorKeys, |priorKeys|, gone)
    requires (forall a :: a in desiredKeys <==> a in desired) && (forall a :: a in priorKeys <==> a in prior)
    requires forall a :: kept(a) == DiffAt(prior, desired, a)
    requires forall a :: gone(a) == if a in desired then None else DiffAt(prior, desired, a)
    ensures SortedChanges(SortChanges(first + deletes))
    ensures forall c :: c in SortChanges(first + deletes) <==> DiffAt(prior, desired, c.resource) == Some(c)
  {
    assert desiredKeys[..|desiredKeys|] == desiredKeys && priorKeys[..|priorKeys|] == priorKeys;
    assert forall i :: 0 <= i < |first| ==> first[i] in first;
    AppendAndSort(first, deletes);
  }

  /** `diff_resources`: one pass over the desired digests, one over the recorded ones, then a sort. */
  method DiffResources(prior: map<Address, Digest>, desired: map<Address, Digest>) returns (changes: seq<Change>)
    ensures SortedChanges(changes)
    ensures forall c :: c in changes <==> DiffAt(prior, desired, c.resource) == Some(c)
  {
    ghost var kept := (a: Address) => DiffAt(prior, desired, a);
    var keys := SortedKeys(desired.Keys);
    changes := [];
    for n := 0 to |keys|
      invariant Gathered(changes, keys, n, kept)
    {
      var a := keys[n];
      assert a in keys;
      GatherStep(changes, keys, n, kept);
      if a !in prior {
        changes := changes + [DigestChange(a, Create, None, Some(desired[a]))];
      } else if prior[a] != desired[a] {
        changes := changes + [DigestChange(a, Update, Some(prior[a]), Some(desired[a]))];
      }
    }
    ghost var desiredKeys := keys;
    ghost var gone := (a: Address) => if a in desired then None else DiffAt(prior, desired, a);
    ghost var first, deletes := changes, [];
    keys := SortedKeys(prior.Keys);
    for n := 0 to |keys|
      invariant changes == first + deletes
      invariant Gathered(deletes, keys, n, gone)
    {
      var a := keys[n];
      assert a in keys;
      GatherStep(deletes, keys, n, gone);
      if a !in desired {
        deletes := deletes + [DigestChange(a, Delete, Some(prior[a]), None)];
        changes := changes + [DigestChange(a, Delete, Some(prior[a]), None)];
      }
    }
    BothPasses(prior, desired, first, desiredKeys, kept, deletes, keys, gone);
    changes := SortChanges(changes);
  }

  /** The list extended by what a metadata pass finds at addresses it does not mention. */
  ghost predicate Extends(cs: seq<Change>, cs': seq<Change>, at: Address -> Option<Change>) {
    && SortedChanges(cs')
    && (forall c :: c in cs' <==> c in cs || (!Mentions(cs, c.resource) && at(c.resource) == Some(c)))
  }

  /** The address at hand is one the pass has not appended itself. */
  lemma NotAppendedYet(cs: seq<Change>, added: seq<Change>, keys: seq<Address>, n: nat, at: Address -> Option<Change>)
    requires n < |keys| && Sorted(keys) && Gathered(added, keys, n, at)
    ensures Mentions(cs + added, keys[n]) == Mentions(cs, keys[n])
  {
    SortedDistinct(keys);
    forall i | 0 <= i < |added| ensures added[i].resource != keys[n] { assert added[i] in added; }
    if Mentions(cs, keys[n]) {
      var i :| 0 <= i < |cs| && cs[i].resource == keys[n];
      assert (cs + added)[i].resource == keys[n];
    }
  }

  ghost function BindingPass(res: Resources, d: Desired): Address -> Option<Change> {
    a => BindingAt(res, d, a)
  }

  ghost function ProfilePass(res: Resources, d: Desired): Address -> Option<Change> {
    a => ProfileAt(res, d, a)
  }

  ghost function Unmentioned(before: seq<Change>, pass: Address -> Option<Change>): Address -> Option<Change> {
    a => if Mentions(before, a) then None else pass(a)
  }

  /** One turn of a metadata pass. */
  lemma PassStep(before: seq<Change>, added: seq<Change>, keys: seq<Address>, n: nat, pass: Address -> Option<Change>)
    requires n < |keys| && Sorted(keys) && Gathered(added, keys, n, Unmentioned(before, pass))
    requires pass(keys[n]).Some? ==> pass(keys[n]).value.resource == keys[n]
    ensures Mentions(before + added, keys[n]) == Mentions(before, keys[n])
    ensures Gathered(if !Mentions(before, keys[n]) && pass(keys[n]).Some? then added + [pass(keys[n]).value] else added,
                     keys, n + 1, Unmentioned(before, pass))
  {
    GatherStep(added, keys, n, Unmentioned(before, pass));
    NotAppendedYet(before, added, keys, n, Unmentioned(before, pass));
  }

  lemma FinishPass(before: seq<Change>, added: seq<Change>, keys: seq<Address>, pass: Address -> Option<Change>)
    requires SortedChanges(before) && Gathered(added, keys, |keys|, Unmentioned(before, pass))
    requires forall a :: pass(a).Some? ==> a in keys
    ensures Extends(before, SortChanges(before + added), pass)
  {
    assert keys[..|keys|] == keys;
    SortedIsUnique(before);
    AppendAndSort(before, added);
  }

  class ChangeList {
    var items: seq<Change>

    constructor (changes: seq<Change>)
      ensures items == changes
    {
      items := changes;
    }

    /** `append_policy_binding_changes`. */
    method AppendPolicyBindingChanges(res: Resources, d: Desired)
      requires SortedChanges(items)
      modifies this
      ensures Extends(old(items), items, BindingPass(res, d))
    {
      ghost var before, added := items, [];
      ghost var pass := BindingPass(res, d);
      var keys := SortedKeys(d.bindings.Keys);
      for n := 0 to |keys|
        invariant items == before + added
        invariant Gathered(added, keys, n, Unmentioned(before, pass))
      {
        var a := keys[n];
        assert a in keys;
        PassStep(before, added, keys, n, pass);
        assert pass(a) == BindingAt(res, d, a);
        if Mentions(items, a) { continue; }
        if a !in res { continue; }
        if res[a].appliesTo == Some(d.bindings[a]) { continue; }
        added := added + [MetadataChange(a, res[a].digest, PolicyBindings)];
        items := items + [MetadataChange(a, res[a].digest, PolicyBindings)];
      }
      FinishPass(before, added, keys, pass);
      items := SortChanges(items);
    }

    /** `append_embedding_profile_changes`. */
    method AppendEmbeddingProfileChanges(res: Resources, d: Desired)
      requires SortedChanges(items)
      modifies this
      ensures Extends(old(items), items, ProfilePass(res, d))
    {
      ghost var before, added := items, [];
      ghost var pass := ProfilePass(res, d);
      var keys := SortedKeys(d.profiles.Keys);
      for n := 0 to |keys|
        invariant items == before + added
        invariant Gathered(added, keys, n, Unmentioned(before, pass))
      {
        var a := keys[n];
        assert a in keys;
        PassStep(before, added, keys, n, pass);
        assert pass(a) == ProfileAt(res, d, a);
        if Mentions(items, a) { continue; }
        if a !in res { continue; }
        if res[a].profile == Some(d.profiles[a]) { continue; }
        added := added + [MetadataChange(a, res[a].digest, EmbeddingProfile)];
        items := items + [MetadataChange(a, res[a].digest, EmbeddingProfile)];
      }
      FinishPass(before, added, keys, pass);
      items := SortChanges(items);
    }

    /** `classify_changes`: one pass gathers the graphs being created and deleted, a second stamps every change. */
    method ClassifyChanges(dependencies: set<Dependency>, pending: set<GraphId>, approved: set<Address>)
      modifies this
      ensures items == Classified(old(items), GateOf(old(items), dependencies, pending, approved))
    {
      var schemaCreates, schemaPending, graphCreates, graphDeletes: set<GraphId> := {}, {}, {}, {};
      for n := 0 to |items|
        invariant items == old(items)
        invariant schemaCreates == SchemasWith(items[..n], Create) && schemaPending == SchemasWith(items[..n], Delete)
        invariant graphCreates == GraphsWith(items[..n], Create) && graphDeletes == GraphsWith(items[..n], Delete)
      {
        var c := items[n];
        WithStep(items, n);
        match c.resource
        case Schema(g) =>
          if c.operation == Create { schemaCreates := schemaCreates + {g}; }
          if c.operation == Delete { schemaPending := schemaPending + {g}; }
        case Graph(g) =>
          if c.operation == Create { graphCreates := graphCreates + {g}; }
          if c.operation == Delete { graphDeletes := graphDeletes + {g}; }
        case _ =>
      }
      assert items[..|items|] == items;
      schemaPending := schemaPending + (schemaCreates - graphCreates);
      var gate := Gate(graphCreates, graphDeletes, schemaPending, pending, approved, dependencies);
      for n := 0 to |items|
        invariant |items| == |old(items)|
        invariant forall i :: 0 <= i < n ==> items[i] == Stamp(old(items)[i], Judge(gate, old(items)[i]))
        invariant forall i :: n <= i < |items| ==> items[i] == old(items)[i]
      {
        items := items[n := Stamp(items[n], Judge(gate, items[n]))];
      }
    }

    /** `demote_dependents_of_failed_graphs`. */
    method DemoteDependentsOfFailedGraphs(failed: map<GraphId, Origin>, dependencies: set<Dependency>)
      modifies this
      ensures items == Demoted(old(items), failed, dependencies)
    {
      for n := 0 to |items|
        invariant |items| == |old(items)|
        invariant forall i :: 0 <= i < n ==> items[i] == DemoteOne(old(items)[i], failed, dependencies)
        invariant forall i :: n <= i < |items| ==> items[i] == old(items)[i]
      {
        if items[n].disposition != Some(Applied) { continue; }
        var reason := DemoteReason(items[n], failed, dependencies);
        if reason.Some? {
          items := items[n := items[n].(disposition := Some(Blocked), reason := reason)];
        }
      }
    }
  }

  lemma WithStep(cs: seq<Change>, n: nat)
    requires n < |cs|
    ensures forall op :: GraphsWith(cs[..n + 1], op) ==
                         GraphsWith(cs[..n], op) + if cs[n].operation == op && cs[n].resource.Graph? then {cs[n].resource.graph} else {}
    ensures forall op :: SchemasWith(cs[..n + 1], op) ==
                         SchemasWith(cs[..n], op) + if cs[n].operation == op && cs[n].resource.Schema? then {cs[n].resource.graph} else {}
  {
    assert cs[..n + 1] == cs[..n] + [cs[n]];
  }

  /** The whole planning pipeline computes exactly the plan. */
  method ComputePlan(res: Resources, d: Desired) returns (list: ChangeList)
    ensures fresh(list) && list.items == PlanOf(res, d)
  {
    var changes := DiffResources(ResourceDigests(res), d.digests);
    list := new ChangeList(changes);
    list.AppendPolicyBindingChanges(res, d);
    ghost var second := list.items;
    list.AppendEmbeddingProfileChanges(res, d);
    PassesMakePlan(res, d, changes, second, list.items);
  }

  lemma PassesMakePlan(res: Resources, d: Desired, first: seq<Change>, second: seq<Change>, third: seq<Change>)
    requires forall c :: c in first <==> DiffAt(ResourceDigests(res), d.digests, c.resource) == Some(c)
    requires Extends(first, second, BindingPass(res, d)) && Extends(second, third, ProfilePass(res, d))
    ensures third == PlanOf(res, d)
  {
    forall c ensures c in third <==> PlanAt(res, d, c.resource) == Some(c) {
      MentionedIff(res, d, first, c.resource);
      SecondMentions(res, d, first, second, c.resource);
    }
    PlanFacts(res, d);
    SortedChangesUnique(third, PlanOf(res, d));
  }

  lemma MentionedIff(res: Resources, d: Desired, first: seq<Change>, a: Address)
    requires forall c :: c in first <==> DiffAt(ResourceDigests(res), d.digests, c.resource) == Some(c)
    ensures Mentions(first, a) <==> DiffAt(ResourceDigests(res), d.digests, a).Some?
  {
    var diff := DiffAt(ResourceDigests(res), d.digests, a);
    assert diff.Some? ==> diff.value.resource == a && diff.value in first;
    if Mentions(first, a) {
      var i :| 0 <= i < |first| && first[i].resource == a;
      assert first[i] in first;
    }
  }

  lemma SecondMentions(res: Resources, d: Desired, first: seq<Change>, second: seq<Change>, a: Address)
    requires Extends(first, second, BindingPass(res, d))
    ensures Mentions(second, a) <==> Mentions(first, a) || BindingAt(res, d, a).Some?
  {
    assert BindingAt(res, d, a).Some? && !Mentions(first, a) ==> BindingAt(res, d, a).value in second;
    if Mentions(first, a) {
      var i :| 0 <= i < |first| && first[i].resource == a;
      assert first[i] in second;
    } else if Mentions(second, a) {
      var i :| 0 <= i < |second| && second[i].resource == a;
      assert second[i] in second;
    }
  }

  /** `approved_resources`: for each change, the unconsumed artifacts of its address are tried against its exact digests. */
  method MatchApprovals(artifacts: Artifacts, changes: seq<Change>, config: Digest) returns (approved: set<Address>)
    ensures approved == ApprovedResources(artifacts, changes, config)
  {
    approved := {};
    for n := 0 to |changes|
      invariant approved == ApprovedResources(artifacts, changes[..n], config)
    {
      var change := changes[n];
      assert changes[..n + 1] == changes[..n] + [change];
      var matched := false;
      for k := 0 to |artifacts|
        invariant matched <==> exists i :: 0 <= i < k && Authorizes(artifacts[i].1, change, config)
      {
        var artifact := artifacts[k].1;
        if !artifact.consumed && artifact.resource == change.resource
           && artifact.config == config && artifact.before == change.before && artifact.after == change.after
        {
          matched := true;
        }
      }
      if matched { approved := approved + {change.resource}; }
    }
    assert changes[..|changes|] == changes;
  }
}
