/**
 Symbolic sha256: a digest is the term that was hashed, so equal digests have equal preimages.
 A preimage is its list of NUL-separated fields, as `graph_digest_with_external_blob_policy` lays them out.
 */
module Digests {
  import opened Addresses
  import opened Sorting

  datatype Option<+T> = None | Some(value: T)

  /** `Raw` is a digest string the program did not compute: hand-edited, or the empty intent of a delete. */
  datatype Digest = Sha256(preimage: seq<Field>) | Raw(text: string)
  datatype Field = Word(text: string) | Hex(digest: Digest)

  /** A normalized external Blob policy; an allow-list is identified with its deterministic JSON. */
  datatype BlobPolicy = Deny | Allow(json: string)

  /** An embedding provider profile, identified with its deterministic JSON. */
  datatype Profile = Profile(json: string)

  /** `sha256_hex` of a source file. */
  function ContentDigest(source: string): Digest {
    Sha256([Word(source)])
  }

  function ProfileDigest(profile: Profile): Digest {
    Sha256([Word("embedding-provider"), Word(profile.json)])
  }

  function OrEmpty(d: Option<Digest>): Digest {
    if d.Some? then d.value else Raw("")
  }

  function QueryFields(names: seq<Address>, queries: map<Address, Digest>): seq<Field>
    requires forall a :: a in names ==> a in queries && a.Query?
  {
    if names == [] then []
    else [Word("query"), Word(names[0].name), Hex(queries[names[0]])] + QueryFields(names[1..], queries)
  }

  function ProviderFields(provider: Option<Address>, digest: Option<Digest>): seq<Field> {
    if provider.None? then [] else [Word("embedding_provider"), Word(Render(provider.value)), Hex(OrEmpty(digest))]
  }

  function PolicyFields(policy: BlobPolicy): seq<Field> {
    if policy.Deny? then [] else [Word("external_blob_policy"), Word(policy.json)]
  }

  /** The queries of graph `g` in any address-keyed digest map. */
  ghost predicate QueriesOf(g: string, queries: map<Address, Digest>) {
    forall a :: a in queries ==> a.Query? && a.graph == g
  }

  /** The composite `graph.<id>` digest. `queries` is keyed by query address, so name order is address order. */
  function GraphDigest(g: string, schema: Option<Digest>, queries: map<Address, Digest>,
                       provider: Option<Address>, providerDigest: Option<Digest>, policy: BlobPolicy): Digest
    requires QueriesOf(g, queries)
  {
    Sha256([Word("graph"), Word(g), Word("schema"), Hex(OrEmpty(schema))]
           + (QueryFields(SortedKeys(queries.Keys), queries)
              + (ProviderFields(provider, providerDigest) + PolicyFields(policy))))
  }

  // ---- the composite binds every component ----

  ghost predicate NoQueryHead(fields: seq<Field>) {
    fields == [] || fields[0] != Word("query")
  }

  lemma QueryFieldsHead(ks: seq<Address>, m: map<Address, Digest>, rest: seq<Field>)
    requires forall a :: a in ks ==> a in m && a.Query?
    ensures var f := QueryFields(ks, m) + rest;
            if ks == [] then f == rest else f != [] && f[0] == Word("query")
  {
  }

  lemma {:induction false} QueryFieldsInjective(g: string, ks: seq<Address>, m: map<Address, Digest>, rest: seq<Field>,
                                                ks': seq<Address>, m': map<Address, Digest>, rest': seq<Field>)
    requires forall a :: a in ks ==> a in m && a.Query? && a.graph == g
    requires forall a :: a in ks' ==> a in m' && a.Query? && a.graph == g
    requires NoQueryHead(rest) && NoQueryHead(rest')
    requires QueryFields(ks, m) + rest == QueryFields(ks', m') + rest'
    ensures ks == ks' && rest == rest' && forall a :: a in ks ==> m[a] == m'[a]
    decreases |ks|
  {
    var f, f' := QueryFields(ks, m) + rest, QueryFields(ks', m') + rest';
    QueryFieldsHead(ks, m, rest);
    QueryFieldsHead(ks', m', rest');
    if ks != [] && ks' != [] {
      assert f[1] == Word(ks[0].name) && f[2] == Hex(m[ks[0]]);
      assert f'[1] == Word(ks'[0].name) && f'[2] == Hex(m'[ks'[0]]);
      assert f[3..] == QueryFields(ks[1..], m) + rest;
      assert f'[3..] == QueryFields(ks'[1..], m') + rest';
      QueryFieldsInjective(g, ks[1..], m, rest, ks'[1..], m', rest');
      assert ks == [ks[0]] + ks[1..] && ks' == [ks'[0]] + ks'[1..];
    }
  }

  lemma TailInjective(p: Option<Address>, d: Option<Digest>, b: BlobPolicy,
                      p': Option<Address>, d': Option<Digest>, b': BlobPolicy)
    requires ProviderFields(p, d) + PolicyFields(b) == ProviderFields(p', d') + PolicyFields(b')
    ensures p.Some? == p'.Some? && b == b'
    ensures p.Some? ==> Render(p.value) == Render(p'.value) && OrEmpty(d) == OrEmpty(d')
  {
    var f, f' := ProviderFields(p, d) + PolicyFields(b), ProviderFields(p', d') + PolicyFields(b');
    assert p.Some? ==> f[0] == Word("embedding_provider") && f[1] == Word(Render(p.value)) && f[2] == Hex(OrEmpty(d));
    assert p'.Some? ==> f'[0] == Word("embedding_provider") && f'[1] == Word(Render(p'.value)) && f'[2] == Hex(OrEmpty(d'));
    assert p.None? && f != [] ==> f[0] == Word("external_blob_policy");
    assert p'.None? && f' != [] ==> f'[0] == Word("external_blob_policy");
    assert PolicyFields(b) == if p.Some? then f[3..] else f;
    assert PolicyFields(b') == if p'.Some? then f'[3..] else f';
    assert b.Allow? ==> PolicyFields(b)[1] == Word(b.json);
    assert b'.Allow? ==> PolicyFields(b')[1] == Word(b'.json);
  }

  /** Equal composites come from equal graphs: no two component lists share a field layout. */
  lemma GraphDigestBinds(g: string, s: Option<Digest>, q: map<Address, Digest>, p: Option<Address>, d: Option<Digest>, b: BlobPolicy,
                         g': string, s': Option<Digest>, q': map<Address, Digest>, p': Option<Address>, d': Option<Digest>, b': BlobPolicy)
    requires QueriesOf(g, q) && QueriesOf(g', q')
    requires GraphDigest(g, s, q, p, d, b) == GraphDigest(g', s', q', p', d', b')
    ensures g == g' && OrEmpty(s) == OrEmpty(s') && q == q' && b == b'
    ensures p.Some? == p'.Some?
    ensures p.Some? ==> Render(p.value) == Render(p'.value) && OrEmpty(d) == OrEmpty(d')
  {
    var f, f' := GraphDigest(g, s, q, p, d, b).preimage, GraphDigest(g', s', q', p', d', b').preimage;
    assert f[1] == Word(g) && f'[1] == Word(g') && f[3] == Hex(OrEmpty(s)) && f'[3] == Hex(OrEmpty(s'));
    var ks, ks' := SortedKeys(q.Keys), SortedKeys(q'.Keys);
    var rest, rest' := ProviderFields(p, d) + PolicyFields(b), ProviderFields(p', d') + PolicyFields(b');
    assert f[4..] == QueryFields(ks, q) + rest && f'[4..] == QueryFields(ks', q') + rest';
    QueryFieldsInjective(g, ks, q, rest, ks', q', rest');
    assert forall a :: a in q.Keys <==> a in ks;
    assert forall a :: a in q'.Keys <==> a in ks';
    TailInjective(p, d, b, p', d', b');
  }
}
