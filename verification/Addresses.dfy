/** Typed resource addresses: the builders of `config.rs` and the parser `resource_kind` of `diff.rs`. */
module Addresses {
  import opened Text

  datatype Address =
    | Graph(graph: string)
    | Schema(graph: string)
    | Query(graph: string, name: string)
    | Policy(name: string)
    | EmbeddingProvider(name: string)
    | Unknown(text: string)

  /** The stored spelling of an address. */
  function Render(a: Address): string {
    match a
    case Graph(g) => "graph." + g
    case Schema(g) => "schema." + g
    case Query(g, n) => "query." + g + "." + n
    case Policy(n) => "policy." + n
    case EmbeddingProvider(n) => "provider.embedding." + n
    case Unknown(t) => t
  }

  /** `resource_kind`; the unknown kind keeps its text so that no address is confused with another. */
  function ResourceKind(text: string): Address {
    if StartsWith(text, "graph.") then Graph(text[6..])
    else if StartsWith(text, "schema.") then Schema(text[7..])
    else if StartsWith(text, "query.") then
      var rest := text[6..];
      var i := IndexOf(rest, '.');
      if i < |rest| then Query(rest[..i], rest[i + 1..]) else Unknown(text)
    else if StartsWith(text, "policy.") then Policy(text[7..])
    else if StartsWith(text, "provider.embedding.") then EmbeddingProvider(text[19..])
    else Unknown(text)
  }

  /** The addresses that some stored text denotes. */
  predicate Canonical(a: Address) {
    match a
    case Query(g, _) => '.' !in g
    case Unknown(t) => ResourceKind(t).Unknown?
    case _ => true
  }

  /** `validate_id`: a letter or `_`, then letters, digits, `_` and `-`. */
  predicate ValidId(id: string) {
    && id != []
    && (IsAsciiLetter(id[0]) || id[0] == '_')
    && forall i :: 0 < i < |id| ==> IsAsciiLetter(id[i]) || '0' <= id[i] <= '9' || id[i] == '_' || id[i] == '-'
  }

  predicate IsAsciiLetter(c: char) {
    'a' <= c <= 'z' || 'A' <= c <= 'Z'
  }

  lemma PrefixStripped(prefix: string, rest: string)
    ensures StartsWith(prefix + rest, prefix) && (prefix + rest)[|prefix|..] == rest
  {
  }

  /** Parsing loses nothing: every text is the spelling of the address it parses to. */
  lemma RenderOfKind(text: string)
    ensures Render(ResourceKind(text)) == text && Canonical(ResourceKind(text))
  {
    PrefixKept(text, "graph.");
    PrefixKept(text, "schema.");
    PrefixKept(text, "policy.");
    PrefixKept(text, "provider.embedding.");
    if StartsWith(text, "query.") { QueryKept(text); }
  }

  lemma PrefixKept(text: string, prefix: string)
    ensures StartsWith(text, prefix) ==> prefix + text[|prefix|..] == text
  {
  }

  lemma QueryKept(text: string)
    requires StartsWith(text, "query.")
    ensures var rest := text[6..];
            var i := IndexOf(rest, '.');
            i < |rest| ==> "query." + rest[..i] + "." + rest[i + 1..] == text && '.' !in rest[..i]
  {
    var rest := text[6..];
    var i := IndexOf(rest, '.');
    PrefixKept(text, "query.");
    if i < |rest| { assert rest == rest[..i] + "." + rest[i + 1..]; }
  }

  /** Parsing inverts rendering exactly on canonical addresses, so ids without dots never collide. */
  lemma KindOfRender(a: Address)
    ensures ResourceKind(Render(a)) == a <==> Canonical(a)
  {
    match a
    case Graph(g) => PrefixStripped("graph.", g);
    case Schema(g) => PrefixStripped("schema.", g); assert Render(a)[0] == 's';
    case Policy(n) => PrefixStripped("policy.", n); assert Render(a)[0] == 'p';
    case EmbeddingProvider(n) =>
      PrefixStripped("provider.embedding.", n);
      assert Render(a)[0] == 'p' && Render(a)[1] == 'r';
    case Unknown(_) =>
    case Query(g, n) => KindOfQuery(g, n);
  }

  lemma KindOfQuery(g: string, n: string)
    ensures ResourceKind(Render(Query(g, n))) == Query(g, n) <==> '.' !in g
  {
    var rest := g + "." + n;
    var text := Render(Query(g, n));
    assert text == "query." + rest && text[0] == 'q';
    PrefixStripped("query.", rest);
    if '.' !in g {
      assert rest[..|g|] == g && rest[|g|] == '.';
      FirstIndex(rest, '.', |g|);
      assert rest[|g| + 1..] == n;
    }
  }

  /** The textual prefix test of `tombstone_graph_subtree` selects exactly the graph's queries. */
  lemma QueryPrefixSelectsGraph(g: string, text: string)
    requires '.' !in g
    ensures StartsWith(text, "query." + g + ".") <==> ResourceKind(text).Query? && ResourceKind(text).graph == g
  {
    if StartsWith(text, "query." + g + ".") {
      assert text[..6] == "query." && text[0] == 'q';
      var rest := text[6..];
      assert rest[..|g|] == g && rest[|g|] == '.';
      FirstIndex(rest, '.', |g|);
    } else {
      RenderOfKind(text);
      forall n ensures text != ("query." + g + ".") + n { PrefixStripped("query." + g + ".", n); }
      assert forall n :: Render(Query(g, n)) == ("query." + g + ".") + n;
    }
  }

  lemma ValidIdHasNoDot(id: string)
    requires ValidId(id)
    ensures '.' !in id
  {
  }

  // ---- the order of the ledger's BTreeMap ----

  function Rank(a: Address): nat {
    match a
    case Query(g, _) => 1 + |g|
    case _ => 0
  }

  function IsUnknown(a: Address): nat {
    if a.Unknown? then 1 else 0
  }

  /** Textual order; the tie-break only ever separates addresses that are not both canonical. */
  predicate Before(a: Address, b: Address) {
    || Less(Render(a), Render(b))
    || (Render(a) == Render(b) && IsUnknown(a) < IsUnknown(b))
    || (Render(a) == Render(b) && IsUnknown(a) == IsUnknown(b) && Rank(a) < Rank(b))
  }

  lemma BeforeIrreflexive(a: Address)
    ensures !Before(a, a)
  {
    LessIrreflexive(Render(a));
  }

  lemma BeforeTransitive(a: Address, b: Address, c: Address)
    requires Before(a, b) && Before(b, c)
    ensures Before(a, c)
  {
    if Less(Render(a), Render(b)) && Less(Render(b), Render(c)) {
      LessTransitive(Render(a), Render(b), Render(c));
    }
  }

  lemma BeforeTotal(a: Address, b: Address)
    ensures a == b || Before(a, b) || Before(b, a)
  {
    LessTotal(Render(a), Render(b));
    if Render(a) == Render(b) && IsUnknown(a) == IsUnknown(b) && Rank(a) == Rank(b) { SameSpelling(a, b); }
  }

  lemma SameSpelling(a: Address, b: Address)
    requires Render(a) == Render(b) && IsUnknown(a) == IsUnknown(b) && Rank(a) == Rank(b)
    ensures a == b
  {
    var t := Render(a);
    match a
    case Graph(g) => assert t[6..] == g; assert t[0] == 'g'; assert b.Graph?; assert Render(b)[6..] == b.graph;
    case Schema(g) => assert t[7..] == g; assert t[0] == 's'; assert b.Schema?; assert Render(b)[7..] == b.graph;
    case Policy(n) => assert t[7..] == n; assert t[1] == 'o'; assert b.Policy?; assert Render(b)[7..] == b.name;
    case EmbeddingProvider(n) =>
      assert t[19..] == n; assert t[1] == 'r' && t[0] == 'p'; assert b.EmbeddingProvider?; assert Render(b)[19..] == b.name;
    case Unknown(_) =>
    case Query(g, n) =>
      assert b.Query?;
      assert t[6..6 + |g|] == g && t[7 + |g|..] == n;
      assert Render(b)[6..6 + |b.graph|] == b.graph && Render(b)[7 + |b.graph|..] == b.name;
  }
}
