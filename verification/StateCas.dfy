/**
 `read_state` and `write_state` under arbitrary interleaving: no lock is assumed, so unlocked readers, unlocked writers
 and commands whose lock was forced away all take these steps. Contents stand for themselves (sha256 is injective).
 */
module StateCas {
  import opened Digests
  import opened Ledgers

  type Pid = nat
  type Token = string

  type Revision = n: nat | n <= U64_MAX

  /** One version of state.json. */
  datatype Doc = Doc(revision: Revision, body: string)

  /** A command between its read and its write. `at` is how many versions existed when it read. */
  datatype Proc =
    | Idle
    | HasRead(expected: Option<Doc>, at: nat)
    | Checked(expected: Option<Doc>, at: nat, next: Doc, token: Option<Token>)

  /** Every version ever written, oldest first, each with the version token the backend gave it. */
  datatype Store = Store(docs: seq<Doc>, tokens: seq<Token>, procs: map<Pid, Proc>)

  function ProcOf(s: Store, p: Pid): Proc {
    if p in s.procs then s.procs[p] else Idle
  }

  function Current(s: Store): Option<Doc> {
    if s.docs == [] then None else Some(s.docs[|s.docs| - 1])
  }

  function CurrentToken(s: Store): Option<Token> {
    if s.tokens == [] then None else Some(s.tokens[|s.tokens| - 1])
  }

  /** Equal tokens never stand for different contents: true of a content token and of an ETag. */
  ghost predicate TokensSound(docs: seq<Doc>, tokens: seq<Token>) {
    && |tokens| == |docs|
    && (forall i, j :: 0 <= i < |docs| && 0 <= j < |docs| && tokens[i] == tokens[j] ==> docs[i] == docs[j])
  }

  // ---- steps ----

  /** `read_state`. */
  ghost predicate Read(s: Store, s': Store, p: Pid) {
    ProcOf(s, p).Idle? && s' == s.(procs := s.procs[p := HasRead(Current(s), |s.docs|)])
  }

  /** An import starts at revision 1; every other command writes the successor of the revision it read. */
  predicate NextDoc(expected: Option<Doc>, next: Doc) {
    next.revision == if expected.None? then 1 else NextRevision(expected.value.revision)
  }

  /** The fresh read inside `write_state`: content CAS against what the command read. */
  ghost predicate Check(s: Store, s': Store, p: Pid) {
    var proc := ProcOf(s, p);
    proc.HasRead? &&
    if Current(s) != proc.expected then s' == s.(procs := s.procs[p := Idle])
    else exists next :: NextDoc(proc.expected, next) &&
           s' == s.(procs := s.procs[p := Checked(proc.expected, proc.at, next, CurrentToken(s))])
  }

  /** The conditional put lands exactly if the object is still absent, or still carries the token just read. */
  predicate PutLands(s: Store, p: Pid) {
    ProcOf(s, p).Checked? && CurrentToken(s) == ProcOf(s, p).token
  }

  ghost predicate Put(s: Store, s': Store, p: Pid) {
    ProcOf(s, p).Checked? &&
    if !PutLands(s, p) then s' == s.(procs := s.procs[p := Idle])
    else exists t :: TokensSound(s.docs + [ProcOf(s, p).next], s.tokens + [t]) &&
           s' == Store(s.docs + [ProcOf(s, p).next], s.tokens + [t], s.procs[p := Idle])
  }

  ghost predicate Crash(s: Store, s': Store, p: Pid) {
    s' == s.(procs := s.procs[p := Idle])
  }

  ghost predicate Next(s: Store, s': Store) {
    exists p :: Read(s, s', p) || Check(s, s', p) || Put(s, s', p) || Crash(s, s', p)
  }

  /** Any stored history whose revisions count up, and no command under way. */
  ghost predicate Init(s: Store) {
    TokensSound(s.docs, s.tokens) && CountsUp(s.docs) && forall p :: p in s.procs ==> s.procs[p].Idle?
  }

  ghost predicate Behavior(run: seq<Store>) {
    run != [] && Init(run[0]) && forall i :: 0 <= i < |run| - 1 ==> Next(run[i], run[i + 1])
  }

  // ---- the same steps on the stored object ----

  /** One method per access to storage; `write_state` is `CheckState` and then `PutState`, with anything in between. */
  class StateObject {
    var docs: seq<Doc>
    var tokens: seq<Token>
    var procs: map<Pid, Proc>

    function Value(): Store
      reads this
    {
      Store(docs, tokens, procs)
    }

    constructor ()
      ensures Init(Value())
    {
      docs, tokens, procs := [], [], map[];
    }

    /** `read_state`. */
    method ReadState(p: Pid) returns (seen: Option<Doc>)
      requires ProcOf(Value(), p).Idle?
      modifies this`procs
      ensures Read(old(Value()), Value(), p) && seen == Current(Value())
    {
      seen := Current(Value());
      procs := procs[p := HasRead(seen, |docs|)];
    }

    /** The fresh read of `write_state` and its content comparison; false is a CAS mismatch. */
    method CheckState(p: Pid, next: Doc) returns (ok: bool)
      requires ProcOf(Value(), p).HasRead? && NextDoc(ProcOf(Value(), p).expected, next)
      modifies this`procs
      ensures Check(old(Value()), Value(), p) && ok == (Current(Value()) == old(ProcOf(Value(), p)).expected)
    {
      var proc := ProcOf(Value(), p);
      ok := Current(Value()) == proc.expected;
      procs := procs[p := if ok then Checked(proc.expected, proc.at, next, CurrentToken(Value())) else Idle];
    }

    /** The conditional put of `write_state`; `token` is what the backend will call the new version. */
    method PutState(p: Pid, token: Token) returns (written: bool)
      requires ProcOf(Value(), p).Checked? && TokensSound(docs + [ProcOf(Value(), p).next], tokens + [token])
      modifies this
      ensures Put(old(Value()), Value(), p) && written == old(PutLands(Value(), p))
    {
      var proc := ProcOf(Value(), p);
      written := CurrentToken(Value()) == proc.token;
      if written { docs, tokens := docs + [proc.next], tokens + [token]; }
      procs := procs[p := Idle];
    }
  }

  // ---- the invariant ----

  /** Each version's revision is the saturating successor of the one before. */
  ghost predicate CountsUp(docs: seq<Doc>) {
    forall i :: 0 <= i < |docs| - 1 ==> docs[i + 1].revision == NextRevision(docs[i].revision)
  }

  /** What a command remembers is what stood at the position it remembers. */
  ghost predicate Remembers(s: Store, expected: Option<Doc>, at: nat) {
    at <= |s.docs| && expected == if at == 0 then None else Some(s.docs[at - 1])
  }

  /** Some version carried this token and this content. */
  ghost predicate Tokened(s: Store, token: Token, doc: Doc) {
    exists i :: 0 <= i < |s.docs| && i < |s.tokens| && s.tokens[i] == token && s.docs[i] == doc
  }

  ghost predicate ProcOk(s: Store, p: Pid) {
    match ProcOf(s, p)
    case Idle => true
    case HasRead(expected, at) => Remembers(s, expected, at)
    case Checked(expected, at, next, token) =>
      && Remembers(s, expected, at) && NextDoc(expected, next)
      && (token.None? <==> expected.None?)
      && (token.Some? && expected.Some? ==> Tokened(s, token.value, expected.value))
  }

  ghost predicate Inv(s: Store) {
    TokensSound(s.docs, s.tokens) && CountsUp(s.docs) && forall p :: ProcOk(s, p)
  }

  /** A put that lands replaces exactly the content its command read. */
  lemma LandedPutReplacesWhatWasRead(s: Store, p: Pid)
    requires Inv(s) && PutLands(s, p)
    ensures Current(s) == ProcOf(s, p).expected
  {
    assert ProcOk(s, p);
  }

  lemma TokenedStays(s: Store, s': Store, token: Token, doc: Doc)
    requires Tokened(s, token, doc) && s.docs <= s'.docs && s.tokens <= s'.tokens
    ensures Tokened(s', token, doc)
  {
    var i :| 0 <= i < |s.docs| && i < |s.tokens| && s.tokens[i] == token && s.docs[i] == doc;
    assert s'.tokens[i] == token && s'.docs[i] == doc;
  }

  lemma OtherProcsOk(s: Store, s': Store, p: Pid)
    requires Inv(s) && s.docs <= s'.docs && s.tokens <= s'.tokens && ProcOk(s', p)
    requires forall q :: q != p ==> ProcOf(s', q) == ProcOf(s, q)
    ensures forall q :: ProcOk(s', q)
  {
    forall q ensures ProcOk(s', q) {
      assert ProcOk(s, q);
      var proc := ProcOf(s, q);
      if q != p && proc.Checked? && proc.token.Some? && proc.expected.Some? { TokenedStays(s, s', proc.token.value, proc.expected.value); }
    }
  }

  lemma PutKeepsInv(s: Store, s': Store, p: Pid)
    requires Inv(s) && Put(s, s', p)
    ensures Inv(s') && s.docs <= s'.docs
  {
    assert ProcOk(s, p);
    if PutLands(s, p) { LandedPutReplacesWhatWasRead(s, p); }
    OtherProcsOk(s, s', p);
  }

  lemma CheckKeepsInv(s: Store, s': Store, p: Pid)
    requires Inv(s) && Check(s, s', p)
    ensures Inv(s') && s.docs <= s'.docs
  {
    assert ProcOk(s, p);
    if Current(s) == ProcOf(s, p).expected && s.docs != [] { assert Tokened(s', s.tokens[|s.docs| - 1], s.docs[|s.docs| - 1]); }
    OtherProcsOk(s, s', p);
  }

  lemma NextKeepsInv(s: Store, s': Store)
    requires Inv(s) && Next(s, s')
    ensures Inv(s') && s.docs <= s'.docs
  {
    var p :| Read(s, s', p) || Check(s, s', p) || Put(s, s', p) || Crash(s, s', p);
    if Put(s, s', p) { PutKeepsInv(s, s', p); }
    else if Check(s, s', p) { CheckKeepsInv(s, s', p); }
    else { OtherProcsOk(s, s', p); }
  }

  lemma {:induction false} BehaviorKeepsInv(run: seq<Store>, i: nat)
    requires Behavior(run) && i < |run|
    ensures Inv(run[i])
    decreases i
  {
    if i > 0 {
      BehaviorKeepsInv(run, i - 1);
      NextKeepsInv(run[i - 1], run[i]);
    }
  }

  // ---- no recurrence below saturation ----

  lemma {:induction false} RevisionsGrow(docs: seq<Doc>, i: nat, j: nat)
    requires CountsUp(docs) && i < j < |docs| && docs[i].revision < U64_MAX
    ensures docs[i].revision < docs[j].revision
    decreases j
  {
    if i < j - 1 { RevisionsGrow(docs, i, j - 1); }
    assert docs[j - 1 + 1].revision == NextRevision(docs[j - 1].revision);
  }

  /**
   Ledger writes never lose an update. In every interleaving, a put that lands replaces exactly the content its command
   read, and below the saturated revision nothing was written in between: content CAS is as strong as version CAS.
   */
  lemma WritesNeverLoseUpdates(run: seq<Store>, i: nat, p: Pid)
    requires Behavior(run) && i < |run| && PutLands(run[i], p)
    ensures Current(run[i]) == ProcOf(run[i], p).expected
    ensures (Current(run[i]).Some? && Current(run[i]).value.revision == U64_MAX) || ProcOf(run[i], p).at == |run[i].docs|
  {
    BehaviorKeepsInv(run, i);
    var s := run[i];
    LandedPutReplacesWhatWasRead(s, p);
    assert ProcOk(s, p);
    var at := ProcOf(s, p).at;
    if 0 < at < |s.docs| && s.docs[at - 1].revision < U64_MAX { RevisionsGrow(s.docs, at - 1, |s.docs| - 1); }
  }

  // ---- at saturation ----

  /** A second content at the same revision. */
  function Other(a: Doc): (b: Doc)
    ensures b != a
  {
    var body := a.body + "x";
    assert |body| == |a.body| + 1;
    Doc(a.revision, body)
  }

  /** Command 0 reads `a`; command 1 replaces it by `b` and then puts the same content back. */
  function SaturatedRun(a: Doc, b: Doc, k: nat): Store {
    match k
    case 0 => Store([a], ["a"], map[])
    case 1 => Store([a], ["a"], map[0 := HasRead(Some(a), 1)])
    case 2 => Store([a], ["a"], map[0 := HasRead(Some(a), 1), 1 := HasRead(Some(a), 1)])
    case 3 => Store([a], ["a"], map[0 := HasRead(Some(a), 1), 1 := Checked(Some(a), 1, b, Some("a"))])
    case 4 => Store([a, b], ["a", "b"], map[0 := HasRead(Some(a), 1), 1 := Idle])
    case 5 => Store([a, b], ["a", "b"], map[0 := HasRead(Some(a), 1), 1 := HasRead(Some(b), 2)])
    case 6 => Store([a, b], ["a", "b"], map[0 := HasRead(Some(a), 1), 1 := Checked(Some(b), 2, a, Some("b"))])
    case 7 => Store([a, b, a], ["a", "b", "a"], map[0 := HasRead(Some(a), 1), 1 := Idle])
    case _ => Store([a, b, a], ["a", "b", "a"], map[0 := Checked(Some(a), 1, b, Some("a")), 1 := Idle])
  }

  predicate Saturated(a: Doc, b: Doc) {
    a.revision == U64_MAX && b.revision == U64_MAX && a != b
  }

  lemma SaturatedReads(a: Doc, b: Doc)
    ensures Next(SaturatedRun(a, b, 0), SaturatedRun(a, b, 1)) && Next(SaturatedRun(a, b, 1), SaturatedRun(a, b, 2))
    ensures Next(SaturatedRun(a, b, 4), SaturatedRun(a, b, 5))
  {
    assert Read(SaturatedRun(a, b, 0), SaturatedRun(a, b, 1), 0);
    assert Read(SaturatedRun(a, b, 1), SaturatedRun(a, b, 2), 1);
    assert Read(SaturatedRun(a, b, 4), SaturatedRun(a, b, 5), 1);
  }

  lemma SaturatedChecks(a: Doc, b: Doc)
    requires Saturated(a, b)
    ensures Next(SaturatedRun(a, b, 2), SaturatedRun(a, b, 3)) && Next(SaturatedRun(a, b, 5), SaturatedRun(a, b, 6))
    ensures Next(SaturatedRun(a, b, 7), SaturatedRun(a, b, 8))
  {
    assert NextDoc(Some(a), b) && NextDoc(Some(b), a);
    assert Check(SaturatedRun(a, b, 2), SaturatedRun(a, b, 3), 1);
    assert Check(SaturatedRun(a, b, 5), SaturatedRun(a, b, 6), 1);
    assert Check(SaturatedRun(a, b, 7), SaturatedRun(a, b, 8), 0);
  }

  lemma SaturatedFirstPut(a: Doc, b: Doc)
    requires Saturated(a, b)
    ensures Next(SaturatedRun(a, b, 3), SaturatedRun(a, b, 4))
  {
    assert [a] + [b] == [a, b] && ["a"] + ["b"] == ["a", "b"];
    assert TokensSound([a] + [b], ["a"] + ["b"]);
    assert Put(SaturatedRun(a, b, 3), SaturatedRun(a, b, 4), 1);
  }

  lemma SaturatedSecondPut(a: Doc, b: Doc)
    requires Saturated(a, b)
    ensures Next(SaturatedRun(a, b, 6), SaturatedRun(a, b, 7))
  {
    assert [a, b] + [a] == [a, b, a] && ["a", "b"] + ["a"] == ["a", "b", "a"];
    assert TokensSound([a, b] + [a], ["a", "b"] + ["a"]);
    assert Put(SaturatedRun(a, b, 6), SaturatedRun(a, b, 7), 1);
  }

  lemma SaturatedStep(a: Doc, b: Doc, k: nat)
    requires Saturated(a, b) && k < 8
    ensures Next(SaturatedRun(a, b, k), SaturatedRun(a, b, k + 1))
  {
    if k in {0, 1, 4} { SaturatedReads(a, b); }
    else if k in {2, 5, 7} { SaturatedChecks(a, b); }
    else if k == 3 { SaturatedFirstPut(a, b); }
    else { SaturatedSecondPut(a, b); }
  }

  lemma SaturatedIsBehavior(a: Doc, b: Doc, run: seq<Store>)
    requires Saturated(a, b) && |run| == 9 && forall i :: 0 <= i < 9 ==> run[i] == SaturatedRun(a, b, i)
    ensures Behavior(run)
  {
    assert Init(SaturatedRun(a, b, 0));
    forall i | 0 <= i < |run| - 1 ensures Next(run[i], run[i + 1]) { SaturatedStep(a, b, i); }
  }

  /** At step `i` the put of command `p` lands over content `a` although versions were written since the command read it. */
  ghost predicate LosesUpdateOf(a: Doc, run: seq<Store>, i: nat, p: Pid) {
    && Behavior(run) && i < |run| && PutLands(run[i], p)
    && ProcOf(run[i], p).expected == Some(a) && ProcOf(run[i], p).at < |run[i].docs|
  }

  /** At the saturated revision every content can come back and let an update be lost. */
  lemma SaturatedRevisionLosesUpdates(a: Doc) returns (run: seq<Store>)
    requires a.revision == U64_MAX
    ensures LosesUpdateOf(a, run, 8, 0)
  {
    run := seq(9, i requires 0 <= i < 9 => SaturatedRun(a, Other(a), i));
    SaturatedIsBehavior(a, Other(a), run);
    assert run[8] == SaturatedRun(a, Other(a), 8);
  }

  /** Updates written over a content can be lost exactly when its revision is saturated. */
  lemma UpdatesAreLostIffSaturated(a: Doc)
    ensures (exists run, i, p :: LosesUpdateOf(a, run, i, p)) <==> a.revision == U64_MAX
  {
    if a.revision == U64_MAX {
      var run := SaturatedRevisionLosesUpdates(a);
      assert LosesUpdateOf(a, run, 8, 0);
    }
    forall run, i, p | LosesUpdateOf(a, run, i, p) ensures a.revision == U64_MAX { WritesNeverLoseUpdates(run, i, p); }
  }
}
