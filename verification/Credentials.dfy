/**
 The operator's credentials file: `[server]` sections holding `token = ...` lines. Logging in rewrites one section, logging
 out drops it, and the reader looks up one server. A missing file reads, and is rewritten, as the empty text.
 */
module Credentials {
  import opened Digests
  import opened Text

  // ---- lines ----

  function WithoutCr(line: string): (r: string)
    ensures r == line || line == r + "\r"
  {
    if line != [] && line[|line| - 1] == '\r' then line[..|line| - 1] else line
  }

  /** `str::lines`: pieces end at `\n` or `\r\n`; a bare trailing `\r` stays, and a final newline opens no further line. */
  function Lines(text: string): seq<string>
    decreases |text|
  {
    if text == [] then []
    else
      var i := IndexOf(text, '\n');
      if i == |text| then [text]
      else [WithoutCr(text[..i])] + Lines(text[i + 1..])
  }

  /** What a line means to both passes, which look at it trimmed; comments, blanks and other keys are ignored. */
  datatype Shape = Ignored | Header(name: string) | Token(value: string)

  datatype Line = Line(text: string, shape: Shape)

  predicate IsHeader(line: string) {
    |line| >= 2 && line[0] == '[' && line[|line| - 1] == ']'
  }

  predicate Quoted(value: string) {
    |value| >= 2 && value[0] == value[|value| - 1] && value[0] in {'"', '\''}
  }

  function Unquote(value: string): string {
    if Quoted(value) then value[1..|value| - 1] else value
  }

  /** The key and the value around the first `=`, both trimmed. */
  function SplitOnce(l: string): Option<(string, string)> {
    var eq := IndexOf(l, '=');
    if eq < |l| then Some((Trim(l[..eq]), Trim(l[eq + 1..]))) else None
  }

  function ShapeOfTrimmed(l: string): Shape {
    if l == [] || l[0] == '#' then Ignored
    else if IsHeader(l) then Header(Trim(l[1..|l| - 1]))
    else match SplitOnce(l)
      case Some((key, value)) => if key == "token" then Token(Unquote(value)) else Ignored
      case None => Ignored
  }

  function LineOf(text: string): Line {
    Line(text, ShapeOfTrimmed(Trim(text)))
  }

  function Parsed(lines: seq<string>): (r: seq<Line>)
    ensures |r| == |lines|
  {
    if lines == [] then [] else [LineOf(lines[0])] + Parsed(lines[1..])
  }

  function Parse(text: string): seq<Line> {
    Parsed(Lines(text))
  }

  // ---- reading ----

  /** The raw value of the first token entry met under a header naming `server`. */
  function Found(lines: seq<Line>, server: string, inSection: bool): Option<string> {
    if lines == [] then None
    else match lines[0].shape
      case Header(name) => Found(lines[1..], server, name == server)
      case Token(value) => if inSection then Some(value) else Found(lines[1..], server, inSection)
      case Ignored => Found(lines[1..], server, inSection)
  }

  /** An empty token counts as none. */
  function NonEmpty(value: Option<string>): Option<string> {
    if value == Some("") then None else value
  }

  function Entry(text: string, server: string): Option<string> {
    Found(Parse(text), server, false)
  }

  function Read(text: string, server: string): Option<string> {
    NonEmpty(Entry(text, server))
  }

  /** The section line `i` belongs to: the nearest header above it. */
  function SectionAt(lines: seq<Line>, i: nat): Option<string>
    requires i <= |lines|
  {
    if i == 0 then None
    else if lines[i - 1].shape.Header? then Some(lines[i - 1].shape.name)
    else SectionAt(lines, i - 1)
  }

  predicate Hit(lines: seq<Line>, server: string, i: nat) {
    i < |lines| && lines[i].shape.Token? && SectionAt(lines, i) == Some(server)
  }

  lemma {:induction false} FoundFrom(lines: seq<Line>, server: string, n: nat)
    requires n <= |lines| && forall j: nat :: j < n ==> !Hit(lines, server, j)
    ensures Found(lines, server, false) == Found(lines[n..], server, SectionAt(lines, n) == Some(server))
  {
    if n == 0 {
      assert lines[0..] == lines;
    } else {
      FoundFrom(lines, server, n - 1);
      assert lines[n - 1..][0] == lines[n - 1] && lines[n - 1..][1..] == lines[n..];
      assert !Hit(lines, server, n - 1);
    }
  }

  /** The reader answers with the first token line whose nearest header names the server, and with none if there is none. */
  lemma ReadIsFirstHit(text: string, server: string, n: nat)
    requires n <= |Parse(text)| && forall j: nat :: j < n ==> !Hit(Parse(text), server, j)
    ensures n == |Parse(text)| ==> Read(text, server) == None
    ensures Hit(Parse(text), server, n) ==> Read(text, server) == NonEmpty(Some(Parse(text)[n].shape.value))
  {
    FoundFrom(Parse(text), server, n);
  }

  lemma {:induction false} ParsedAt(lines: seq<string>, n: nat)
    requires n < |lines|
    ensures Parsed(lines)[n] == LineOf(lines[n])
    ensures Parsed(lines[n..]) == Parsed(lines)[n..]
    ensures Parsed(lines[n..]) == [LineOf(lines[n])] + Parsed(lines[n + 1..])
  {
    assert lines[n..][0] == lines[n] && lines[n..][1..] == lines[n + 1..];
    if n > 0 {
      ParsedAt(lines[1..], n - 1);
      assert lines[1..][n - 1..] == lines[n..] && Parsed(lines)[1..] == Parsed(lines[1..]);
      assert Parsed(lines)[n..] == Parsed(lines)[1..][n - 1..];
    } else {
      assert lines[0..] == lines;
    }
  }

  /** One turn of the reading loop. */
  lemma ReadTurn(lines: seq<string>, n: nat, server: string, inSection: bool)
    requires n < |lines|
    ensures Found(Parsed(lines[n..]), server, inSection) ==
            match ShapeOfTrimmed(Trim(lines[n]))
            case Header(name) => Found(Parsed(lines[n + 1..]), server, name == server)
            case Token(value) => if inSection then Some(value) else Found(Parsed(lines[n + 1..]), server, inSection)
            case Ignored => Found(Parsed(lines[n + 1..]), server, inSection)
  {
    ParsedAt(lines, n);
    FoundCons(LineOf(lines[n]), Parsed(lines[n + 1..]), server, inSection);
  }

  lemma FoundCons(line: Line, more: seq<Line>, server: string, inSection: bool)
    ensures Found([line] + more, server, inSection) ==
            match line.shape
            case Header(name) => Found(more, server, name == server)
            case Token(value) => if inSection then Some(value) else Found(more, server, inSection)
            case Ignored => Found(more, server, inSection)
  {
    assert ([line] + more)[0] == line && ([line] + more)[1..] == more;
  }

  /** `read_credential_at` once the file is open. */
  method ReadCredential(text: string, server: string) returns (token: Option<string>)
    ensures token == Read(text, server)
  {
    var lines := Lines(text);
    var inSection := false;
    assert lines[0..] == lines;
    for n := 0 to |lines|
      invariant Found(Parsed(lines[n..]), server, inSection) == Entry(text, server)
    {
      ReadTurn(lines, n, server, inSection);
      var line := Trim(lines[n]);
      if line == [] || line[0] == '#' { continue; }
      if IsHeader(line) {
        inSection := Trim(line[1..|line| - 1]) == server;
        continue;
      }
      if inSection {
        match SplitOnce(line)
        case Some((key, value)) =>
          if key == "token" {
            return if Unquote(value) == "" then None else Some(Unquote(value));
          }
        case None =>
      }
    }
    return None;
  }

  // ---- rewriting ----

  /** The section a rewrite drops is entered and left by headers alone. */
  function InTarget(line: Line, server: string, inTarget: bool): bool {
    if line.shape.Header? then line.shape.name == server else inTarget
  }

  /** The lines a rewrite keeps: all but the sections named `server`. */
  function Kept(lines: seq<Line>, server: string, inTarget: bool): seq<Line> {
    if lines == [] then []
    else
      var now := InTarget(lines[0], server, inTarget);
      (if now then [] else [lines[0]]) + Kept(lines[1..], server, now)
  }

  function Joined(lines: seq<Line>): string {
    if lines == [] then [] else lines[0].text + "\n" + Joined(lines[1..])
  }

  function Block(server: string, token: string): string {
    "[" + server + "]\n" + "token = " + token + "\n"
  }

  predicate EndsWith(text: string, suffix: string) {
    |suffix| <= |text| && text[|text| - |suffix|..] == suffix
  }

  function Separator(out: string): string {
    if out != [] && !EndsWith(out, "\n\n") then "\n" else []
  }

  function Removed(text: string, server: string): string {
    Joined(Kept(Parse(text), server, false))
  }

  function Written(text: string, server: string, token: string): string {
    var out := Removed(text, server);
    out + Separator(out) + Block(server, token)
  }

  /** What a rewrite still has to copy when `lines` are left. */
  function Rest(lines: seq<string>, server: string, inTarget: bool): string {
    Joined(Kept(Parsed(lines), server, inTarget))
  }

  /** One turn of the rewrite loop. */
  lemma RestStep(lines: seq<string>, n: nat, server: string, inTarget: bool)
    requires n < |lines|
    ensures var now := InTarget(LineOf(lines[n]), server, inTarget);
            Rest(lines[n..], server, inTarget) == (if now then [] else lines[n] + "\n") + Rest(lines[n + 1..], server, now)
  {
    ParsedAt(lines, n);
    var line, more := LineOf(lines[n]), Parsed(lines[n + 1..]);
    KeptCons(line, more, server, inTarget);
  }

  lemma KeptCons(line: Line, more: seq<Line>, server: string, inTarget: bool)
    ensures var now := InTarget(line, server, inTarget);
            Joined(Kept([line] + more, server, inTarget)) == (if now then [] else line.text + "\n") + Joined(Kept(more, server, now))
  {
    assert ([line] + more)[0] == line && ([line] + more)[1..] == more;
    var kept := Kept(more, server, InTarget(line, server, inTarget));
    assert [] + kept == kept && ([line] + kept)[1..] == kept;
  }

  /** The rewriter's own test for a header agrees with the reader's. */
  lemma HeaderSeen(text: string, server: string, inTarget: bool)
    ensures var l := Trim(text);
            InTarget(LineOf(text), server, inTarget) == if IsHeader(l) then Trim(l[1..|l| - 1]) == server else inTarget
  {
  }

  /** What the loop has written and what it still has to copy make up the same text after each turn. */
  lemma CopyTurn(out: string, lines: seq<string>, n: nat, server: string, inTarget: bool)
    requires n < |lines|
    ensures var l := Trim(lines[n]);
            var now := if IsHeader(l) then Trim(l[1..|l| - 1]) == server else inTarget;
            out + Rest(lines[n..], server, inTarget) == (if now then out else out + lines[n] + "\n") + Rest(lines[n + 1..], server, now)
  {
    RestStep(lines, n, server, inTarget);
    HeaderSeen(lines[n], server, inTarget);
    Reassociate(out, lines[n] + "\n", Rest(lines[n + 1..], server, InTarget(LineOf(lines[n]), server, inTarget)));
  }

  lemma Reassociate(a: string, b: string, c: string)
    ensures a + (b + c) == (a + b) + c
  {
  }

  /** `rewrite_credentials_at` between reading the old file and putting the new one in place. */
  method RewriteCredentials(existing: string, server: string, token: Option<string>) returns (out: string)
    ensures out == if token.Some? then Written(existing, server, token.value) else Removed(existing, server)
  {
    var lines := Lines(existing);
    out := [];
    var inTarget := false;
    assert lines[0..] == lines;
    for n := 0 to |lines|
      invariant out + Rest(lines[n..], server, inTarget) == Removed(existing, server)
    {
      var trimmed := Trim(lines[n]);
      CopyTurn(out, lines, n, server, inTarget);
      if IsHeader(trimmed) {
        inTarget := Trim(trimmed[1..|trimmed| - 1]) == server;
        if inTarget { continue; }
      }
      if !inTarget {
        out := out + lines[n] + "\n";
      }
    }
    assert out == Removed(existing, server);
    if token.Some? {
      if out != [] && !EndsWith(out, "\n\n") { out := out + "\n"; }
      out := out + ("[" + server + "]\n" + "token = " + token.value + "\n");
    }
  }

  // ---- what a rewrite means to the reader ----

  lemma CrKeepsShape(line: string)
    ensures LineOf(WithoutCr(line)).shape == LineOf(line).shape
  {
    var l := WithoutCr(line);
    if l != line { TrimDropsSuffix(l, '\r'); }
  }

  /** The reader sees shapes only. */
  predicate SameShapes(a: seq<Line>, b: seq<Line>) {
    |a| == |b| && forall i :: 0 <= i < |a| ==> a[i].shape == b[i].shape
  }

  lemma {:induction false} FoundBySameShapes(a: seq<Line>, b: seq<Line>, server: string, inSection: bool)
    requires SameShapes(a, b)
    ensures Found(a, server, inSection) == Found(b, server, inSection)
  {
    if a != [] {
      assert a[0].shape == b[0].shape;
      FoundBySameShapes(a[1..], b[1..], server, match a[0].shape case Header(n) => n == server case _ => inSection);
    }
  }

  /** One line in front of any text parses as itself, give or take a `\r`. */
  lemma LineInFront(line: string, rest: string)
    requires '\n' !in line
    ensures Parse(line + "\n" + rest) == [LineOf(WithoutCr(line))] + Parse(rest)
  {
    var text := line + "\n" + rest;
    assert text[..|line|] == line && text[|line| + 1..] == rest && text[|line|] == '\n';
    FirstIndex(text, '\n', |line|);
    var ls := Lines(text);
    assert ls == [WithoutCr(line)] + Lines(rest);
    assert ls[0] == WithoutCr(line) && ls[1..] == Lines(rest);
  }

  /** Every line carries the shape its own text has. */
  ghost predicate Faithful(lines: seq<Line>) {
    forall l :: l in lines ==> '\n' !in l.text && l == LineOf(l.text)
  }

  lemma {:induction false} ParseIsFaithful(text: string)
    ensures Faithful(Parse(text))
    decreases |text|
  {
    if text != [] {
      var i := IndexOf(text, '\n');
      var rest := if i == |text| then [] else text[i + 1..];
      var line := if i == |text| then text else WithoutCr(text[..i]);
      assert text[..|text|] == text;
      assert Lines(text) == [line] + Lines(rest);
      assert ([line] + Lines(rest))[1..] == Lines(rest);
      ParseIsFaithful(rest);
    }
  }

  lemma {:induction false} KeptIsFaithful(lines: seq<Line>, server: string, inTarget: bool)
    requires Faithful(lines)
    ensures Faithful(Kept(lines, server, inTarget))
  {
    if lines != [] { KeptIsFaithful(lines[1..], server, InTarget(lines[0], server, inTarget)); }
  }

  lemma {:induction false} JoinedInFront(lines: seq<Line>, rest: string)
    requires Faithful(lines)
    ensures SameShapes(Parse(Joined(lines) + rest), lines + Parse(rest))
  {
    if lines == [] {
      assert Joined(lines) + rest == rest && lines + Parse(rest) == Parse(rest);
    } else {
      JoinedInFront(lines[1..], rest);
      JoinedCons(lines, rest);
      LineKeepsShapes(lines, Joined(lines[1..]) + rest, Parse(rest));
    }
  }

  lemma JoinedCons(lines: seq<Line>, rest: string)
    requires lines != []
    ensures Joined(lines) + rest == lines[0].text + "\n" + (Joined(lines[1..]) + rest)
  {
  }

  lemma FrontShapes(line: Line, text: string)
    requires '\n' !in line.text && line == LineOf(line.text)
    ensures SameShapes(Parse(line.text + "\n" + text), [line] + Parse(text))
  {
    LineInFront(line.text, text);
    CrKeepsShape(line.text);
    SameShapesCons(LineOf(WithoutCr(line.text)), Parse(text), line, Parse(text));
  }

  lemma LineKeepsShapes(lines: seq<Line>, text: string, tail: seq<Line>)
    requires lines != [] && Faithful(lines)
    requires SameShapes(Parse(text), lines[1..] + tail)
    ensures SameShapes(Parse(lines[0].text + "\n" + text), lines + tail)
  {
    assert lines[0] in lines;
    FrontShapes(lines[0], text);
    SameShapesThrough(Parse(lines[0].text + "\n" + text), lines, Parse(text), tail);
  }

  lemma SameShapesThrough(a: seq<Line>, lines: seq<Line>, b: seq<Line>, tail: seq<Line>)
    requires lines != [] && SameShapes(a, [lines[0]] + b) && SameShapes(b, lines[1..] + tail)
    ensures SameShapes(a, lines + tail)
  {
    assert lines + tail == [lines[0]] + (lines[1..] + tail);
    SameShapesCons(lines[0], b, lines[0], lines[1..] + tail);
  }

  lemma SameShapesCons(x: Line, a: seq<Line>, y: Line, b: seq<Line>)
    requires x.shape == y.shape && SameShapes(a, b)
    ensures SameShapes([x] + a, [y] + b)
  {
  }

  /** The first line of `tail` that is not ignored is a header, so it does not matter which section precedes it. */
  predicate Resets(tail: seq<Line>) {
    tail != [] && (tail[0].shape.Header? || (tail[0].shape.Ignored? && Resets(tail[1..])))
  }

  lemma {:induction false} ResetForgets(tail: seq<Line>, server: string, a: bool, b: bool)
    requires Resets(tail)
    ensures Found(tail, server, a) == Found(tail, server, b)
  {
    if tail[0].shape.Ignored? { ResetForgets(tail[1..], server, a, b); }
  }

  lemma {:induction false} FoundAppend(lines: seq<Line>, tail: seq<Line>, server: string, inSection: bool)
    requires Resets(tail)
    ensures var first := Found(lines, server, inSection);
            Found(lines + tail, server, inSection) == if first.Some? then first else Found(tail, server, false)
    decreases |lines|
  {
    if lines == [] {
      assert lines + tail == tail;
      ResetForgets(tail, server, inSection, false);
    } else {
      assert (lines + tail)[0] == lines[0] && (lines + tail)[1..] == lines[1..] + tail;
      FoundAppend(lines[1..], tail, server, match lines[0].shape case Header(n) => n == server case _ => inSection);
    }
  }

  /** Dropping the sections of one server hides nothing from another, wherever the scan happens to stand. */
  lemma {:induction false} KeptFrame(lines: seq<Line>, server: string, other: string, inTarget: bool, stale: bool, inOther: bool)
    requires server != other
    requires if inTarget then !inOther else stale == inOther
    ensures Found(Kept(lines, server, inTarget), other, stale) == Found(lines, other, inOther)
  {
    if lines != [] {
      var line, now := lines[0], InTarget(lines[0], server, inTarget);
      var inOther' := if line.shape.Header? then line.shape.name == other else inOther;
      var rest := Kept(lines[1..], server, now);
      if now {
        assert Kept(lines, server, inTarget) == rest;
        KeptFrame(lines[1..], server, other, now, stale, inOther');
      } else {
        KeptFrame(lines[1..], server, other, now, inOther', inOther');
        assert ([line] + rest)[1..] == rest;
      }
    }
  }

  /** And leaves nothing for the dropped server itself. */
  lemma {:induction false} KeptHides(lines: seq<Line>, server: string, inTarget: bool)
    ensures Found(Kept(lines, server, inTarget), server, false) == None
  {
    if lines != [] {
      var now := InTarget(lines[0], server, inTarget);
      var rest := Kept(lines[1..], server, now);
      KeptHides(lines[1..], server, now);
      if now {
        assert Kept(lines, server, inTarget) == rest;
      } else {
        assert ([lines[0]] + rest)[1..] == rest;
      }
    }
  }

  /** The entry `other` has once the sections of `server` are gone. */
  function Surviving(text: string, server: string, other: string): Option<string> {
    if other == server then None else Entry(text, other)
  }

  lemma KeptEntries(text: string, server: string, other: string)
    ensures Found(Kept(Parse(text), server, false), other, false) == Surviving(text, server, other)
    ensures Faithful(Kept(Parse(text), server, false))
  {
    ParseIsFaithful(text);
    KeptIsFaithful(Parse(text), server, false);
    if other == server {
      KeptHides(Parse(text), server, false);
    } else {
      KeptFrame(Parse(text), server, other, false, false, false);
    }
  }

  /** Logging out hides exactly one server, whatever the file held and however often its section occurs. */
  lemma RemoveThenRead(text: string, server: string, other: string)
    ensures Read(Removed(text, server), server) == None
    ensures other != server ==> Read(Removed(text, server), other) == Read(text, other)
  {
    RemoveThenFind(text, server, server);
    RemoveThenFind(text, server, other);
  }

  lemma RemoveThenFind(text: string, server: string, other: string)
    ensures Entry(Removed(text, server), other) == Surviving(text, server, other)
  {
    var kept := Kept(Parse(text), server, false);
    KeptEntries(text, server, other);
    JoinedInFront(kept, []);
    assert Joined(kept) + [] == Joined(kept) && kept + Parse([]) == kept;
    FoundBySameShapes(Parse(Joined(kept)), kept, other, false);
  }

  lemma HeaderShape(server: string)
    ensures WithoutCr("[" + server + "]") == "[" + server + "]"
    ensures LineOf("[" + server + "]").shape == Header(Trim(server))
  {
    var l := "[" + server + "]";
    assert Trimmed(l);
    TrimmedIsFixed(l);
    assert l[1..|l| - 1] == server;
  }

  lemma BlockLines(server: string, token: string)
    requires '\n' !in server
    ensures Parse(Block(server, token)) != []
    ensures Parse(Block(server, token))[0].shape == Header(Trim(server))
    ensures Parse(Block(server, token))[1..] == Parse("token = " + token + "\n")
  {
    var header := "[" + server + "]";
    assert Block(server, token) == header + "\n" + ("token = " + token + "\n");
    LineInFront(header, "token = " + token + "\n");
    HeaderShape(server);
  }

  lemma BlankInFront(rest: string)
    ensures Parse("\n" + rest) != []
    ensures Parse("\n" + rest)[0].shape == Ignored
    ensures Parse("\n" + rest)[1..] == Parse(rest)
  {
    assert "\n" + rest == [] + "\n" + rest;
    LineInFront([], rest);
  }

  /** What a login appends starts a fresh section, and the separating blank line is not seen. */
  lemma TailFinds(out: string, server: string, token: string, other: string)
    requires '\n' !in server
    ensures Resets(Parse(Separator(out) + Block(server, token)))
    ensures Found(Parse(Separator(out) + Block(server, token)), other, false) == Entry(Block(server, token), other)
  {
    var block := Block(server, token);
    BlockLines(server, token);
    BlankInFront(block);
    if Separator(out) == [] { assert [] + block == block; }
  }

  /** Behind any kept lines a text that starts with a header is read as if it stood alone, unless the lines answer first. */
  lemma AppendedFinds(kept: seq<Line>, tail: string, other: string)
    requires Faithful(kept) && Resets(Parse(tail))
    ensures var first := Found(kept, other, false);
            Entry(Joined(kept) + tail, other) == if first.Some? then first else Entry(tail, other)
  {
    JoinedInFront(kept, tail);
    FoundOver(Parse(Joined(kept) + tail), kept, Parse(tail), other);
  }

  lemma FoundOver(lines: seq<Line>, kept: seq<Line>, tail: seq<Line>, other: string)
    requires SameShapes(lines, kept + tail) && Resets(tail)
    ensures var first := Found(kept, other, false);
            Found(lines, other, false) == if first.Some? then first else Found(tail, other, false)
  {
    FoundBySameShapes(lines, kept + tail, other, false);
    FoundAppend(kept, tail, other, false);
  }

  lemma WrittenSplits(text: string, server: string, token: string)
    ensures var out := Removed(text, server); Written(text, server, token) == out + (Separator(out) + Block(server, token))
  {
    var out := Removed(text, server);
    Reassociate(out, Separator(out), Block(server, token));
  }

  /**
   The whole effect of logging in, for any token text: another server keeps the entry it had, and beyond that every server
   reads what the new block alone says.
   */
  lemma WriteThenFind(text: string, server: string, token: string, other: string)
    requires '\n' !in server
    ensures var kept := Surviving(text, server, other);
            Entry(Written(text, server, token), other) == if kept.Some? then kept else Entry(Block(server, token), other)
  {
    var out := Removed(text, server);
    WrittenSplits(text, server, token);
    TailFinds(out, server, token, other);
    KeptEntries(text, server, other);
    AppendedFinds(Kept(Parse(text), server, false), Separator(out) + Block(server, token), other);
  }

  // ---- one-line tokens ----

  lemma {:induction false} TrimOfTrimEnd(text: string)
    ensures Trim(TrimEnd(text)) == Trim(text)
    decreases |text|
  {
    if text != [] && IsWhitespace(text[|text| - 1]) {
      var shorter := text[..|text| - 1];
      TrimOfTrimEnd(shorter);
      TrimDropsSuffix(shorter, text[|text| - 1]);
      assert text == shorter + [text[|text| - 1]];
    }
  }

  lemma {:induction false} TrimEndKeepsFront(front: string, text: string)
    requires front != [] && !IsWhitespace(front[|front| - 1])
    ensures TrimEnd(front + text) == front + TrimEnd(text)
    decreases |text|
  {
    if text == [] {
      assert front + text == front;
    } else if IsWhitespace(text[|text| - 1]) {
      assert (front + text)[..|front + text| - 1] == front + text[..|text| - 1];
      TrimEndKeepsFront(front, text[..|text| - 1]);
    }
  }

  lemma TokenKey()
    ensures Trim("token ") == "token"
  {
    assert "token " == "token" + [' '];
    TrimDropsSuffix("token", ' ');
    assert Trimmed("token");
    TrimmedIsFixed("token");
  }

  lemma TrimOfLine(token: string)
    ensures Trim("token = " + token) == "token =" + TrimEnd(" " + token)
  {
    var front, value := "token =", " " + token;
    var line := "token = " + token;
    assert line == front + value;
    assert line[0] == 't' && TrimStart(line) == line;
    TrimEndKeepsFront(front, value);
  }

  lemma TokenSplit(token: string)
    ensures SplitOnce(Trim("token = " + token)) == Some(("token", Trim(token)))
  {
    var value := " " + token;
    TrimOfLine(token);
    var l := "token =" + TrimEnd(value);
    assert l[..6] == "token " && l[6] == '=' && l[7..] == TrimEnd(value);
    FirstIndex(l, '=', 6);
    TokenKey();
    TrimOfTrimEnd(value);
    assert value[1..] == token;
  }

  lemma TokenShape(token: string)
    ensures LineOf("token = " + token).shape == Token(Unquote(Trim(token)))
  {
    TrimOfLine(token);
    TokenSplit(token);
  }

  /** The part of a token that stays on its own line. */
  function FirstLine(token: string): string {
    token[..IndexOf(token, '\n')]
  }

  /** What the rest of a token adds to the file as lines of its own. */
  function Continuation(token: string): string {
    var i := IndexOf(token, '\n');
    if i == |token| then [] else token[i + 1..] + "\n"
  }

  lemma TokenSplits(token: string)
    ensures '\n' !in FirstLine(token)
    ensures token + "\n" == FirstLine(token) + "\n" + Continuation(token)
  {
    var i := IndexOf(token, '\n');
    if i == |token| {
      assert token[..i] == token;
    } else {
      assert token == token[..i] + "\n" + token[i + 1..];
    }
  }

  lemma TokenText(token: string)
    ensures "token = " + token + "\n" == ("token = " + FirstLine(token)) + "\n" + Continuation(token)
  {
    TokenSplits(token);
    Reassociate("token = ", token, "\n");
    Reassociate("token = ", FirstLine(token), "\n" + Continuation(token));
    Reassociate(FirstLine(token), "\n", Continuation(token));
    Reassociate("token = " + FirstLine(token), "\n", Continuation(token));
  }

  lemma TokenLines(token: string)
    ensures var lines := Parse("token = " + token + "\n");
            lines != [] && lines[0].shape == Token(Unquote(Trim(FirstLine(token)))) && lines[1..] == Parse(Continuation(token))
  {
    var line := "token = " + FirstLine(token);
    TokenSplits(token);
    TokenText(token);
    LineInFront(line, Continuation(token));
    CrKeepsShape(line);
    TokenShape(FirstLine(token));
  }

  /** A header and a token answer for their own server and are passed over for any other. */
  lemma FoundInBlock(lines: seq<Line>, name: string, value: string, server: string)
    requires lines != [] && lines[0].shape == Header(name) && lines[1..] != [] && lines[1..][0].shape == Token(value)
    ensures Found(lines, server, false) == if name == server then Some(value) else Found(lines[1..][1..], server, false)
  {
    assert Found(lines, server, false) == Found(lines[1..], server, name == server);
  }

  /** What a block says, for a token of any text. */
  lemma BlockEntry(server: string, token: string, other: string)
    requires '\n' !in server
    ensures Entry(Block(server, token), other) ==
            if other == Trim(server) then Some(Unquote(Trim(FirstLine(token)))) else Entry(Continuation(token), other)
  {
    BlockLines(server, token);
    TokenLines(token);
    FoundInBlock(Parse(Block(server, token)), Trim(server), Unquote(Trim(FirstLine(token))), other);
  }

  lemma OneLineBlock(server: string, token: string, other: string)
    requires '\n' !in server && '\n' !in token
    ensures Entry(Block(server, token), other) == if other == Trim(server) then Some(Unquote(Trim(token))) else None
  {
    assert IndexOf(token, '\n') == |token|;
    assert token[..|token|] == token;
    BlockEntry(server, token, other);
  }

  /** The token text the reader gives back: trimmed, one pair of quotes off, empty as none. */
  function Canonical(token: string): Option<string> {
    NonEmpty(Some(Unquote(Trim(token))))
  }

  /** Logging in is readable exactly under a trimmed name, and always as the canonical token. */
  lemma WriteThenReadSelf(text: string, server: string, token: string)
    requires '\n' !in server && '\n' !in token
    ensures Read(Written(text, server, token), server) == if Trimmed(server) then Canonical(token) else None
  {
    WriteThenFind(text, server, token, server);
    OneLineBlock(server, token, server);
    TrimmedIsFixed(server);
  }

  /** Exactly these tokens come back as they went in. */
  lemma RoundTripIff(text: string, server: string, token: string)
    requires '\n' !in server && '\n' !in token
    ensures Read(Written(text, server, token), server) == Some(token) <==>
            Trimmed(server) && Trimmed(token) && token != "" && !Quoted(token)
  {
    WriteThenReadSelf(text, server, token);
    TrimmedIsFixed(token);
    ShorterUnlessPlain(token);
  }

  lemma ShorterUnlessPlain(token: string)
    ensures Unquote(Trim(token)) == token <==> Trim(token) == token && !Quoted(token)
  {
    TrimmedIsFixed(token);
  }

  /** Under a trimmed name, every other server reads the same as before. */
  lemma WriteFrame(text: string, server: string, token: string, other: string)
    requires '\n' !in server && '\n' !in token && other != server
    ensures other != Trim(server) ==> Read(Written(text, server, token), other) == Read(text, other)
    ensures Trimmed(server) ==> Read(Written(text, server, token), other) == Read(text, other)
  {
    WriteThenFind(text, server, token, other);
    OneLineBlock(server, token, other);
    TrimmedIsFixed(server);
  }

  /** What a login reads as to another server for which the old file had nothing. */
  function Planted(server: string, token: string, other: string): Option<string> {
    if other == Trim(server) then Canonical(FirstLine(token)) else Read(Continuation(token), other)
  }

  lemma WriteThenReadOther(text: string, server: string, token: string, other: string)
    requires '\n' !in server && other != server
    ensures Read(Written(text, server, token), other) == if Entry(text, other).Some? then Read(text, other) else Planted(server, token, other)
  {
    WriteThenFind(text, server, token, other);
    BlockEntry(server, token, other);
  }

  /**
   For a token of any text, the frame holds for all files exactly when the lines after its first newline, read as a file
   of their own, hold no token for the other server; and, should the other name be the trimmed one, its first line is empty.
   */
  lemma WriteFrameIff(server: string, token: string, other: string)
    requires '\n' !in server && other != server
    ensures (forall text :: Read(Written(text, server, token), other) == Read(text, other)) <==> Planted(server, token, other) == None
  {
    if Planted(server, token, other) == None {
      forall text ensures Read(Written(text, server, token), other) == Read(text, other) {
        WriteThenReadOther(text, server, token, other);
      }
    } else {
      WriteThenReadOther([], server, token, other);
      assert Entry([], other) == None;
      assert Read(Written([], server, token), other) != Read([], other);
    }
  }

  /** A token that carries a section for another server after its first line. */
  function Carrying(first: string, other: string, planted: string): string {
    first + ("\n" + ("[" + other + "]\ntoken = " + planted))
  }

  lemma CarryingSplits(first: string, other: string, planted: string)
    requires '\n' !in first
    ensures FirstLine(Carrying(first, other, planted)) == first
    ensures Continuation(Carrying(first, other, planted)) == Block(other, planted)
  {
    var token, rest := Carrying(first, other, planted), "[" + other + "]\ntoken = " + planted;
    assert token[..|first|] == first && token[|first|] == '\n' && token[|first| + 1..] == rest;
    FirstIndex(token, '\n', |first|);
    assert rest + "\n" == Block(other, planted);
  }

  /** Such a token reaches that server. */
  lemma MultiLineTokenReachesOther(server: string, first: string, other: string, planted: string)
    requires '\n' !in server && '\n' !in first && '\n' !in other && '\n' !in planted
    requires Trimmed(other) && other != Trim(server)
    ensures Entry(Block(server, Carrying(first, other, planted)), other) == Some(Unquote(Trim(planted)))
  {
    CarryingSplits(first, other, planted);
    BlockEntry(server, Carrying(first, other, planted), other);
    TrimmedIsFixed(other);
    OneLineBlock(other, planted, other);
  }
}
