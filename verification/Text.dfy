/** Character-level helpers shared by the address codec and the credentials file. */
module Text {

  // ---- ordering: BTreeMap<String, _> iterates in this order ----

  /** Lexicographic order by code point, which is Rust's order on `str`. */
  predicate Less(a: string, b: string)
    decreases |a|
  {
    if b == [] then false
    else if a == [] then true
    else if a[0] != b[0] then a[0] < b[0]
    else Less(a[1..], b[1..])
  }

  lemma {:induction false} LessIrreflexive(a: string)
    ensures !Less(a, a)
    decreases |a|
  {
    if a != [] { LessIrreflexive(a[1..]); }
  }

  lemma {:induction false} LessTransitive(a: string, b: string, c: string)
    requires Less(a, b) && Less(b, c)
    ensures Less(a, c)
    decreases |a|
  {
    if a != [] && a[0] == b[0] && b[0] == c[0] {
      LessTransitive(a[1..], b[1..], c[1..]);
    }
  }

  lemma {:induction false} LessTotal(a: string, b: string)
    ensures a == b || Less(a, b) || Less(b, a)
    decreases |a|
  {
    if a != [] && b != [] && a[0] == b[0] {
      LessTotal(a[1..], b[1..]);
      assert a == [a[0]] + a[1..] && b == [b[0]] + b[1..];
    }
  }

  // ---- prefixes and splitting ----

  predicate StartsWith(text: string, prefix: string) {
    prefix <= text
  }

  /** Index of the first `c` in `text`, or |text| when there is none. */
  function IndexOf(text: string, c: char): (i: nat)
    ensures i <= |text|
    ensures i < |text| ==> text[i] == c
    ensures c !in text[..i]
  {
    if text == [] || text[0] == c then 0
    else
      var i := 1 + IndexOf(text[1..], c);
      assert text[..i] == [text[0]] + text[1..][..i - 1];
      i
  }

  lemma {:induction false} FirstIndex(text: string, c: char, i: nat)
    requires i < |text| && text[i] == c && c !in text[..i]
    ensures IndexOf(text, c) == i
  {
    if i > 0 {
      assert text[..i][0] == text[0] && text[1..][..i - 1] == text[..i][1..];
      FirstIndex(text[1..], c, i - 1);
    }
  }

  // ---- whitespace ----

  /** The Unicode White_Space property, which `char::is_whitespace` decides. */
  predicate IsWhitespace(c: char) {
    || '\t' <= c <= '\r' || c == ' ' || c == '\U{85}' || c == '\U{A0}' || c == '\U{1680}'
    || '\U{2000}' <= c <= '\U{200A}' || '\U{2028}' <= c <= '\U{2029}' || c == '\U{202F}' || c == '\U{205F}' || c == '\U{3000}'
  }

  function TrimStart(text: string): string {
    if text != [] && IsWhitespace(text[0]) then TrimStart(text[1..]) else text
  }

  function TrimEnd(text: string): string {
    if text != [] && IsWhitespace(text[|text| - 1]) then TrimEnd(text[..|text| - 1]) else text
  }

  function Trim(text: string): string {
    TrimEnd(TrimStart(text))
  }

  lemma {:induction false} TrimStartIsSuffix(text: string)
    ensures |TrimStart(text)| <= |text| && TrimStart(text) == text[|text| - |TrimStart(text)|..]
    ensures TrimStart(text) != [] ==> !IsWhitespace(TrimStart(text)[0])
  {
    if text != [] && IsWhitespace(text[0]) { TrimStartIsSuffix(text[1..]); }
  }

  lemma {:induction false} TrimEndIsPrefix(text: string)
    ensures TrimEnd(text) <= text
    ensures TrimEnd(text) != [] ==> !IsWhitespace(TrimEnd(text)[|TrimEnd(text)| - 1])
  {
    if text != [] && IsWhitespace(text[|text| - 1]) { TrimEndIsPrefix(text[..|text| - 1]); }
  }

  /** `text` has no whitespace at either end. */
  predicate Trimmed(text: string) {
    text != [] ==> !IsWhitespace(text[0]) && !IsWhitespace(text[|text| - 1])
  }

  lemma TrimmedIsFixed(text: string)
    ensures |Trim(text)| <= |text| && Trimmed(Trim(text))
    ensures Trim(text) == text <==> Trimmed(text)
  {
    TrimStartIsSuffix(text);
    TrimEndIsPrefix(TrimStart(text));
  }

  lemma {:induction false} TrimEndDropsSuffix(text: string, c: char)
    requires IsWhitespace(c)
    ensures TrimEnd(text + [c]) == TrimEnd(text)
  {
    assert (text + [c])[..|text|] == text;
  }

  lemma {:induction false} TrimStartAppend(text: string, c: char)
    requires IsWhitespace(c)
    ensures TrimStart(text + [c]) == if TrimStart(text) == [] then [] else TrimStart(text) + [c]
    decreases |text|
  {
    if text == [] {
      assert text + [c] == [c] && [c][1..] == [];
    } else {
      assert (text + [c])[1..] == text[1..] + [c];
      if IsWhitespace(text[0]) { TrimStartAppend(text[1..], c); }
    }
  }

  /** A trailing whitespace character, such as the `\r` of a CRLF line, never matters after trimming. */
  lemma TrimDropsSuffix(text: string, c: char)
    requires IsWhitespace(c)
    ensures Trim(text + [c]) == Trim(text)
  {
    TrimStartAppend(text, c);
    if TrimStart(text) != [] { TrimEndDropsSuffix(TrimStart(text), c); }
  }
}
