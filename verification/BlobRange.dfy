/** Byte ranges of `blob get`: the CLI request, its HTTP header, and the checks on the server's answer. */
module BlobRange {
  import opened Text
  import opened Addresses
  import opened Digests

  newtype u64 = x: int | 0 <= x < 0x1_0000_0000_0000_0000

  const MAX: u64 := 0xFFFF_FFFF_FFFF_FFFF

  // ---- decimal numerals ----

  function Digit(d: nat): char
    requires d < 10
  {
    '0' + d as char
  }

  function Decimal(n: nat): string {
    if n < 10 then [Digit(n)] else Decimal(n / 10) + [Digit(n % 10)]
  }

  predicate IsDigit(c: char) {
    '0' <= c <= '9'
  }

  predicate AllDigits(s: string) {
    forall i :: 0 <= i < |s| ==> IsDigit(s[i])
  }

  /** The value of a digit string, most significant digit first. */
  function ValueOf(s: string): nat
    requires AllDigits(s)
  {
    if s == [] then 0 else 10 * ValueOf(s[..|s| - 1]) + (s[|s| - 1] as int - '0' as int)
  }

  lemma {:induction false} DecimalRoundTrip(n: nat)
    ensures Decimal(n) != [] && AllDigits(Decimal(n)) && ValueOf(Decimal(n)) == n
  {
    var s := Decimal(n);
    if n < 10 {
      assert s[..0] == [];
    } else {
      DecimalRoundTrip(n / 10);
      assert s[..|s| - 1] == Decimal(n / 10);
    }
  }

  /** `str::parse::<u64>`: an optional plus sign, then at least one digit, without overflow. */
  function ParseU64(s: string): Option<u64> {
    var digits := if s != [] && s[0] == '+' then s[1..] else s;
    if digits == [] || !AllDigits(digits) || ValueOf(digits) > MAX as int then None
    else Some(ValueOf(digits) as u64)
  }

  lemma ParseOfDecimal(n: u64)
    ensures ParseU64(Decimal(n as nat)) == Some(n)
  {
    DecimalRoundTrip(n as nat);
  }

  // ---- the request ----

  datatype Request = Request(start: u64, length: Option<u64>)

  datatype RangeError = ZeroLength | Overflow

  datatype Result<T, E> = Ok(value: T) | Err(error: E)

  /** `BlobRangeRequest::new`. */
  function NewRequest(offset: Option<u64>, length: Option<u64>): Result<Option<Request>, RangeError> {
    if offset.None? && length.None? then Ok(None)
    else if length == Some(0) then Err(ZeroLength)
    else
      var start: u64 := if offset.Some? then offset.value else 0;
      if length.Some? && start as int + length.value as int > MAX as int then Err(Overflow)
      else Ok(Some(Request(start, length)))
  }

  /** The requests the constructor lets through. */
  predicate Validated(r: Request) {
    r.length.Some? ==> r.length.value > 0 && r.start as int + r.length.value as int <= MAX as int
  }

  /** Exactly the well-formed ranges are accepted, and an accepted range is the one asked for. */
  lemma NewRequestExact(offset: Option<u64>, length: Option<u64>)
    ensures var asked := Request(if offset.Some? then offset.value else 0, length);
            NewRequest(offset, length).Ok? <==> (offset.None? && length.None?) || Validated(asked)
    ensures NewRequest(offset, length) == Ok(None) <==> offset.None? && length.None?
    ensures forall r :: NewRequest(offset, length) == Ok(Some(r)) ==>
              Validated(r) && r.length == length && r.start == if offset.Some? then offset.value else 0
  {
  }

  /** `header_value`. */
  function HeaderValue(r: Request): string
    requires Validated(r)
  {
    "bytes=" + Decimal(r.start as nat) + "-" +
    if r.length.Some? then Decimal((r.start + r.length.value - 1) as nat) else ""
  }

  datatype Span = Span(lo: u64, hi: u64)

  function Min(a: u64, b: u64): u64 {
    if a < b then a else b
  }

  /** `resolve`: the half-open range of an embedded read, or none when unsatisfiable. */
  function Resolve(r: Request, total: u64): Option<Span>
    requires Validated(r)
  {
    if r.start >= total then None
    else Some(Span(r.start, if r.length.Some? then Min(total, r.start + r.length.value) else total))
  }

  // ---- section 14.1.2 of RFC 9110 ----

  datatype Selection = Malformed | Unsatisfiable | Selected(lo: nat, hi: nat)

  /** A single int-range of the bytes unit, read against a representation of `total` bytes. */
  function SelectByHeader(header: string, total: nat): Selection {
    if !StartsWith(header, "bytes=") then Malformed
    else
      var spec := header[6..];
      var dash := IndexOf(spec, '-');
      if dash == |spec| then Malformed
      else
        var first, last := spec[..dash], spec[dash + 1..];
        if first == [] || !AllDigits(first) || !AllDigits(last) then Malformed
        else if last != [] && ValueOf(last) < ValueOf(first) then Malformed
        else if ValueOf(first) >= total then Unsatisfiable
        else Selected(ValueOf(first), if last == [] || ValueOf(last) >= total then total else ValueOf(last) + 1)
  }

  lemma HeaderParts(first: string, last: string)
    requires AllDigits(first)
    ensures var header := "bytes=" + first + "-" + last;
            && StartsWith(header, "bytes=") && header[6..] == first + "-" + last
            && IndexOf(first + "-" + last, '-') == |first|
            && (first + "-" + last)[..|first|] == first && (first + "-" + last)[|first| + 1..] == last
  {
    var spec := first + "-" + last;
    var header := "bytes=" + first + "-" + last;
    assert header == "bytes=" + spec;
    assert header[..6] == "bytes=" && header[6..] == spec;
    assert spec[..|first|] == first && spec[|first|] == '-';
    FirstIndex(spec, '-', |first|);
  }

  /** The standard's reading of a header made of two digit strings. */
  lemma HeaderReads(first: string, last: string, total: nat)
    requires first != [] && AllDigits(first) && AllDigits(last)
    ensures SelectByHeader("bytes=" + first + "-" + last, total) ==
            if last != [] && ValueOf(last) < ValueOf(first) then Malformed
            else if ValueOf(first) >= total then Unsatisfiable
            else Selected(ValueOf(first), if last == [] || ValueOf(last) >= total then total else ValueOf(last) + 1)
  {
    HeaderParts(first, last);
  }

  /** The header the CLI sends selects, by the standard, exactly the range an embedded read resolves to. */
  lemma HeaderSelectsResolved(r: Request, total: u64)
    requires Validated(r)
    ensures SelectByHeader(HeaderValue(r), total as nat) ==
            match Resolve(r, total)
            case None => Unsatisfiable
            case Some(span) => Selected(span.lo as nat, span.hi as nat)
  {
    var first := Decimal(r.start as nat);
    DecimalRoundTrip(r.start as nat);
    if r.length.Some? {
      var end := (r.start + r.length.value - 1) as nat;
      DecimalRoundTrip(end);
      HeaderReads(first, Decimal(end), total as nat);
    } else {
      HeaderReads(first, "", total as nat);
    }
  }

  // ---- Content-Range: section 14.4 of RFC 9110 ----

  datatype ContentRange = ContentRange(start: u64, end: u64, total: u64)

  function ParseBounds(bounds: string): Option<(u64, u64)> {
    var dash := IndexOf(bounds, '-');
    if dash == |bounds| then None
    else
      var start, end := ParseU64(bounds[..dash]), ParseU64(bounds[dash + 1..]);
      if start.Some? && end.Some? then Some((start.value, end.value)) else None
  }

  function ParseSpec(spec: string): Option<ContentRange> {
    var slash := IndexOf(spec, '/');
    if slash == |spec| then None
    else
      var bounds, total := ParseBounds(spec[..slash]), ParseU64(spec[slash + 1..]);
      if bounds.Some? && total.Some? then Some(ContentRange(bounds.value.0, bounds.value.1, total.value)) else None
  }

  /** `bytes <start>-<end>/<total>` as the client parses it. */
  function ParseContentRange(raw: string): Option<ContentRange> {
    if StartsWith(raw, "bytes ") then ParseSpec(raw[6..]) else None
  }

  datatype RangeVerdict = Accepted | Omitted | Invalid | Inconsistent

  /** `validate_content_range`, with its checked arithmetic. */
  function ValidateContentRange(raw: Option<string>, r: Request, served: u64): RangeVerdict
    requires Validated(r)
  {
    if raw.None? then Omitted
    else
      var parsed := ParseContentRange(raw.value);
      if parsed.None? then Invalid
      else
        var c := parsed.value;
        if c.end < c.start || c.end - c.start == MAX then Invalid
        else
          var actual := c.end - c.start + 1;
          if c.total < r.start then Inconsistent
          else
            var available := c.total - r.start;
            var expected := if r.length.Some? then Min(r.length.value, available) else available;
            if c.start != r.start || actual != served || actual != expected || c.end >= c.total then Inconsistent
            else Accepted
  }

  /** A response is accepted exactly when its bounds are the request resolved at its stated total and its length is what was served. */
  lemma AcceptedIffResolved(raw: Option<string>, r: Request, served: u64)
    requires Validated(r)
    ensures ValidateContentRange(raw, r, served) == Accepted <==>
            && raw.Some? && ParseContentRange(raw.value).Some?
            && var c := ParseContentRange(raw.value).value;
               var span := Resolve(r, c.total);
               && span.Some? && span.value.lo == c.start && span.value.hi as int == c.end as int + 1
               && served as int == c.end as int - c.start as int + 1
  {
  }

  /** What a server writes for a selected range. */
  function RenderContentRange(span: Span, total: u64): string
    requires span.lo < span.hi
  {
    "bytes " + (Decimal(span.lo as nat) + "-" + Decimal((span.hi - 1) as nat) + "/" + Decimal(total as nat))
  }

  lemma SplitAt(left: string, c: char, right: string)
    requires c !in left
    ensures var text := left + [c] + right;
            IndexOf(text, c) == |left| && text[..|left|] == left && text[|left| + 1..] == right
  {
    var text := left + [c] + right;
    assert text[..|left|] == left && text[|left|] == c;
    FirstIndex(text, c, |left|);
  }

  lemma BoundsParts(a: string, b: string)
    requires AllDigits(a) && ParseU64(a).Some? && ParseU64(b).Some?
    ensures ParseBounds(a + "-" + b) == Some((ParseU64(a).value, ParseU64(b).value))
  {
    SplitAt(a, '-', b);
  }

  lemma SpecParts(bounds: string, t: string, range: (u64, u64), total: u64)
    requires '/' !in bounds && ParseBounds(bounds) == Some(range) && ParseU64(t) == Some(total)
    ensures ParseSpec(bounds + "/" + t) == Some(ContentRange(range.0, range.1, total))
  {
    SplitAt(bounds, '/', t);
  }

  lemma NoSlash(a: string, b: string)
    requires AllDigits(a) && AllDigits(b)
    ensures '/' !in a + "-" + b
  {
  }

  lemma RenderedParses(span: Span, total: u64)
    requires span.lo < span.hi
    ensures ParseContentRange(RenderContentRange(span, total)) == Some(ContentRange(span.lo, span.hi - 1, total))
  {
    ParseOfDecimal(span.lo);
    ParseOfDecimal(span.hi - 1);
    ParseOfDecimal(total);
    DecimalRoundTrip(span.lo as nat);
    DecimalRoundTrip((span.hi - 1) as nat);
    var a, b := Decimal(span.lo as nat), Decimal((span.hi - 1) as nat);
    BoundsParts(a, b);
    NoSlash(a, b);
    SpecParts(a + "-" + b, Decimal(total as nat), (span.lo, span.hi - 1), total);
    PrefixStripped("bytes ", a + "-" + b + "/" + Decimal(total as nat));
  }

  /** An honest server's answer to the CLI's own header is always accepted. */
  lemma HonestAnswerAccepted(r: Request, total: u64)
    requires Validated(r) && Resolve(r, total).Some?
    ensures var span := Resolve(r, total).value;
            span.lo < span.hi && ValidateContentRange(Some(RenderContentRange(span, total)), r, span.hi - span.lo) == Accepted
  {
    var span := Resolve(r, total).value;
    RenderedParses(span, total);
    AcceptedIffResolved(Some(RenderContentRange(span, total)), r, span.hi - span.lo);
  }
}
