/** The embedded arm of `blob_get`: a managed Blob delivered in bounded chunks. */
module BlobRead {
  import opened Digests
  import opened BlobRange

  newtype byte = x: int | 0 <= x < 256

  /** One bounded read; none is a failed one. */
  type Reader = (u64, u64) -> Option<seq<byte>>

  function SaturatingAdd(a: u64, b: u64): u64 {
    if a as int + b as int > MAX as int then MAX else a + b
  }

  /** The range asked for, or the whole Blob when none was. */
  function Wanted(range: Option<Request>, length: u64): Option<Span>
    requires range.Some? ==> Validated(range.value)
  {
    if range.Some? then Resolve(range.value, length) else Some(Span(0, length))
  }

  /** `spans` cut lo..hi into consecutive non-empty pieces of at most `bound` bytes. */
  ghost predicate Tiles(spans: seq<Span>, lo: u64, hi: u64, bound: u64) {
    if spans == [] then lo == hi
    else
      var last := spans[|spans| - 1];
      last.hi == hi && last.lo < hi && hi - last.lo <= bound && Tiles(spans[..|spans| - 1], lo, last.lo, bound)
  }

  /** A reply of exactly the requested length. */
  predicate Delivered(reader: Reader, span: Span) {
    span.lo <= span.hi && reader(span.lo, span.hi).Some? && |reader(span.lo, span.hi).value| == (span.hi - span.lo) as int
  }

  ghost function Joined(reader: Reader, spans: seq<Span>): seq<byte> {
    if spans == [] then []
    else
      var last := spans[|spans| - 1];
      Joined(reader, spans[..|spans| - 1]) + (if reader(last.lo, last.hi).Some? then reader(last.lo, last.hi).value else [])
  }

  /** The reader returns the stored bytes. */
  ghost predicate Honest(reader: Reader, blob: seq<byte>) {
    forall lo: u64, hi: u64 :: lo <= hi && hi as int <= |blob| ==> reader(lo, hi) == Some(blob[lo..hi])
  }

  lemma {:induction false} TilesOrdered(spans: seq<Span>, lo: u64, hi: u64, bound: u64)
    requires Tiles(spans, lo, hi, bound)
    ensures lo <= hi
    decreases |spans|
  {
    if spans != [] { TilesOrdered(spans[..|spans| - 1], lo, spans[|spans| - 1].lo, bound); }
  }

  /** Joining honest replies over a tiling is one slice of the Blob. */
  lemma {:induction false} JoinedIsSlice(reader: Reader, blob: seq<byte>, spans: seq<Span>, lo: u64, hi: u64, bound: u64)
    requires Honest(reader, blob) && Tiles(spans, lo, hi, bound) && hi as int <= |blob|
    ensures lo <= hi && Joined(reader, spans) == blob[lo..hi]
    decreases |spans|
  {
    TilesOrdered(spans, lo, hi, bound);
    if spans != [] {
      var last := spans[|spans| - 1];
      JoinedIsSlice(reader, blob, spans[..|spans| - 1], lo, last.lo, bound);
      assert blob[lo..last.lo] + blob[last.lo..hi] == blob[lo..hi];
    }
  }

  /**
   Terminates for every positive bound. On success the requested chunks tile the wanted range and the output is their
   replies in order; on failure it stopped at the first bad reply with everything before it written. With a reader that
   returns the stored bytes the output is exactly one slice of the Blob.
   */
  method BlobGet(range: Option<Request>, length: u64, reader: Reader, bound: u64, ghost blob: seq<byte>)
    returns (ok: bool, out: seq<byte>, requests: seq<Span>)
    requires range.Some? ==> Validated(range.value)
    requires bound > 0
    ensures Wanted(range, length).None? ==> !ok && out == [] && requests == []
    ensures ok ==> Wanted(range, length).Some? && Tiles(requests, Wanted(range, length).value.lo, Wanted(range, length).value.hi, bound)
    ensures ok ==> out == Joined(reader, requests) && forall i :: 0 <= i < |requests| ==> Delivered(reader, requests[i])
    ensures !ok && Wanted(range, length).Some? ==>
              && requests != [] && !Delivered(reader, requests[|requests| - 1])
              && Tiles(requests[..|requests| - 1], Wanted(range, length).value.lo, requests[|requests| - 1].lo, bound)
              && out == Joined(reader, requests[..|requests| - 1])
    ensures Honest(reader, blob) && |blob| == length as int && Wanted(range, length).Some? ==>
              ok && out == blob[Wanted(range, length).value.lo..Wanted(range, length).value.hi]
  {
    ok, out, requests := false, [], [];
    var wanted := Wanted(range, length);
    if wanted.None? { return; }
    var cursor, stop := wanted.value.lo, wanted.value.hi;
    while cursor < stop
      invariant wanted.value.lo <= cursor <= stop
      invariant Tiles(requests, wanted.value.lo, cursor, bound)
      invariant out == Joined(reader, requests)
      invariant forall i :: 0 <= i < |requests| ==> Delivered(reader, requests[i])
    {
      var end := Min(stop, SaturatingAdd(cursor, bound));
      var reply := reader(cursor, end);
      ghost var before := requests;
      requests := requests + [Span(cursor, end)];
      assert requests[..|requests| - 1] == before;
      if reply.None? || |reply.value| != (end - cursor) as int { return; }
      out := out + reply.value;
      cursor := end;
    }
    ok := true;
    if Honest(reader, blob) && |blob| == length as int {
      JoinedIsSlice(reader, blob, requests, wanted.value.lo, stop, bound);
    }
  }
}
