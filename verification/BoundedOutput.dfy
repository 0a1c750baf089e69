/** Bounded capture of a child process stream (`execution_runtime.py`). */
module BoundedOutput {
  import opened Prelude

  type Byte = bv8

  const MARKER := "\n... [middle output omitted by PatchProof] ...\n"

  // --- The stream and its batch summary ------------------------------------------------------------

  /** What a reader sees of a chunked stream: an empty chunk is the end. */
  function Stream(chunks: seq<seq<Byte>>): seq<Byte> {
    if chunks == [] || chunks[0] == [] then [] else chunks[0] + Stream(chunks[1..])
  }

  function First(s: seq<Byte>, n: nat): seq<Byte> { if |s| <= n then s else s[..n] }

  function Last(s: seq<Byte>, n: nat): seq<Byte> { if |s| <= n then s else s[|s| - n..] }

  /** The head and the tail a collector should hold after a stream, defined on the whole stream at once. */
  function BatchHead(s: seq<Byte>, headLimit: nat): seq<Byte> { First(s, headLimit) }

  function BatchTail(s: seq<Byte>, headLimit: nat, tailLimit: nat): seq<Byte> {
    Last(s[|First(s, headLimit)|..], tailLimit)
  }

  lemma LastOfAppend(a: seq<Byte>, b: seq<Byte>, n: nat)
    ensures Last(Last(a, n) + b, n) == Last(a + b, n)
  {
    if |a| > n {
      var x := Last(a, n) + b;
      assert x == (a + b)[|a| - n..];
      assert x[|x| - n..] == (a + b)[|a + b| - n..];
    }
  }

  /** One more chunk, absorbed the way the collector does it. */
  lemma OneChunk(s: seq<Byte>, c: seq<Byte>, headLimit: nat, tailLimit: nat)
    ensures var head := BatchHead(s, headLimit);
            var room := headLimit - |head|;
            && BatchHead(s + c, headLimit) == head + First(c, room)
            && BatchTail(s + c, headLimit, tailLimit) ==
                 Last(BatchTail(s, headLimit, tailLimit) + c[|First(c, room)|..], tailLimit)
  {
    var head := BatchHead(s, headLimit);
    var room := headLimit - |head|;
    var rest := c[|First(c, room)|..];
    var after := s[|head|..];
    if |s| < headLimit {
      assert after == [];
      assert (s + c)[|head + First(c, room)|..] == rest;
      assert Last(after, tailLimit) + rest == rest;
    } else {
      assert First(c, room) == [] && rest == c;
      assert (s + c)[|head|..] == after + c;
      LastOfAppend(after, c, tailLimit);
    }
  }

  lemma ReadOne(read: seq<Byte>, chunks: seq<seq<Byte>>, i: nat)
    requires i < |chunks| && chunks[i] != []
    ensures read + Stream(chunks[i..]) == (read + chunks[i]) + Stream(chunks[i + 1..])
  {
    assert chunks[i..][1..] == chunks[i + 1..];
  }

  class BoundedCollector {
    const maximumBytes: nat
    const headLimit: nat
    const tailLimit: nat
    var head: seq<Byte>
    var tail: seq<Byte>
    var totalBytes: nat

    constructor (maximum: nat)
      ensures maximumBytes == maximum && headLimit == maximum / 2 && tailLimit == maximum - maximum / 2
      ensures head == [] && tail == [] && totalBytes == 0
    {
      maximumBytes := maximum;
      headLimit := maximum / 2;
      tailLimit := maximum - maximum / 2;
      head, tail, totalBytes := [], [], 0;
    }

    /** One read: fill the head, then keep the newest bytes of the rest. */
    method AbsorbChunk(chunk: seq<Byte>)
      requires |head| <= headLimit && |tail| <= tailLimit
      modifies this
      ensures head == old(head) + First(chunk, headLimit - |old(head)|)
      ensures tail == Last(old(tail) + chunk[|First(chunk, headLimit - |old(head)|)|..], tailLimit)
      ensures totalBytes == old(totalBytes) + |chunk|
    {
      totalBytes := totalBytes + |chunk|;
      var rest := chunk;
      var remaining := headLimit - |head|;
      if remaining > 0 {
        var taken := First(chunk, remaining);
        head := head + taken;
        rest := chunk[|taken|..];
      }
      if rest != [] {
        tail := tail + rest;
        var overflow := |tail| - tailLimit;
        if overflow > 0 {
          tail := tail[overflow..];
        }
      } else {
        assert tail + rest == tail;
      }
    }

    /** Whatever the chunking, the collector ends with the batch summary of the stream. */
    method Drain(chunks: seq<seq<Byte>>)
      requires head == [] && tail == [] && totalBytes == 0
      modifies this
      ensures (head, tail, totalBytes) == Collected(chunks, headLimit, tailLimit)
    {
      var i := 0;
      ghost var read: seq<Byte> := [];
      while i < |chunks| && chunks[i] != []
        invariant 0 <= i <= |chunks|
        invariant read + Stream(chunks[i..]) == Stream(chunks)
        invariant head == BatchHead(read, headLimit) && tail == BatchTail(read, headLimit, tailLimit)
        invariant totalBytes == |read|
      {
        ReadOne(read, chunks, i);
        OneChunk(read, chunks[i], headLimit, tailLimit);
        AbsorbChunk(chunks[i]);
        read := read + chunks[i];
        i := i + 1;
      }
      assert Stream(chunks[i..]) == [];
      assert read == read + Stream(chunks[i..]);
    }

    /** `text`, for any decoder of byte strings. */
    method Text(decode: seq<Byte> -> string, maximumChars: int) returns (r: Result<string, string>)
      ensures r == Rendered(decode, head, tail, totalBytes <= maximumBytes, maximumChars)
    {
      var h, t := decode(head), decode(tail);
      if totalBytes <= maximumBytes {
        return BoundedHeadTail(h + t, maximumChars);
      }
      var retained := maximumChars - |MARKER|;
      var headChars := retained / 2;
      var tailChars := retained - headChars;
      return Ok(SliceTo(h, headChars) + MARKER + SliceBack(t, tailChars));
    }
  }

  /** Head plus tail is the whole stream exactly when the stream fits the byte budget. */
  lemma WholeStreamWhenItFits(s: seq<Byte>, maximum: nat)
    ensures var h := maximum / 2;
            BatchHead(s, h) + BatchTail(s, h, maximum - h) == s <==> |s| <= maximum
  {
    var h := maximum / 2;
    var head, tail := BatchHead(s, h), BatchTail(s, h, maximum - h);
    if |s| <= maximum {
      assert tail == s[|head|..];
    } else {
      assert |head + tail| == maximum;
    }
  }

  /** A stream read in non-empty chunks is their concatenation. */
  lemma {:induction false} StreamIsFlat(chunks: seq<seq<Byte>>)
    requires forall i | 0 <= i < |chunks| :: chunks[i] != []
    ensures Stream(chunks) == Flat(chunks)
  {
    if chunks != [] {
      StreamIsFlat(chunks[1..]);
    }
  }

  /** What a collector holds after draining `chunks`, by the contract of `Drain`. */
  function Collected(chunks: seq<seq<Byte>>, headLimit: nat, tailLimit: nat): (seq<Byte>, seq<Byte>, nat) {
    (BatchHead(Stream(chunks), headLimit), BatchTail(Stream(chunks), headLimit, tailLimit), |Stream(chunks)|)
  }

  /** Two chunkings of the same bytes leave the collector in the same state. */
  lemma ChunkingIsIrrelevant(a: seq<seq<Byte>>, b: seq<seq<Byte>>, headLimit: nat, tailLimit: nat)
    requires (forall i | 0 <= i < |a| :: a[i] != []) && (forall i | 0 <= i < |b| :: b[i] != [])
    requires Flat(a) == Flat(b)
    ensures Collected(a, headLimit, tailLimit) == Collected(b, headLimit, tailLimit)
  {
    StreamIsFlat(a);
    StreamIsFlat(b);
  }

  function Flat(chunks: seq<seq<Byte>>): seq<Byte> {
    if chunks == [] then [] else chunks[0] + Flat(chunks[1..])
  }

  // --- Rendering -----------------------------------------------------------------------------------

  /** Python's `s[:n]`. */
  function SliceTo(s: string, n: int): string {
    if n >= |s| then s else if n >= 0 then s[..n] else if -n >= |s| then "" else s[..|s| + n]
  }

  /** Python's `s[-n:]`, which is the whole string when `n` is zero. */
  function SliceBack(s: string, n: int): string {
    if n > 0 then (if n >= |s| then s else s[|s| - n..])
    else if -n >= |s| then "" else s[-n..]
  }

  /** `_bounded_head_tail`. */
  function BoundedHeadTail(value: string, maximumChars: int): (r: Result<string, string>)
    ensures r.Err? <==> maximumChars <= |MARKER|
    ensures r.Ok? ==> |r.value| == Min(|value|, maximumChars)
    ensures r.Ok? && |value| <= maximumChars ==> r.value == value
  {
    if maximumChars <= |MARKER| then Err("bounded output budget is too small")
    else if |value| <= maximumChars then Ok(value)
    else
      var retained := maximumChars - |MARKER|;
      var headChars := retained / 2;
      Ok(SliceTo(value, headChars) + MARKER + SliceBack(value, retained - headChars))
  }

  function Rendered(decode: seq<Byte> -> string, head: seq<Byte>, tail: seq<Byte>, fits: bool,
      maximumChars: int): Result<string, string> {
    if fits then BoundedHeadTail(decode(head) + decode(tail), maximumChars)
    else
      var retained := maximumChars - |MARKER|;
      var headChars := retained / 2;
      Ok(SliceTo(decode(head), headChars) + MARKER + SliceBack(decode(tail), retained - headChars))
  }

  /**
   * Rendered text stays within the character budget exactly when the budget is larger than the marker, which is what
   * the one caller checks: without that check an overflowing stream renders past its budget, because a tail of zero
   * characters is the whole tail.
   */
  lemma RenderingFitsExactly(decode: seq<Byte> -> string, head: seq<Byte>, tail: seq<Byte>, fits: bool,
      maximumChars: int)
    requires decode(tail) != "" || fits
    ensures (var r := Rendered(decode, head, tail, fits, maximumChars); r.Ok? && |r.value| <= maximumChars) <==>
            maximumChars > |MARKER|
  {
  }

  /** `BoundedSubprocessRunner` sizes its collectors so that every rendered stream fits. */
  lemma RunnerOutputFits(decode: seq<Byte> -> string, s: seq<Byte>, maxOutputChars: int)
    requires maxOutputChars >= |MARKER| + 1
    requires forall b :: b != [] ==> decode(b) != ""
    ensures var bytes := maxOutputChars * 4;
            var h := bytes / 2;
            var r := Rendered(decode, BatchHead(s, h), BatchTail(s, h, bytes - h), |s| <= bytes, maxOutputChars);
            r.Ok? && |r.value| <= maxOutputChars
  {
    var bytes := maxOutputChars * 4;
    var h := bytes / 2;
    RenderingFitsExactly(decode, BatchHead(s, h), BatchTail(s, h, bytes - h), |s| <= bytes, maxOutputChars);
  }

  // --- What the text keeps -----------------------------------------------------------------------------

  /** The text is the first half of what the budget leaves beside the marker, the marker, and the last half. */
  ghost predicate KeepsEnds(text: string, first: string, last: string, maximumChars: int) {
    var h, t := (maximumChars - |MARKER|) / 2, (maximumChars - |MARKER| + 1) / 2;
    && 0 <= h && 0 <= t && h + t + |MARKER| == maximumChars
    && text == (if h <= |first| then first[..h] else first) + MARKER
               + (if t <= |last| then last[|last| - t..] else last)
  }

  lemma SlicesAreEnds(first: string, last: string, maximumChars: int)
    requires |MARKER| < maximumChars
    ensures var n := maximumChars - |MARKER|;
            KeepsEnds(SliceTo(first, n / 2) + MARKER + SliceBack(last, n - n / 2), first, last, maximumChars)
  {
    var n := maximumChars - |MARKER|;
    assert (n + 1) / 2 == n - n / 2 > 0;
    assert SliceTo(first, n / 2) == if n / 2 <= |first| then first[..n / 2] else first;
    assert SliceBack(last, n - n / 2) == if n - n / 2 <= |last| then last[|last| - (n - n / 2)..] else last;
  }

  /** A text that is too long keeps its beginning and its end around the marker. */
  lemma LongTextKeepsEnds(value: string, maximumChars: int)
    requires |MARKER| < maximumChars < |value|
    ensures BoundedHeadTail(value, maximumChars).Ok?
    ensures KeepsEnds(BoundedHeadTail(value, maximumChars).value, value, value, maximumChars)
  {
    SlicesAreEnds(value, value, maximumChars);
  }

  /** A stream that is too long keeps the beginning of its head and the end of its tail around the marker. */
  lemma LongStreamKeepsEnds(decode: seq<Byte> -> string, head: seq<Byte>, tail: seq<Byte>, maximumChars: int)
    requires |MARKER| < maximumChars
    ensures Rendered(decode, head, tail, false, maximumChars).Ok?
    ensures KeepsEnds(Rendered(decode, head, tail, false, maximumChars).value, decode(head), decode(tail), maximumChars)
  {
    SlicesAreEnds(decode(head), decode(tail), maximumChars);
  }
}
