/** `OutputCapture` (core/executor.py): bounded buffers that stand for a whole byte stream. */
module OutputCapture {
  import opened Prelude

  datatype Mode = HeadMode | TailMode | BothMode

  /** The newline, dots and word that replace what was cut. The laws below hold for any marker. */
  const MARKER: seq<Byte> := [10, 46, 46, 46, 60, 116, 114, 117, 110, 99, 97, 116, 101, 100, 62, 46, 46, 46, 10]

  function Min(a: int, b: int): int { if a < b then a else b }

  function Prefix(s: seq<Byte>, n: nat): (p: seq<Byte>)
    ensures |p| == Min(n, |s|)
  {
    s[..Min(n, |s|)]
  }

  function Suffix(s: seq<Byte>, n: nat): (p: seq<Byte>)
    ensures |p| == Min(n, |s|)
  {
    s[|s| - Min(n, |s|)..]
  }

  /** What a capture of the whole stream shows. */
  function Shown(stream: seq<Byte>, limit: nat, mode: Mode, marker: seq<Byte>): seq<Byte> {
    match mode
    case HeadMode => Prefix(stream, limit)
    case TailMode => Suffix(stream, limit)
    case BothMode =>
      if |stream| <= limit then stream
      else if limit <= |marker| then marker[..limit]
      else
        var content := limit - |marker|;
        Prefix(stream, content / 2) + marker + Suffix(stream, content - content / 2)
  }

  // ----- The bounded buffers -----

  datatype Buffers = Buffers(total: nat, head: seq<Byte>, tail: seq<Byte>)

  function Extended(head: seq<Byte>, chunk: seq<Byte>, limit: nat): seq<Byte> {
    if |head| < limit then head + Prefix(chunk, limit - |head|) else head
  }

  /** `feed` under a limit. */
  function Feed(b: Buffers, chunk: seq<Byte>, limit: nat, mode: Mode): Buffers {
    var total := b.total + |chunk|;
    if limit == 0 then b.(total := total)
    else match mode
      case HeadMode => Buffers(total, Extended(b.head, chunk, limit), b.tail)
      case TailMode => Buffers(total, b.head, Suffix(b.tail + chunk, limit))
      case BothMode => Buffers(total, Extended(b.head, chunk, limit / 2), Suffix(b.tail + chunk, limit - limit / 2))
  }

  function FeedAll(chunks: seq<seq<Byte>>, limit: nat, mode: Mode): Buffers {
    if chunks == [] then Buffers(0, [], []) else Feed(FeedAll(chunks[..|chunks| - 1], limit, mode), chunks[|chunks| - 1], limit, mode)
  }

  function Stream(chunks: seq<seq<Byte>>): seq<Byte> {
    if chunks == [] then [] else Stream(chunks[..|chunks| - 1]) + chunks[|chunks| - 1]
  }

  /** `result` under a limit. */
  function Payload(b: Buffers, limit: nat, mode: Mode, marker: seq<Byte>): seq<Byte> {
    match mode
    case HeadMode => b.head
    case TailMode => b.tail
    case BothMode =>
      if b.total <= limit then
        var overlap := |b.head| + |b.tail| - b.total;
        b.head + b.tail[Min(if overlap > 0 then overlap else 0, |b.tail|)..]
      else if limit <= |marker| then marker[..limit]
      else
        var content := limit - |marker|;
        Prefix(b.head, content / 2) + marker + Suffix(b.tail, content - content / 2)
  }

  // ----- The buffers determine what the stream shows -----

  /** How much of either end a mode keeps. */
  function HeadLimit(limit: nat, mode: Mode): nat {
    match mode
    case HeadMode => limit
    case TailMode => 0
    case BothMode => limit / 2
  }

  function TailLimit(limit: nat, mode: Mode): nat {
    match mode
    case HeadMode => 0
    case TailMode => limit
    case BothMode => limit - limit / 2
  }

  /** The buffers hold the first m and the last n bytes of the stream, and know its length. */
  ghost predicate Holds(b: Buffers, stream: seq<Byte>, m: nat, n: nat) {
    b.total == |stream| && b.head == Prefix(stream, m) && b.tail == Suffix(stream, n)
  }

  /** The buffers, or without a limit the spool, stand for the stream. */
  ghost predicate Represents(limit: Option<nat>, mode: Mode, b: Buffers, spool: seq<Byte>, stream: seq<Byte>) {
    match limit
    case None => b.total == |stream| && spool == stream
    case Some(bound) => Holds(b, stream, HeadLimit(bound, mode), TailLimit(bound, mode))
  }

  lemma NothingHeld(m: nat, n: nat)
    ensures Holds(Buffers(0, [], []), [], m, n)
  {
  }

  lemma NothingFed(limit: Option<nat>, mode: Mode)
    ensures Represents(limit, mode, Buffers(0, [], []), [], [])
  {
    if limit.Some? { NothingHeld(HeadLimit(limit.value, mode), TailLimit(limit.value, mode)); }
  }

  lemma PrefixGrows(s: seq<Byte>, chunk: seq<Byte>, n: nat)
    ensures Extended(Prefix(s, n), chunk, n) == Prefix(s + chunk, n)
  {
  }

  lemma SuffixGrows(s: seq<Byte>, chunk: seq<Byte>, n: nat)
    ensures Suffix(Suffix(s, n) + chunk, n) == Suffix(s + chunk, n)
  {
  }

  lemma HoldsMore(b: Buffers, stream: seq<Byte>, chunk: seq<Byte>, m: nat, n: nat)
    requires Holds(b, stream, m, n)
    ensures Holds(Buffers(b.total + |chunk|, Extended(b.head, chunk, m), Suffix(b.tail + chunk, n)), stream + chunk, m, n)
  {
    PrefixGrows(stream, chunk, m);
    SuffixGrows(stream, chunk, n);
  }

  /** In every mode feeding extends the head and the tail as far as the mode keeps them. */
  lemma FeedIsUniform(b: Buffers, stream: seq<Byte>, chunk: seq<Byte>, limit: nat, mode: Mode)
    requires Holds(b, stream, HeadLimit(limit, mode), TailLimit(limit, mode))
    ensures Feed(b, chunk, limit, mode) == Buffers(b.total + |chunk|, Extended(b.head, chunk, HeadLimit(limit, mode)),
                                                   Suffix(b.tail + chunk, TailLimit(limit, mode)))
  {
  }

  lemma FeedHolds(b: Buffers, stream: seq<Byte>, chunk: seq<Byte>, limit: nat, mode: Mode)
    requires Holds(b, stream, HeadLimit(limit, mode), TailLimit(limit, mode))
    ensures Holds(Feed(b, chunk, limit, mode), stream + chunk, HeadLimit(limit, mode), TailLimit(limit, mode))
  {
    FeedIsUniform(b, stream, chunk, limit, mode);
    HoldsMore(b, stream, chunk, HeadLimit(limit, mode), TailLimit(limit, mode));
  }

  lemma {:induction false} FeedAllHolds(chunks: seq<seq<Byte>>, limit: nat, mode: Mode)
    ensures Holds(FeedAll(chunks, limit, mode), Stream(chunks), HeadLimit(limit, mode), TailLimit(limit, mode))
  {
    if chunks == [] {
      NothingHeld(HeadLimit(limit, mode), TailLimit(limit, mode));
    } else {
      FeedAllHolds(chunks[..|chunks| - 1], limit, mode);
      FeedHolds(FeedAll(chunks[..|chunks| - 1], limit, mode), Stream(chunks[..|chunks| - 1]), chunks[|chunks| - 1], limit, mode);
    }
  }

  /** A shorter end of an end. */
  lemma EndsShow(s: seq<Byte>, m: nat, n: nat, c: nat, d: nat)
    requires c <= m && d <= n
    ensures Prefix(Prefix(s, m), c) == Prefix(s, c) && Suffix(Suffix(s, n), d) == Suffix(s, d)
  {
  }

  /** A short stream is its prefix followed by the part of its suffix that the prefix does not cover. */
  lemma WholeStream(s: seq<Byte>, m: nat, n: nat)
    requires |s| <= m + n
    ensures |Prefix(s, m)| + |Suffix(s, n)| >= |s|
    ensures Prefix(s, m) + Suffix(s, n)[|Prefix(s, m)| + |Suffix(s, n)| - |s|..] == s
  {
  }

  /** In both mode, within the limit the two buffers cover the stream. */
  lemma ShortShows(b: Buffers, stream: seq<Byte>, limit: nat, m: nat, n: nat, marker: seq<Byte>)
    requires Holds(b, stream, m, n) && m + n == limit && |stream| <= limit
    ensures Payload(b, limit, BothMode, marker) == stream
  {
    WholeStream(stream, m, n);
  }

  /** Beyond the limit they hold enough of either end. */
  lemma LongShows(b: Buffers, stream: seq<Byte>, limit: nat, m: nat, n: nat, marker: seq<Byte>)
    requires Holds(b, stream, m, n) && limit < |stream|
    requires |marker| < limit ==> (limit - |marker|) / 2 <= m && limit - |marker| - (limit - |marker|) / 2 <= n
    ensures Payload(b, limit, BothMode, marker) == Shown(stream, limit, BothMode, marker)
  {
    if |marker| < limit {
      var content := limit - |marker|;
      EndsShow(stream, m, n, content / 2, content - content / 2);
    }
  }

  lemma HalvesGrow(a: nat, b: nat)
    requires a <= b
    ensures a / 2 <= b / 2 && a - a / 2 <= b - b / 2
  {
  }

  lemma PayloadShows(b: Buffers, stream: seq<Byte>, limit: nat, mode: Mode, marker: seq<Byte>)
    requires Holds(b, stream, HeadLimit(limit, mode), TailLimit(limit, mode))
    ensures Payload(b, limit, mode, marker) == Shown(stream, limit, mode, marker)
  {
    if mode == BothMode {
      var m := limit / 2;
      if |stream| <= limit { ShortShows(b, stream, limit, m, limit - m, marker); }
      else {
        if |marker| < limit { HalvesGrow(limit - |marker|, limit); }
        LongShows(b, stream, limit, m, limit - m, marker);
      }
    }
  }

  /** For any chunking the bounded capture shows exactly what the whole stream would show. */
  lemma AnyChunking(chunks: seq<seq<Byte>>, limit: nat, mode: Mode, marker: seq<Byte>)
    ensures Payload(FeedAll(chunks, limit, mode), limit, mode, marker) == Shown(Stream(chunks), limit, mode, marker)
    ensures FeedAll(chunks, limit, mode).total == |Stream(chunks)|
  {
    FeedAllHolds(chunks, limit, mode);
    PayloadShows(FeedAll(chunks, limit, mode), Stream(chunks), limit, mode, marker);
  }

  /** A truncated capture has exactly the length of its limit; a complete one is the stream. */
  lemma ShownLength(stream: seq<Byte>, limit: nat, mode: Mode, marker: seq<Byte>)
    ensures |Shown(stream, limit, mode, marker)| == Min(|stream|, limit)
    ensures |stream| <= limit ==> Shown(stream, limit, mode, marker) == stream
  {
  }

  // ----- The object -----

  datatype CaptureReply =
    | Captured(payload: seq<Byte>, total: nat, truncated: bool)
    | ClosedCapture | CursorNeedsFullCapture | CursorOutOfRange

  /** `max(limit, 0)`, when there is a limit. */
  function Clamped(limit: Option<int>): Option<nat> {
    if limit.None? then None else Some(if limit.value > 0 then limit.value else 0)
  }

  class OutputCapture {
    const limit: Option<nat>
    const mode: Mode
    var total: nat
    var head: seq<Byte>
    var tail: seq<Byte>
    var spool: seq<Byte>
    var closed: bool
    ghost var stream: seq<Byte>

    /** The fields stand for the bytes fed while the capture was open. */
    ghost predicate Valid()
      reads this
    {
      Represents(limit, mode, Buffers(total, head, tail), spool, stream)
    }

    constructor (limit: Option<nat>, mode: Mode)
      ensures Valid() && stream == [] && !closed
      ensures this.limit == limit && this.mode == mode
    {
      this.limit, this.mode := limit, mode;
      total, head, tail, spool, closed, stream := 0, [], [], [], false, [];
      NothingFed(limit, mode);
    }

    method FeedChunk(chunk: seq<Byte>)
      requires Valid()
      modifies this
      ensures Valid() && closed == old(closed)
      ensures stream == if old(closed) then old(stream) else old(stream) + chunk
    {
      if chunk == [] { return; }
      if closed { return; }
      if limit.Some? {
        FeedHolds(Buffers(total, head, tail), stream, chunk, limit.value, mode);
        FeedBounded(chunk, limit.value);
      } else {
        total := total + |chunk|;
        spool := spool + chunk;
      }
      stream := stream + chunk;
    }

    method FeedBounded(chunk: seq<Byte>, bound: nat)
      modifies this`total, this`head, this`tail
      ensures Buffers(total, head, tail) == Feed(old(Buffers(total, head, tail)), chunk, bound, mode)
    {
      total := total + |chunk|;
      if bound == 0 { return; }
      if mode == HeadMode {
        ExtendHead(chunk, bound);
        return;
      }
      if mode == TailMode {
        ExtendTail(chunk, bound);
        return;
      }
      ExtendHead(chunk, bound / 2);
      ExtendTail(chunk, bound - bound / 2);
    }

    method ExtendTail(chunk: seq<Byte>, bound: nat)
      modifies this`tail
      ensures tail == Suffix(old(tail) + chunk, bound)
    {
      tail := tail + chunk;
      if |tail| > bound { tail := tail[|tail| - bound..]; }
    }

    method ExtendHead(chunk: seq<Byte>, bound: nat)
      modifies this`head
      ensures head == Extended(old(head), chunk, bound)
    {
      var remaining := bound - |head|;
      if remaining > 0 { head := head + chunk[..Min(remaining, |chunk|)]; }
    }

    /** `result`; without a limit the spool is delivered from the cursor on. */
    method Result(sinceByte: Option<int>) returns (r: CaptureReply)
      requires Valid()
      ensures r.ClosedCapture? <==> closed
      ensures r.CursorNeedsFullCapture? <==> !closed && limit.Some? && sinceByte.Some?
      ensures r.CursorOutOfRange? <==> !closed && limit.None? && sinceByte.Some? && !(0 <= sinceByte.value <= |stream|)
      ensures r.Captured? ==> r.total == |stream| && (r.truncated <==> limit.Some? && |stream| > limit.value)
      ensures r.Captured? && limit.Some? ==> r.payload == Shown(stream, limit.value, mode, MARKER)
      ensures r.Captured? && limit.None? ==>
                var offset := if sinceByte.Some? then sinceByte.value else 0;
                0 <= offset <= |stream| && r.payload == stream[offset..]
    {
      if closed { return ClosedCapture; }
      if limit.None? {
        var offset := if sinceByte.Some? then sinceByte.value else 0;
        if offset < 0 || offset > total { return CursorOutOfRange; }
        return Captured(spool[offset..], total, false);
      }
      if sinceByte.Some? { return CursorNeedsFullCapture; }
      PayloadShows(Buffers(total, head, tail), stream, limit.value, mode, MARKER);
      var payload := BoundedPayload(limit.value, MARKER);
      return Captured(payload, total, total > limit.value);
    }

    method BoundedPayload(bound: nat, marker: seq<Byte>) returns (payload: seq<Byte>)
      ensures payload == Payload(Buffers(total, head, tail), bound, mode, marker)
    {
      if mode == HeadMode { return head; }
      if mode == TailMode { return tail; }
      if total <= bound {
        var overlap := |head| + |tail| - total;
        return head + tail[Min(if overlap > 0 then overlap else 0, |tail|)..];
      }
      if bound <= |marker| { return marker[..bound]; }
      var content := bound - |marker|;
      return Prefix(head, content / 2) + marker + Suffix(tail, content - content / 2);
    }
  }

  /** The capture for a limit as callers give it: a negative one keeps nothing. */
  method NewCapture(limit: Option<int>, mode: Mode) returns (c: OutputCapture)
    ensures fresh(c) && c.Valid() && c.stream == [] && !c.closed
    ensures c.limit == Clamped(limit) && c.mode == mode
  {
    c := new OutputCapture(Clamped(limit), mode);
  }
}
