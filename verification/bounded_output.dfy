/** Bounded capture of a process stream (cmd/factory-worker-headless/main.go):
    a writer that keeps the head and the tail while it drains the stream, and
    the one-shot bounding of a file. */
module BoundedOutput {

  newtype byte = b: int | 0 <= b < 0x100

  type Bytes = seq<byte>

  /** "\n[...output truncated...]\n" */
  function Marker(): (m: Bytes)
    ensures |m| == MARKER_LENGTH
  {
    [10, 91, 46, 46, 46, 111, 117, 116, 112, 117, 116, 32,
     116, 114, 117, 110, 99, 97, 116, 101, 100, 46, 46, 46, 93, 10]
  }

  const MARKER_LENGTH := 26

  // ---------- one shot

  function ReadBounded(data: Bytes, limit: int): (Bytes, bool) {
    if |data| <= limit then (data, false)
    else if limit <= 0 then ([], true)
    else if limit <= MARKER_LENGTH then (Marker()[..limit], true)
    else
      var retained := limit - MARKER_LENGTH;
      var headLimit := retained / 2;
      var tailLimit := retained - headLimit;
      (data[..headLimit] + Marker() + data[|data| - tailLimit..], true)
  }

  // ---------- streaming

  function BoundedHeadLimit(limit: int): nat {
    if limit <= 0 then 0
    else if limit <= MARKER_LENGTH then limit / 2
    else (limit - MARKER_LENGTH) / 2
  }

  function Min(a: int, b: int): int {
    if a <= b then a else b
  }

  /** The last `n` bytes, or all of them. */
  function Last(data: Bytes, n: nat): (r: Bytes)
    ensures |r| == Min(n, |data|)
  {
    if |data| <= n then data else data[|data| - n..]
  }

  datatype Capture = Capture(
    limit: int, file: Bytes, head: Bytes, tail: Bytes, total: nat, truncated: bool, finalized: bool)

  function Opened(limit: int): Capture {
    Capture(limit, [], [], [], 0, false, false)
  }

  /** How many bytes of a write go to the head. */
  function HeadShare(c: Capture, data: Bytes): (count: nat)
    ensures count <= |data|
  {
    var headLimit := BoundedHeadLimit(c.limit);
    if headLimit > |c.head| then Min(headLimit - |c.head|, |data|) else 0
  }

  function Slid(tail: Bytes, rest: Bytes, tailLimit: nat): Bytes {
    if rest == [] then tail else Last(tail + rest, tailLimit)
  }

  function Absorb(c: Capture, data: Bytes): Capture {
    var counted := c.(total := c.total + |data|, truncated := c.total + |data| > c.limit);
    if c.limit <= 0 then counted
    else
      var count := HeadShare(c, data);
      counted.(file := c.file + data[..count], head := c.head + data[..count],
               tail := Slid(c.tail, data[count..], c.limit - BoundedHeadLimit(c.limit)))
  }

  function AbsorbAll(c: Capture, chunks: seq<Bytes>): Capture
    decreases |chunks|
  {
    if chunks == [] then c else AbsorbAll(Absorb(c, chunks[0]), chunks[1..])
  }

  function Flatten(chunks: seq<Bytes>): Bytes {
    if chunks == [] then [] else chunks[0] + Flatten(chunks[1..])
  }

  function Finalize(c: Capture): Capture {
    if c.finalized then c
    else
      var content :=
        if c.truncated && c.limit <= MARKER_LENGTH then (if c.limit <= 0 then [] else Marker()[..c.limit])
        else if c.truncated then
          var tailLimit := c.limit - |c.head| - MARKER_LENGTH;
          c.head + Marker() + Last(c.tail, if tailLimit < 0 then 0 else tailLimit)
        else c.head + c.tail;
      c.(file := content, finalized := true)
  }

  lemma NothingTaken(kept: Bytes, data: Bytes)
    ensures kept + data[..0] == kept && data[0..] == data
  {}

  // ---------- the writer

  class BoundedFileWriter {
    const limit: int
    var file: Bytes
    var head: Bytes
    var tail: Bytes
    var total: nat
    var truncated: bool
    var finalized: bool

    constructor (limit: int)
      ensures View() == Opened(limit)
    {
      this.limit := limit;
      file, head, tail := [], [], [];
      total, truncated, finalized := 0, false, false;
    }

    function View(): Capture
      reads this
    {
      Capture(limit, file, head, tail, total, truncated, finalized)
    }

    /** Drains all of `data` and reports its length. */
    method Write(data: Bytes) returns (written: nat)
      modifies this
      ensures View() == Absorb(old(View()), data)
      ensures written == |data|
    {
      hide Marker;
      NothingTaken(file, data);
      NothingTaken(head, data);
      written := |data|;
      var rest := data;
      if limit <= 0 {
        total := total + written;
        truncated := total > limit;
        return;
      }
      var headLimit := BoundedHeadLimit(limit);
      var remaining := headLimit - |head|;
      if remaining > 0 {
        var count := remaining;
        if count > |data| {
          count := |data|;
        }
        head := head + data[..count];
        file := file + data[..count];
        rest := data[count..];
      }
      var tailLimit := limit - headLimit;
      if |rest| > 0 && tailLimit > 0 {
        ghost var whole := tail + rest;
        tail := tail + rest;
        if |tail| > tailLimit {
          tail := tail[|tail| - tailLimit..];
        }
        assert tail == Last(whole, tailLimit);
      }
      total := total + written;
      truncated := total > limit;
    }

    /** Rewrites the file from the retained head and tail, once. */
    method Publish()
      modifies this
      ensures View() == Finalize(old(View()))
    {
      hide Marker;
      if finalized {
        return;
      }
      finalized := true;
      file := [];
      if truncated && limit <= MARKER_LENGTH {
        if limit > 0 {
          file := Marker()[..limit];
        }
        return;
      }
      file := head;
      var rest := tail;
      if truncated {
        file := file + Marker();
        var tailLimit := limit - |head| - MARKER_LENGTH;
        if tailLimit < 0 {
          tailLimit := 0;
        }
        if |rest| > tailLimit {
          rest := rest[|rest| - tailLimit..];
        }
        assert rest == Last(tail, tailLimit);
      }
      file := file + rest;
    }
  }

  // ---------- streaming agrees with one shot

  /** What the writer retains of the stream it has seen. */
  predicate Retains(c: Capture, stream: Bytes) {
    var headLimit := BoundedHeadLimit(c.limit);
    && !c.finalized && c.total == |stream| && c.file == c.head
    && if c.limit <= 0 then c.head == c.tail == []
       else && c.head == stream[..Min(headLimit, |stream|)]
            && c.tail == Last(stream[|c.head|..], c.limit - headLimit)
  }

  lemma LastOfConcat(a: Bytes, b: Bytes, n: nat)
    ensures Last(Last(a, n) + b, n) == Last(a + b, n)
  {
    var l := Last(a, n);
    if |a| > n {
      assert l + b == (a + b)[|a| - n..];
    }
  }

  /** A write while the head is not full yet: the tail is still empty. */
  lemma AbsorbFillsHead(c: Capture, stream: Bytes, data: Bytes)
    requires Retains(c, stream) && c.limit > 0 && |stream| < BoundedHeadLimit(c.limit)
    ensures Retains(Absorb(c, data), stream + data)
  {
    hide Marker;
    var headLimit := BoundedHeadLimit(c.limit);
    var count := Min(headLimit - |c.head|, |data|);
    assert c.head == stream && c.tail == [];
    var head := c.head + data[..count];
    assert head == (stream + data)[..Min(headLimit, |stream + data|)];
    assert (stream + data)[|head|..] == data[count..];
    assert c.tail + data[count..] == data[count..];
  }

  /** A write once the head is full: everything goes to the tail. */
  lemma AbsorbFillsTail(c: Capture, stream: Bytes, data: Bytes)
    requires Retains(c, stream) && c.limit > 0 && |stream| >= BoundedHeadLimit(c.limit)
    ensures Retains(Absorb(c, data), stream + data)
  {
    hide Marker;
    var headLimit := BoundedHeadLimit(c.limit);
    assert data[..0] == [] && data[0..] == data;
    assert c.head + [] == c.head == (stream + data)[..headLimit];
    assert (stream + data)[headLimit..] == stream[headLimit..] + data;
    LastOfConcat(stream[headLimit..], data, c.limit - headLimit);
    if data == [] {
      assert stream + data == stream;
    }
  }

  /** One write keeps what is retained up to date. */
  lemma AbsorbRetains(c: Capture, stream: Bytes, data: Bytes)
    requires Retains(c, stream)
    ensures Retains(Absorb(c, data), stream + data)
    ensures Absorb(c, data).limit == c.limit
    ensures Absorb(c, data).truncated <==> |stream + data| > c.limit
  {
    if c.limit > 0 && |stream| < BoundedHeadLimit(c.limit) {
      AbsorbFillsHead(c, stream, data);
    } else if c.limit > 0 {
      AbsorbFillsTail(c, stream, data);
    }
  }

  lemma {:induction false} AbsorbAllRetains(c: Capture, stream: Bytes, chunks: seq<Bytes>)
    requires Retains(c, stream) && (c.truncated <==> |stream| > c.limit)
    ensures var q := AbsorbAll(c, chunks);
            && Retains(q, stream + Flatten(chunks)) && q.limit == c.limit
            && (q.truncated <==> |stream + Flatten(chunks)| > c.limit)
    decreases |chunks|
  {
    hide Retains, Absorb;
    if chunks == [] {
      assert stream + Flatten(chunks) == stream;
    } else {
      AbsorbRetains(c, stream, chunks[0]);
      AbsorbAllRetains(Absorb(c, chunks[0]), stream + chunks[0], chunks[1..]);
      assert stream + Flatten(chunks) == stream + chunks[0] + Flatten(chunks[1..]);
    }
  }

  /** What is retained are the two ends of the stream. */
  lemma RetainedEnds(c: Capture, stream: Bytes)
    requires Retains(c, stream) && c.limit >= 0
    ensures RetainsEnds(c, stream, c.limit, BoundedHeadLimit(c.limit))
  {
    hide Marker;
    var headLimit := BoundedHeadLimit(c.limit);
    assert headLimit <= c.limit;
    hide BoundedHeadLimit, Last, Min;
    if c.limit > 0 {
      EndsOf(stream, headLimit, c.limit);
      assert c.head == stream[..Min(headLimit, |stream|)];
    } else {
      assert c.tail == stream[|stream|..];
    }
  }

  lemma EndsOf(stream: Bytes, headLimit: nat, limit: nat)
    requires headLimit <= limit
    ensures var head := stream[..Min(headLimit, |stream|)];
            var tail := Last(stream[|head|..], limit - headLimit);
            && |head| <= headLimit && |tail| <= limit - headLimit
            && |head| + |tail| == (if limit < |stream| then limit else |stream|)
            && tail == stream[|stream| - |tail|..]
  {
    var head := stream[..Min(headLimit, |stream|)];
    var rest := stream[|head|..];
    if |rest| > limit - headLimit {
      assert Last(rest, limit - headLimit) == stream[|stream| - (limit - headLimit)..];
    } else {
      assert rest == stream[|stream| - |rest|..];
    }
  }

  lemma RetainedWithin(chunks: seq<Bytes>, limit: nat)
    ensures RetainsEnds(AbsorbAll(Opened(limit), chunks), Flatten(chunks), limit, BoundedHeadLimit(limit))
  {
    hide AbsorbAll, Flatten, BoundedHeadLimit, Last, Min, Absorb;
    StartsRetaining(limit);
    AbsorbAllRetains(Opened(limit), [], chunks);
    assert [] + Flatten(chunks) == Flatten(chunks);
    hide *;
    RetainedEnds(AbsorbAll(Opened(limit), chunks), Flatten(chunks));
  }

  /** After every sequence of writes the head and the tail are the two ends of
      what was written, within their limits, and the open file holds the head
      only. */
  lemma RetainedIsBounded(chunks: seq<Bytes>, limit: nat)
    ensures RetainsEnds(AbsorbAll(Opened(limit), chunks), Flatten(chunks), limit,
                        if limit <= 26 then limit / 2 else (limit - 26) / 2)
  {
    RetainedWithin(chunks, limit);
    hide RetainsEnds, AbsorbAll, Flatten;
  }

  /** The two ends of a stream, within `limit` and the head within `headLimit`. */
  predicate RetainsEnds(c: Capture, stream: Bytes, limit: nat, headLimit: nat) {
    && headLimit <= limit && |c.head| <= headLimit && |c.tail| <= limit - headLimit
    && c.head <= stream && c.file == c.head && c.total == |stream|
    && |c.head| + |c.tail| == (if limit < |stream| then limit else |stream|)
    && c.tail == stream[|stream| - |c.tail|..]
  }

  lemma StartsRetaining(limit: nat)
    ensures var c := Opened(limit);
            c.limit == limit && Retains(c, []) && !c.truncated
  {}

  lemma FinalizedIsOneShot(c: Capture, stream: Bytes)
    requires Retains(c, stream) && (c.truncated <==> |stream| > c.limit)
    ensures (Finalize(c).file, c.truncated) == ReadBounded(stream, c.limit)
  {
    if c.limit > MARKER_LENGTH && c.truncated {
      var retained := c.limit - MARKER_LENGTH;
      var tailLimit := retained - retained / 2;
      assert |c.head| == retained / 2;
      var after := stream[|c.head|..];
      assert Last(Last(after, c.limit - |c.head|), tailLimit) == stream[|stream| - tailLimit..];
    } else if c.limit > 0 && !c.truncated {
      assert c.head + c.tail == stream;
    }
  }

  /** However a stream is split into writes, the published file and the flag are
      those of the one-shot bounding of the whole stream. */
  lemma StreamingIsOneShot(chunks: seq<Bytes>, limit: nat)
    ensures var c := AbsorbAll(Opened(limit), chunks);
            (Finalize(c).file, c.truncated) == ReadBounded(Flatten(chunks), limit)
  {
    var empty := Opened(limit);
    assert Retains(empty, []);
    AbsorbAllRetains(empty, [], chunks);
    assert [] + Flatten(chunks) == Flatten(chunks);
    FinalizedIsOneShot(AbsorbAll(empty, chunks), Flatten(chunks));
  }

  /** The published file never exceeds the limit, and reaches it when anything
      was cut. */
  lemma BoundedLength(data: Bytes, limit: int)
    ensures var r := ReadBounded(data, limit);
            && |r.0| <= Min(|data|, if limit < 0 then 0 else limit)
            && (r.1 <==> |data| > limit)
            && (r.1 && limit >= 0 ==> |r.0| == limit)
  {}

  lemma MarkerSpelled(k: nat)
    requires k < MARKER_LENGTH
    ensures |"\n[...output truncated...]\n"| == MARKER_LENGTH
    ensures Marker()[k] as int == "\n[...output truncated...]\n"[k] as int
  {
  }

  /** A text that does not fit keeps its two ends around the marker; the ends are of
      equal length, but for one byte more at the end. Where the marker itself does not
      fit, its beginning remains. */
  lemma BoundedText(data: Bytes, limit: int) returns (head: nat, tail: nat)
    requires |data| > limit > 0
    ensures var text := ReadBounded(data, limit).0;
            && |text| == limit && tail - head in {0, 1}
            && (limit > MARKER_LENGTH ==>
                  && head + MARKER_LENGTH + tail == limit
                  && text[..head] == data[..head] && text[limit - tail..] == data[|data| - tail..]
                  && text[head..limit - tail] == Marker())
            && (limit <= MARKER_LENGTH ==> text == Marker()[..limit])
  {
    hide Marker;
    head, tail := 0, 0;
    if limit > MARKER_LENGTH {
      head := (limit - MARKER_LENGTH) / 2;
      tail := limit - MARKER_LENGTH - head;
    }
  }

  // ---------- nested bounding

  /** Bounding twice is bounding once at the smaller limit. */
  lemma NestedBounding(data: Bytes, a: int, b: int)
    ensures ReadBounded(ReadBounded(data, a).0, b).0 == ReadBounded(data, Min(a, b)).0
  {
    var inner := ReadBounded(data, a).0;
    if |data| > a && MARKER_LENGTH < b < a {
      var ra, rb := a - MARKER_LENGTH, b - MARKER_LENGTH;
      var ta, tb := ra - ra / 2, rb - rb / 2;
      assert inner[..rb / 2] == data[..rb / 2];
      assert inner[|inner| - tb..] == data[|data| - tb..];
    }
  }

  /** What an inspection reports of a published capture file. */
  function Inspected(c: Capture, limit: int): (Bytes, bool) {
    var r := ReadBounded(c.file, limit);
    (r.0, r.1 || c.truncated)
  }

  /** Inspecting a finished capture gives the stream bounded at the smaller of
      the two limits, and says exactly whether anything of it is missing. */
  lemma InspectionOfCapture(chunks: seq<Bytes>, captureLimit: nat, inspectionLimit: nat)
    ensures Inspected(Finalize(AbsorbAll(Opened(captureLimit), chunks)), inspectionLimit)
            == ReadBounded(Flatten(chunks), Min(captureLimit, inspectionLimit))
  {
    StreamingIsOneShot(chunks, captureLimit);
    NestedBounding(Flatten(chunks), captureLimit, inspectionLimit);
    BoundedLength(Flatten(chunks), captureLimit);
  }
}
