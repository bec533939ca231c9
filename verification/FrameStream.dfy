/**
 Whole streams of frames through the parser: whatever chunks they arrive in,
 the receiver observes exactly the frames that were written, and a stream cut
 anywhere but between frames is seen to be cut.
*/
module FrameStream {
  import opened Options
  import opened Codec
  import opened FrameParser
  import opened Words

  datatype Frame = Frame(header: FrameHeader, payload: seq<Byte>)

  /** One frame on the wire; a payload whose length does not fit a u32 is refused. */
  function WriteFrame(f: Frame): Option<seq<Byte>> {
    if |f.payload| >= 0x1_0000_0000 then None
    else Some(Be(|f.payload|, 4) + EncodeFrame(f.header) + f.payload)
  }

  predicate Fits(f: Frame, max: nat) {
    WriteFrame(f).Some? && |f.payload| <= max
  }

  ghost predicate AllFit(fs: seq<Frame>, max: nat) {
    forall i :: 0 <= i < |fs| ==> Fits(fs[i], max)
  }

  /** Everything the writes put on the stream; a refused write puts nothing. */
  ghost function Wire(fs: seq<Frame>): seq<Byte> {
    if fs == [] then []
    else (if WriteFrame(fs[0]).Some? then WriteFrame(fs[0]).value else []) + Wire(fs[1..])
  }

  /** What a receiver should come to know: each frame whole, stamped by its first byte. */
  ghost function Views(fs: seq<Frame>, stream: seq<Timed>): seq<View>
    requires |stream| == Length(fs)
  {
    if fs == [] then []
    else
      var n := |fs[0].payload|;
      [View(fs[0].header, n, stream[0].at, n, true)] + Views(fs[1..], stream[PREFIX_LEN + n..])
  }

  ghost function Length(fs: seq<Frame>): nat {
    if fs == [] then 0 else PREFIX_LEN + |fs[0].payload| + Length(fs[1..])
  }

  ghost function PayloadTotal(fs: seq<Frame>): nat {
    if fs == [] then 0 else |fs[0].payload| + PayloadTotal(fs[1..])
  }

  lemma {:induction false} FeedHeader(s: Sink, f: Frame, stream: seq<Timed>, max: nat)
    requires s.mode == BOUNDARY && Fits(f, max)
    requires |stream| == PREFIX_LEN && BytesOf(stream) == WriteFrame(f).value[..PREFIX_LEN]
    ensures var n := |f.payload|;
            Feed(s, stream, max)
            == Sink(if n == 0 then BOUNDARY else Payload(f.header.frameNo, n),
                    s.views + [View(f.header, n, stream[0].at, 0, n == 0)], s.payload)
  {
    FeedWholePrefix(s, stream, max);
    var prefix := s.mode.bytes + BytesOf(stream);
    assert prefix[..4] == Be(|f.payload|, 4);
    assert prefix[4..] == EncodeFrame(f.header) + [];
    Widths();
    BeRoundTrip(|f.payload|, 4);
    FrameRoundTrip(f.header, []);
  }

  lemma {:induction false} FeedFrame(s: Sink, f: Frame, stream: seq<Timed>, max: nat)
    requires s.mode == BOUNDARY && Fits(f, max) && BytesOf(stream) == WriteFrame(f).value
    ensures var n := |f.payload|;
            && |stream| == PREFIX_LEN + n
            && Feed(s, stream, max)
               == Sink(BOUNDARY, s.views + [View(f.header, n, stream[0].at, n, true)], s.payload + n)
  {
    assert |stream| == |BytesOf(stream)|;
    var head, body := stream[..PREFIX_LEN], stream[PREFIX_LEN..];
    assert stream == head + body;
    assert BytesOf(head) == WriteFrame(f).value[..PREFIX_LEN];
    FeedAppend(s, head, body, max);
    FeedHeader(s, f, head, max);
    if body != [] {
      FeedPayload(Feed(s, head, max), body, max);
    }
  }

  /** The stream of some frames is the bytes of the first, then the stream of the others. */
  lemma {:induction false} SplitFirst(fs: seq<Frame>, stream: seq<Timed>, max: nat)
    requires fs != [] && AllFit(fs, max) && BytesOf(stream) == Wire(fs)
    ensures var n := PREFIX_LEN + |fs[0].payload|;
            && n <= |stream| && AllFit(fs[1..], max)
            && BytesOf(stream[..n]) == WriteFrame(fs[0]).value
            && BytesOf(stream[n..]) == Wire(fs[1..])
  {
    assert |stream| == |BytesOf(stream)|;
    var bytes := WriteFrame(fs[0]).value;
    assert |bytes| == PREFIX_LEN + |fs[0].payload|;
    assert BytesOf(stream[..|bytes|]) == BytesOf(stream)[..|bytes|] == bytes;
    assert BytesOf(stream[|bytes|..]) == BytesOf(stream)[|bytes|..] == Wire(fs[1..]);
  }

  ghost predicate Feeds(feed: (Sink, seq<Timed>) -> Sink, s: Sink, stream: seq<Timed>, max: nat) {
    feed(s, stream) == Feed(s, stream, max)
  }

  /** `feed` is Feed at this maximum, by name. */
  ghost predicate Behaves(feed: (Sink, seq<Timed>) -> Sink, max: nat) {
    forall s, stream :: Feeds(feed, s, stream, max)
  }

  /** Feeding a stream past its first frame is feeding the rest after that frame's view. */
  lemma {:induction false} FirstFrameFed(feed: (Sink, seq<Timed>) -> Sink, s: Sink, f: Frame, stream: seq<Timed>,
                                         max: nat)
    requires Behaves(feed, max) && s.mode == BOUNDARY && Fits(f, max) && PREFIX_LEN + |f.payload| <= |stream|
    requires BytesOf(stream[..PREFIX_LEN + |f.payload|]) == WriteFrame(f).value
    ensures feed(s, stream) == feed(Seen(s, f, stream[0].at), stream[PREFIX_LEN + |f.payload|..])
  {
    var n := PREFIX_LEN + |f.payload|;
    assert stream == stream[..n] + stream[n..];
    FeedAppend(s, stream[..n], stream[n..], max);
    FeedFrame(s, f, stream[..n], max);
    assert Feeds(feed, s, stream, max) && Feeds(feed, Seen(s, f, stream[0].at), stream[n..], max);
  }

  lemma NothingFed(feed: (Sink, seq<Timed>) -> Sink, s: Sink, max: nat)
    requires Behaves(feed, max)
    ensures feed(s, []) == s
  {
    assert Feeds(feed, s, [], max);
  }

  /** The sink after one whole frame whose first byte came at `at`. */
  ghost function Seen(s: Sink, f: Frame, at: nat): Sink {
    var n := |f.payload|;
    Sink(BOUNDARY, s.views + [View(f.header, n, at, n, true)], s.payload + n)
  }

  /** The sink after all the frames of a stream. */
  ghost function AllSeen(s: Sink, fs: seq<Frame>, stream: seq<Timed>): Sink
    requires |stream| == Length(fs)
    decreases |fs|
  {
    if fs == [] then s
    else AllSeen(Seen(s, fs[0], stream[0].at), fs[1..], stream[PREFIX_LEN + |fs[0].payload|..])
  }

  lemma {:induction false} AllSeenIsViews(s: Sink, fs: seq<Frame>, stream: seq<Timed>)
    requires s.mode == BOUNDARY && |stream| == Length(fs)
    ensures AllSeen(s, fs, stream) == Sink(BOUNDARY, s.views + Views(fs, stream), s.payload + PayloadTotal(fs))
    decreases |fs|
  {
    if fs == [] {
      assert s.views + Views(fs, stream) == s.views;
    } else {
      var n := |fs[0].payload|;
      var view := View(fs[0].header, n, stream[0].at, n, true);
      var rest := stream[PREFIX_LEN + n..];
      AllSeenIsViews(Seen(s, fs[0], stream[0].at), fs[1..], rest);
      assert (s.views + [view]) + Views(fs[1..], rest) == s.views + ([view] + Views(fs[1..], rest));
    }
  }

  lemma {:induction false} FramesFed(feed: (Sink, seq<Timed>) -> Sink, s: Sink, fs: seq<Frame>, stream: seq<Timed>,
                                     max: nat)
    requires Behaves(feed, max) && s.mode == BOUNDARY && AllFit(fs, max)
    requires BytesOf(stream) == Wire(fs)
    ensures |stream| == Length(fs) && feed(s, stream) == AllSeen(s, fs, stream)
    decreases |fs|
  {
    assert |stream| == |BytesOf(stream)|;
    if fs == [] {
      NothingFed(feed, s, max);
    } else {
      SplitFirst(fs, stream, max);
      FirstFrameFed(feed, s, fs[0], stream, max);
      FramesFed(feed, Seen(s, fs[0], stream[0].at), fs[1..], stream[PREFIX_LEN + |fs[0].payload|..], max);
    }
  }

  lemma {:induction false} FeedFrames(s: Sink, fs: seq<Frame>, stream: seq<Timed>, max: nat)
    requires s.mode == BOUNDARY && AllFit(fs, max)
    requires BytesOf(stream) == Wire(fs)
    ensures |stream| == Length(fs)
    ensures Feed(s, stream, max) == Sink(BOUNDARY, s.views + Views(fs, stream), s.payload + PayloadTotal(fs))
  {
    FramesFed((t, x) => Feed(t, x, max), s, fs, stream, max);
    AllSeenIsViews(s, fs, stream);
  }

  // ----- Cuts --------------------------------------------------------------

  /** `n` bytes of the stream are a whole number of frames. */
  ghost predicate OnEdge(fs: seq<Frame>, n: nat) {
    n == 0 || (fs != [] && n >= PREFIX_LEN + |fs[0].payload| && OnEdge(fs[1..], n - PREFIX_LEN - |fs[0].payload|))
  }

  lemma {:induction false} CutInsideFrame(s: Sink, f: Frame, stream: seq<Timed>, n: nat, max: nat)
    requires s.mode == BOUNDARY && Fits(f, max) && BytesOf(stream) == WriteFrame(f).value
    requires 0 < n < |stream|
    ensures Feed(s, stream[..n], max).mode != BOUNDARY && !Feed(s, stream[..n], max).mode.Refused?
  {
    assert |stream| == |BytesOf(stream)|;
    if n < PREFIX_LEN {
      FeedPrefix(s, stream[..n], max);
    } else {
      var head, body := stream[..PREFIX_LEN], stream[PREFIX_LEN..n];
      assert stream[..n] == head + body;
      assert BytesOf(head) == WriteFrame(f).value[..PREFIX_LEN];
      FeedAppend(s, head, body, max);
      FeedHeader(s, f, head, max);
      if body != [] {
        FeedPayload(Feed(s, head, max), body, max);
      }
    }
  }

  lemma {:induction false} CutFed(feed: (Sink, seq<Timed>) -> Sink, s: Sink, fs: seq<Frame>, stream: seq<Timed>, n: nat,
                                  max: nat)
    requires Behaves(feed, max) && s.mode == BOUNDARY && AllFit(fs, max)
    requires BytesOf(stream) == Wire(fs) && n <= |stream|
    ensures feed(s, stream[..n]).mode == BOUNDARY <==> OnEdge(fs, n)
    decreases |fs|
  {
    assert |stream| == |BytesOf(stream)|;
    if n == 0 {
      NothingFed(feed, s, max);
    } else {
      SplitFirst(fs, stream, max);
      var len := PREFIX_LEN + |fs[0].payload|;
      var first, rest := stream[..len], stream[len..];
      if n < len {
        assert stream[..n] == first[..n];
        CutInsideFrame(s, fs[0], first, n, max);
        assert Feeds(feed, s, first[..n], max);
      } else {
        assert stream[..n][..len] == first && stream[..n][len..] == rest[..n - len];
        FirstFrameFed(feed, s, fs[0], stream[..n], max);
        CutFed(feed, Seen(s, fs[0], stream[0].at), fs[1..], rest, n - len, max);
      }
    }
  }

  /** A stream cut after `n` bytes is at a boundary exactly when the cut falls between frames. */
  lemma {:induction false} CutIsSeen(s: Sink, fs: seq<Frame>, stream: seq<Timed>, n: nat, max: nat)
    requires s.mode == BOUNDARY && AllFit(fs, max)
    requires BytesOf(stream) == Wire(fs) && n <= |stream|
    ensures Feed(s, stream[..n], max).mode == BOUNDARY <==> OnEdge(fs, n)
  {
    CutFed((t, x) => Feed(t, x, max), s, fs, stream, n, max);
  }

  // ----- Chunks ------------------------------------------------------------

  datatype Chunk = Chunk(data: seq<Byte>, now: nat)

  ghost function Flatten(chunks: seq<Chunk>): seq<Timed> {
    if chunks == [] then []
    else Flatten(chunks[..|chunks| - 1]) + Stamp(chunks[|chunks| - 1].data, chunks[|chunks| - 1].now)
  }

  /** One push per chunk. */
  ghost function FeedChunks(s: Sink, chunks: seq<Chunk>, max: nat): Sink
    decreases |chunks|
  {
    if chunks == [] then s
    else Feed(FeedChunks(s, chunks[..|chunks| - 1], max),
              Stamp(chunks[|chunks| - 1].data, chunks[|chunks| - 1].now), max)
  }

  lemma {:induction false} ChunksAreBytes(s: Sink, chunks: seq<Chunk>, max: nat)
    ensures FeedChunks(s, chunks, max) == Feed(s, Flatten(chunks), max)
    decreases |chunks|
  {
    if chunks != [] {
      var past, last := chunks[..|chunks| - 1], chunks[|chunks| - 1];
      ChunksAreBytes(s, past, max);
      FeedAppend(s, Flatten(past), Stamp(last.data, last.now), max);
    }
  }

  /**
   Any chunking of any frames written: the frames come out in order with their
   headers, lengths, whole payloads and completions, the payload counts add up
   to the payload sent, and the parser ends at a boundary.
  */
  lemma {:induction false} AnyChunking(fs: seq<Frame>, chunks: seq<Chunk>, max: nat)
    requires AllFit(fs, max)
    requires BytesOf(Flatten(chunks)) == Wire(fs)
    ensures |Flatten(chunks)| == Length(fs)
    ensures FeedChunks(NOTHING, chunks, max)
            == Sink(BOUNDARY, Views(fs, Flatten(chunks)), PayloadTotal(fs))
  {
    ChunksAreBytes(Sink(BOUNDARY, [], 0), chunks, max);
    FeedFrames(Sink(BOUNDARY, [], 0), fs, Flatten(chunks), max);
    assert [] + Views(fs, Flatten(chunks)) == Views(fs, Flatten(chunks));
  }

  // ----- Reading a stream to its end ---------------------------------------

  const NOTHING := Sink(BOUNDARY, [], 0)

  datatype Read = All(payload: nat) | CutShort | FrameTooLong(len: nat)

  lemma {:induction false} RefusalStands(s: Sink, chunks: seq<Chunk>, i: nat, max: nat)
    requires i <= |chunks| && FeedChunks(s, chunks[..i], max).mode.Refused?
    ensures FeedChunks(s, chunks, max) == FeedChunks(s, chunks[..i], max)
    decreases |chunks| - i
  {
    if i < |chunks| {
      var fed := FeedChunks(s, chunks[..i], max);
      assert chunks[..i + 1][..i] == chunks[..i];
      RefusedStays(fed, Stamp(chunks[i].data, chunks[i].now), max);
      RefusalStands(s, chunks, i + 1, max);
    } else {
      assert chunks[..i] == chunks;
    }
  }

  /**
   Reads chunks until the stream ends: all of it only if it ends between
   frames, and nothing once a frame is too long.
  */
  method ReadFrames(chunks: seq<Chunk>, max: nat) returns (r: Read, events: seq<Event>)
    ensures var end := FeedChunks(NOTHING, chunks, max);
            && (r.All? <==> end.mode == BOUNDARY)
            && (r.FrameTooLong? <==> end.mode.Refused?)
            && (r.All? ==> r.payload == end.payload)
            && (r.FrameTooLong? ==> end.mode == Refused(r.len))
            && (!r.FrameTooLong? ==> ObserveAll([], events) == end.views)
  {
    var parser := new FrameParser(max);
    var total: nat := 0;
    events := [];
    ghost var sink := NOTHING;
    for i := 0 to |chunks|
      invariant fresh(parser) && fresh(parser.prefix) && parser.Valid() && parser.maxLen == max
      invariant sink == FeedChunks(NOTHING, chunks[..i], max)
      invariant sink == Sink(parser.ModeOf(), ObserveAll([], events), total) && parser.Follows(sink.views)
    {
      assert chunks[..i + 1][..i] == chunks[..i];
      var pushed, more := parser.Push(chunks[i].data, chunks[i].now, sink);
      sink := Feed(sink, Stamp(chunks[i].data, chunks[i].now), max);
      if pushed.TooLong? {
        RefusalStands(NOTHING, chunks, i + 1, max);
        return FrameTooLong(pushed.len), events;
      }
      ObserveAppend([], events, more);
      events, total := events + more, total + pushed.payload;
    }
    assert chunks[..|chunks|] == chunks;
    r := if parser.AtBoundary() then All(total) else CutShort;
  }

  /**
   End to end: of any frames written, cut after any number of bytes and
   chunked in any way, the reader accepts exactly the cuts between frames, and
   the whole stream with all its payload.
  */
  lemma {:induction false} WrittenIsRead(fs: seq<Frame>, stream: seq<Timed>, chunks: seq<Chunk>, n: nat, max: nat)
    requires AllFit(fs, max) && BytesOf(stream) == Wire(fs) && n <= |stream| && Flatten(chunks) == stream[..n]
    ensures var end := FeedChunks(NOTHING, chunks, max);
            && (end.mode == BOUNDARY <==> OnEdge(fs, n))
            && (n == |stream| ==> |stream| == Length(fs) && end == Sink(BOUNDARY, Views(fs, stream), PayloadTotal(fs)))
  {
    ChunksAreBytes(NOTHING, chunks, max);
    CutIsSeen(NOTHING, fs, stream, n, max);
    if n == |stream| {
      assert stream[..n] == stream;
      FeedFrames(NOTHING, fs, stream, max);
      assert [] + Views(fs, stream) == Views(fs, stream);
    }
  }
}
