/**
 The incremental parser of the video framing, `[u32 length][18-byte header]
 [payload]`. The reference reads one timed byte at a time; the parser takes a
 chunk's worth of prefix or payload at once. Feeding chunks is shown to be
 feeding their bytes, so no chunking can change what is observed.
*/
module FrameParser {
  import opened Options
  import opened Codec
  import opened Words

  const PREFIX_LEN := 4 + FRAME_LEN

  /** A byte and the arrival time of the chunk it came in. */
  datatype Timed = Timed(byte: Byte, at: nat)

  /** What a receiver knows of one frame. */
  datatype View = View(header: FrameHeader, len: nat, first: nat, got: nat, done: bool)

  datatype Mode =
    | Prefix(bytes: seq<Byte>, first: nat)
    | Payload(frameNo: U32, remaining: nat)
    | Refused(len: nat)

  const BOUNDARY := Prefix([], 0)

  datatype Sink = Sink(mode: Mode, views: seq<View>, payload: nat)

  // ----- The reference: one byte at a time ---------------------------------

  /** A frame of `len` payload bytes begins, unless it is too long. */
  ghost function Begun(s: Sink, len: nat, header: FrameHeader, first: nat, max: nat): Sink {
    if len > max then s.(mode := Refused(len))
    else Sink(if len == 0 then BOUNDARY else Payload(header.frameNo, len),
              s.views + [View(header, len, first, 0, len == 0)], s.payload)
  }

  ghost function PrefixDone(s: Sink, prefix: seq<Byte>, first: nat, max: nat): Sink
    requires |prefix| == PREFIX_LEN
  {
    Begun(s, BeU32(prefix[..4]), FrameOf(prefix[4..]), first, max)
  }

  /** `n` more payload bytes of the last frame seen, which completes if `last`. */
  ghost function Gain(views: seq<View>, n: nat, last: bool): seq<View> {
    if views == [] then []
    else
      var v := views[|views| - 1];
      views[..|views| - 1] + [v.(got := v.got + n, done := v.done || last)]
  }

  ghost function FeedByte(s: Sink, b: Timed, max: nat): Sink {
    match s.mode
    case Prefix(bytes, first) =>
      var first' := if bytes == [] then b.at else first;
      var bytes' := bytes + [b.byte];
      if |bytes'| == PREFIX_LEN then PrefixDone(s, bytes', first', max)
      else s.(mode := Prefix(bytes', first'))
    case Payload(no, remaining) =>
      Sink(if remaining <= 1 then BOUNDARY else Payload(no, remaining - 1),
           Gain(s.views, 1, remaining <= 1), s.payload + 1)
    case Refused(_) => s
  }

  ghost function Feed(s: Sink, stream: seq<Timed>, max: nat): Sink {
    if stream == [] then s
    else FeedByte(Feed(s, stream[..|stream| - 1], max), stream[|stream| - 1], max)
  }

  lemma {:induction false} FeedAppend(s: Sink, a: seq<Timed>, b: seq<Timed>, max: nat)
    ensures Feed(s, a + b, max) == Feed(Feed(s, a, max), b, max)
    decreases |b|
  {
    if b == [] {
      assert a + b == a;
    } else {
      assert (a + b)[..|a + b| - 1] == a + b[..|b| - 1];
      FeedAppend(s, a, b[..|b| - 1], max);
    }
  }

  ghost function BytesOf(stream: seq<Timed>): seq<Byte> {
    seq(|stream|, i requires 0 <= i < |stream| => stream[i].byte)
  }

  // ----- Runs of bytes within one mode -------------------------------------

  lemma {:induction false} FeedPrefix(s: Sink, stream: seq<Timed>, max: nat)
    requires s.mode.Prefix? && |s.mode.bytes| + |stream| < PREFIX_LEN && stream != []
    ensures Feed(s, stream, max)
            == s.(mode := Prefix(s.mode.bytes + BytesOf(stream),
                                 if s.mode.bytes == [] then stream[0].at else s.mode.first))
    decreases |stream|
  {
    var front := stream[..|stream| - 1];
    if front == [] {
      assert s.mode.bytes + BytesOf(stream) == s.mode.bytes + [stream[0].byte];
    } else {
      FeedPrefix(s, front, max);
      assert s.mode.bytes + BytesOf(stream) == s.mode.bytes + BytesOf(front) + [stream[|stream| - 1].byte];
    }
  }

  lemma {:induction false} FeedWholePrefix(s: Sink, stream: seq<Timed>, max: nat)
    requires s.mode.Prefix? && |s.mode.bytes| < PREFIX_LEN && |s.mode.bytes| + |stream| == PREFIX_LEN
    ensures Feed(s, stream, max)
            == PrefixDone(s, s.mode.bytes + BytesOf(stream),
                          if s.mode.bytes == [] then stream[0].at else s.mode.first, max)
  {
    var front := stream[..|stream| - 1];
    assert s.mode.bytes + BytesOf(stream) == s.mode.bytes + BytesOf(front) + [stream[|stream| - 1].byte];
    if front != [] {
      FeedPrefix(s, front, max);
    } else {
      assert s.mode.bytes + BytesOf(front) == s.mode.bytes;
    }
  }

  lemma {:induction false} FeedPayload(s: Sink, stream: seq<Timed>, max: nat)
    requires s.mode.Payload? && 0 < |stream| <= s.mode.remaining
    ensures Feed(s, stream, max)
            == Sink(if |stream| == s.mode.remaining then BOUNDARY
                    else Payload(s.mode.frameNo, s.mode.remaining - |stream|),
                    Gain(s.views, |stream|, |stream| == s.mode.remaining), s.payload + |stream|)
    decreases |stream|
  {
    var front := stream[..|stream| - 1];
    if front != [] {
      FeedPayload(s, front, max);
    }
  }

  // ----- The parser --------------------------------------------------------

  datatype Event =
    | Started(header: FrameHeader, len: nat, first: nat)
    | GotPayload(frameNo: U32, bytes: nat)
    | Completed(frameNo: U32)

  /** What a receiver makes of one event; payload and completions must name the last frame. */
  ghost function Observe(views: seq<View>, e: Event): seq<View> {
    match e
    case Started(header, len, first) => views + [View(header, len, first, 0, false)]
    case GotPayload(no, n) =>
      if views != [] && views[|views| - 1].header.frameNo == no then Gain(views, n, false) else []
    case Completed(no) =>
      if views != [] && views[|views| - 1].header.frameNo == no then Gain(views, 0, true) else []
  }

  ghost function ObserveAll(views: seq<View>, events: seq<Event>): seq<View> {
    if events == [] then views
    else Observe(ObserveAll(views, events[..|events| - 1]), events[|events| - 1])
  }

  lemma {:induction false} ObserveOne(views: seq<View>, events: seq<Event>, e: Event)
    ensures ObserveAll(views, events + [e]) == Observe(ObserveAll(views, events), e)
  {
    assert (events + [e])[..|events|] == events;
  }

  lemma {:induction false} ObserveAppend(views: seq<View>, a: seq<Event>, b: seq<Event>)
    ensures ObserveAll(views, a + b) == ObserveAll(ObserveAll(views, a), b)
    decreases |b|
  {
    if b == [] {
      assert a + b == a;
    } else {
      assert (a + b)[..|a + b| - 1] == a + b[..|b| - 1];
      ObserveAppend(views, a, b[..|b| - 1]);
    }
  }

  datatype PushResult = Pushed(payload: nat) | TooLong(len: nat)

  ghost function Stamp(data: seq<Byte>, now: nat): (r: seq<Timed>)
    ensures |r| == |data|
  {
    seq(|data|, i requires 0 <= i < |data| => Timed(data[i], now))
  }

  lemma StampSplit(data: seq<Byte>, i: nat, j: nat, now: nat)
    requires i <= j <= |data|
    ensures Stamp(data[..j], now) == Stamp(data[..i], now) + Stamp(data[i..j], now)
    ensures BytesOf(Stamp(data[i..j], now)) == data[i..j]
  {
  }

  lemma {:induction false} FeedOn(s: Sink, data: seq<Byte>, i: nat, j: nat, now: nat, max: nat)
    requires i <= j <= |data|
    ensures Feed(s, Stamp(data[..j], now), max)
            == Feed(Feed(s, Stamp(data[..i], now), max), Stamp(data[i..j], now), max)
  {
    StampSplit(data, i, j, now);
    FeedAppend(s, Stamp(data[..i], now), Stamp(data[i..j], now), max);
  }

  ghost predicate Link(track: nat -> Sink, data: seq<Byte>, i: nat, j: nat, now: nat, max: nat) {
    i <= j <= |data| ==> track(j) == Feed(track(i), Stamp(data[i..j], now), max)
  }

  /** `track(k)` is the sink after the first `k` bytes. */
  ghost predicate Tracks(track: nat -> Sink, sink: Sink, data: seq<Byte>, now: nat, max: nat) {
    track(0) == sink && forall i: nat, j: nat :: Link(track, data, i, j, now, max)
  }

  lemma {:induction false} TrackIsFeed(sink: Sink, data: seq<Byte>, now: nat, max: nat, track: nat -> Sink)
    requires forall k :: 0 <= k <= |data| ==> track(k) == Feed(sink, Stamp(data[..k], now), max)
    ensures Tracks(track, sink, data, now, max)
  {
    assert Stamp(data[..0], now) == [];
    forall i: nat, j: nat ensures Link(track, data, i, j, now, max) {
      if i <= j <= |data| {
        FeedOn(sink, data, i, j, now, max);
      }
    }
  }

  lemma {:induction false} FeedChunkOfPrefix(s: Sink, chunk: seq<Byte>, now: nat, max: nat)
    requires s.mode.Prefix? && chunk != [] && |s.mode.bytes| < PREFIX_LEN
    requires |s.mode.bytes| + |chunk| <= PREFIX_LEN
    ensures var bytes, first := s.mode.bytes + chunk, if s.mode.bytes == [] then now else s.mode.first;
            Feed(s, Stamp(chunk, now), max)
            == if |bytes| < PREFIX_LEN then s.(mode := Prefix(bytes, first)) else PrefixDone(s, bytes, first, max)
  {
    assert BytesOf(Stamp(chunk, now)) == chunk;
    if |s.mode.bytes| + |chunk| < PREFIX_LEN {
      FeedPrefix(s, Stamp(chunk, now), max);
    } else {
      FeedWholePrefix(s, Stamp(chunk, now), max);
    }
  }

  class FrameParser {
    const prefix: array<Byte>
    var have: nat
    var prefixFirst: nat
    var current: Option<U32>
    var remaining: nat
    const maxLen: nat

    constructor (maxLen: nat)
      ensures Valid() && ModeOf() == BOUNDARY && this.maxLen == maxLen && fresh(prefix)
    {
      prefix := new Byte[PREFIX_LEN](_ => 0);
      have, prefixFirst, current, remaining := 0, 0, None, 0;
      this.maxLen := maxLen;
    }

    ghost predicate Valid()
      reads this
    {
      && prefix.Length == PREFIX_LEN && have < PREFIX_LEN
      && (current.Some? ==> have == 0 && remaining > 0)
    }

    ghost function ModeOf(): Mode
      requires Valid()
      reads this, prefix
    {
      if current.Some? then Payload(current.value, remaining)
      else if have == 0 then BOUNDARY
      else Prefix(prefix[..have], prefixFirst)
    }

    /** The views a receiver holds are of the frame this parser is in. */
    ghost predicate Follows(views: seq<View>)
      reads this
    {
      current.Some? ==> views != [] && views[|views| - 1].header.frameNo == current.value
                        && !views[|views| - 1].done
    }

    /** A clean place for the stream to end. */
    predicate AtBoundary()
      requires Valid()
      reads this, prefix
      ensures AtBoundary() <==> ModeOf() == BOUNDARY
    {
      have == 0 && current.None?
    }

    /**
     One chunk read at `now`. For any receiver that has followed so far, the
     events add up to what the bytes one by one would have added, and the
     returned payload to their payload; the chunk is refused exactly when its
     bytes would be.
    */
    method Push(data: seq<Byte>, now: nat, ghost sink: Sink) returns (r: PushResult, events: seq<Event>)
      requires Valid() && sink.mode == ModeOf() && Follows(sink.views)
      modifies this, prefix
      ensures Valid()
      ensures var fed := Feed(sink, Stamp(data, now), maxLen);
              && (r.TooLong? <==> fed.mode.Refused?)
              && (r.Pushed? ==> && fed == Sink(ModeOf(), ObserveAll(sink.views, events), sink.payload + r.payload)
                                && Follows(fed.views))
              && (r.TooLong? ==> fed == Sink(Refused(r.len), ObserveAll(sink.views, events), fed.payload))
    {
      ghost var track := (k: nat) => if k <= |data| then Feed(sink, Stamp(data[..k], now), maxLen) else sink;
      TrackIsFeed(sink, data, now, maxLen, track);
      r, events := PushAll(data, now, sink, track);
      assert data[..|data|] == data;
    }

    /** `track` gives what the bytes so far should have added. */
    method PushAll(data: seq<Byte>, now: nat, ghost sink: Sink, ghost track: nat -> Sink)
      returns (r: PushResult, events: seq<Event>)
      requires Valid() && sink.mode == ModeOf() && Follows(sink.views)
      requires Tracks(track, sink, data, now, maxLen)
      modifies this, prefix
      ensures Valid()
      ensures if r.Pushed?
              then track(|data|) == Sink(ModeOf(), ObserveAll(sink.views, events), sink.payload + r.payload)
                   && Follows(track(|data|).views)
              else track(|data|) == Sink(Refused(r.len), ObserveAll(sink.views, events), track(|data|).payload)
    {
      var payload: nat := 0;
      events := [];
      var i := 0;
      while i < |data|
        invariant 0 <= i <= |data| && Valid() && Follows(track(i).views)
        invariant track(i) == Sink(ModeOf(), ObserveAll(sink.views, events), sink.payload + payload)
      {
        var take, refused, got, more := TakeSome(data, i, now, sink, track);
        if refused.Some? {
          return TooLong(refused.value), events;
        }
        ObserveAppend(sink.views, events, more);
        events, payload, i := events + more, payload + got, i + take;
      }
      r := Pushed(payload);
    }

    /** As much of the chunk, from `i` on, as belongs to the prefix or payload being read. */
    method TakeSome(data: seq<Byte>, i: nat, now: nat, ghost sink: Sink, ghost track: nat -> Sink)
      returns (take: nat, refused: Option<nat>, got: nat, events: seq<Event>)
      requires i < |data| && Valid() && track(i).mode == ModeOf() && Follows(track(i).views)
      requires Tracks(track, sink, data, now, maxLen)
      modifies this, prefix
      ensures Valid() && 0 < take <= |data| - i
      ensures if refused.Some? then track(|data|) == track(i).(mode := Refused(refused.value))
              else
                && track(i + take) == Sink(ModeOf(), ObserveAll(track(i).views, events), track(i).payload + got)
                && Follows(track(i + take).views)
    {
      var room := if current.Some? then remaining else PREFIX_LEN - have;
      take := if room < |data| - i then room else |data| - i;
      var chunk := data[i..i + take];
      assert Link(track, data, i, i + take, now, maxLen);
      if current.Some? {
        events := TakePayload(chunk, now, track(i));
        refused, got := None, take;
      } else {
        refused, events := TakePrefix(chunk, now, track(i));
        got := 0;
        if refused.Some? {
          assert Link(track, data, i + take, |data|, now, maxLen);
          RefusedStays(track(i + take), Stamp(data[i + take..|data|], now), maxLen);
        }
      }
    }

    /** Payload of the current frame, which may complete it. */
    method TakePayload(chunk: seq<Byte>, now: nat, ghost fed: Sink) returns (events: seq<Event>)
      requires Valid() && current.Some? && 0 < |chunk| <= remaining
      requires fed.mode == ModeOf() && Follows(fed.views)
      modifies this`remaining, this`current
      ensures Valid()
      ensures Feed(fed, Stamp(chunk, now), maxLen)
              == Sink(ModeOf(), ObserveAll(fed.views, events), fed.payload + |chunk|)
      ensures Follows(ObserveAll(fed.views, events))
    {
      FeedPayload(fed, Stamp(chunk, now), maxLen);
      var frameNo := current.value;
      remaining := remaining - |chunk|;
      events := [GotPayload(frameNo, |chunk|)];
      ObserveOne(fed.views, [], GotPayload(frameNo, |chunk|));
      if remaining == 0 {
        ObserveOne(fed.views, events, Completed(frameNo));
        events := events + [Completed(frameNo)];
        current := None;
      }
    }

    /** Bytes of a prefix; the last one starts the frame, unless it is too long. */
    method TakePrefix(chunk: seq<Byte>, now: nat, ghost fed: Sink)
      returns (refused: Option<nat>, events: seq<Event>)
      requires Valid() && current.None? && 0 < |chunk| <= PREFIX_LEN - have
      requires fed.mode == ModeOf()
      modifies this, prefix
      ensures Valid()
      ensures refused.Some? ==> && events == []
                                && Feed(fed, Stamp(chunk, now), maxLen) == fed.(mode := Refused(refused.value))
      ensures refused.None? ==> && Feed(fed, Stamp(chunk, now), maxLen)
                                   == Sink(ModeOf(), ObserveAll(fed.views, events), fed.payload)
                                && Follows(ObserveAll(fed.views, events))
    {
      ghost var bytes := prefix[..have];
      assert bytes == fed.mode.bytes;
      FeedChunkOfPrefix(fed, chunk, now, maxLen);
      var len := CopyPrefix(chunk, now);
      if len < PREFIX_LEN {
        return None, [];
      }
      var whole := prefix[..];
      assert whole == prefix[..len];
      refused, events := StartFrame(BeU32(whole[..4]), FrameOf(whole[4..]), fed);
    }

    /** The prefix is complete, and holds this length and this header. */
    method StartFrame(size: nat, header: FrameHeader, ghost fed: Sink)
      returns (refused: Option<nat>, events: seq<Event>)
      requires prefix.Length == PREFIX_LEN && current.None?
      modifies this`have, this`current, this`remaining
      ensures Valid()
      ensures var begun := Begun(fed, size, header, prefixFirst, maxLen);
              if refused.Some? then events == [] && begun == fed.(mode := Refused(refused.value))
              else
                && begun == Sink(ModeOf(), ObserveAll(fed.views, events), fed.payload)
                && Follows(ObserveAll(fed.views, events))
    {
      have := 0;
      if size > maxLen {
        return Some(size), [];
      }
      events := [Started(header, size, prefixFirst)];
      ObserveOne(fed.views, [], Started(header, size, prefixFirst));
      if size == 0 {
        ObserveOne(fed.views, events, Completed(header.frameNo));
        events := events + [Completed(header.frameNo)];
      } else {
        current := Some(header.frameNo);
        remaining := size;
      }
      refused := None;
    }

    /** Copy into the prefix buffer; the first byte of a prefix stamps its arrival. */
    method CopyPrefix(chunk: seq<Byte>, now: nat) returns (len: nat)
      requires Valid() && current.None? && 0 < |chunk| <= PREFIX_LEN - have
      modifies this`have, this`prefixFirst, prefix
      ensures len == old(have) + |chunk| && have == len
      ensures prefix[..len] == old(prefix[..have]) + chunk
      ensures prefixFirst == if old(have) == 0 then now else old(prefixFirst)
    {
      if have == 0 {
        prefixFirst := now;
      }
      ghost var before := prefix[..have];
      for i := 0 to |chunk|
        invariant have == old(have) && prefix[..have] == before
        invariant prefixFirst == if have == 0 then now else old(prefixFirst)
        invariant forall j :: 0 <= j < i ==> prefix[have + j] == chunk[j]
      {
        prefix[have + i] := chunk[i];
      }
      have := have + |chunk|;
      len := have;
      assert prefix[..len] == before + chunk;
    }
  }

  /** Once refused, later bytes change nothing. */
  lemma {:induction false} RefusedStays(s: Sink, stream: seq<Timed>, max: nat)
    requires s.mode.Refused?
    ensures Feed(s, stream, max) == s
    decreases |stream|
  {
    if stream != [] {
      RefusedStays(s, stream[..|stream| - 1], max);
    }
  }
}
