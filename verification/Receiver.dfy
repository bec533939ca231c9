/**
 Receiver accounting: payload counted in 250 ms buckets, per stream and in
 total, against the plain log of what was received.
*/
module Receiver {
  import opened Options
  import opened Words

  const BUCKET_MS: nat := 250

  const BUCKET_NS: nat := 250_000_000

  const STREAMS: nat := 0x1_0000

  type StreamIndex = U16

  datatype StreamStats = StreamStats(stream: StreamIndex, bytes: nat, first: nat, last: nat)

  datatype Stats = Stats(epoch: nat, bucketMs: nat, buckets: seq<nat>, last: nat, total: nat,
                         streams: seq<StreamStats>)

  function Monus(a: nat, b: nat): nat {
    if a < b then 0 else a - b
  }

  /** The bucket of a time; a time before the epoch counts in bucket 0. */
  function Index(at: nat, epoch: nat): nat {
    Monus(at, epoch) / BUCKET_NS
  }

  // ----- The plain log -----------------------------------------------------

  datatype Entry = Entry(stream: StreamIndex, bytes: nat, at: nat)

  datatype Log = Empty | Then(past: Log, entry: Entry)

  ghost predicate Logged(log: Log, e: Entry) {
    log.Then? && (e == log.entry || Logged(log.past, e))
  }

  /** The time of the first payload. */
  ghost function Epoch(log: Log): Option<nat> {
    if log.Empty? then None
    else if Epoch(log.past).Some? then Epoch(log.past)
    else if log.entry.bytes > 0 then Some(log.entry.at)
    else None
  }

  /** The latest time of any payload, 0 when there was none. */
  ghost function Last(log: Log): nat {
    if log.Empty? then 0
    else if log.entry.bytes > 0 then Max(Last(log.past), log.entry.at)
    else Last(log.past)
  }

  ghost function Total(log: Log): nat {
    if log.Empty? then 0 else Total(log.past) + log.entry.bytes
  }

  ghost function OnStream(log: Log, stream: int): nat {
    if log.Empty? then 0
    else OnStream(log.past, stream) + (if log.entry.stream == stream then log.entry.bytes else 0)
  }

  /** Bytes read, their time raised to at least `epoch`, in `[from, to)`. */
  ghost function Between(log: Log, epoch: nat, from: nat, to: nat): nat {
    if log.Empty? then 0
    else Between(log.past, epoch, from, to)
         + (if from <= Max(log.entry.at, epoch) < to then log.entry.bytes else 0)
  }

  ghost function InBucket(log: Log, epoch: nat, i: int): nat {
    if log.Empty? then 0
    else InBucket(log.past, epoch, i) + (if Index(log.entry.at, epoch) == i then log.entry.bytes else 0)
  }

  /** Bytes read, their time raised to at least `epoch`, at or after `from`. */
  ghost function Since(log: Log, epoch: nat, from: nat): nat {
    if log.Empty? then 0
    else Since(log.past, epoch, from) + (if from <= Max(log.entry.at, epoch) then log.entry.bytes else 0)
  }

  ghost predicate Carried(log: Log, stream: int, e: Entry) {
    Logged(log, e) && e.stream == stream && e.bytes > 0
  }

  /** `s` is what the log says of one stream that carried payload. */
  ghost predicate Describes(log: Log, stream: int, s: StreamStats) {
    && s.stream == stream
    && s.bytes == OnStream(log, stream)
    && (exists e :: Carried(log, stream, e) && e.at == s.first)
    && (exists e :: Carried(log, stream, e) && e.at == s.last)
    && (forall e :: Carried(log, stream, e) ==> s.first <= e.at <= s.last)
  }

  // ----- The live counter --------------------------------------------------

  /** The buckets count the log from `epoch` on, and reach exactly to `last`. */
  ghost predicate BucketsCount(log: Log, epoch: nat, last: nat, buckets: seq<nat>) {
    && epoch <= last
    && |buckets| == Index(last, epoch) + 1
    && forall i :: 0 <= i < |buckets| ==> buckets[i] == InBucket(log, epoch, i)
  }

  ghost predicate BucketsFit(log: Log, epoch: Option<nat>, last: nat, buckets: seq<nat>) {
    && epoch == Epoch(log)
    && if epoch.None? then buckets == [] else BucketsCount(log, epoch.value, last, buckets)
  }

  ghost predicate StreamsCount(log: Log, streams: map<StreamIndex, StreamStats>) {
    && (forall s :: s in streams ==> Describes(log, s, streams[s]))
    && (forall s: StreamIndex :: OnStream(log, s) > 0 ==> s in streams)
  }

  class ReceiverAccounting {
    var epoch: Option<nat>
    var buckets: seq<nat>
    var last: nat
    var total: nat
    var streams: map<StreamIndex, StreamStats>
    ghost var log: Log

    ghost predicate Valid()
      reads this
    {
      && total == Total(log) && last == Last(log)
      && BucketsFit(log, epoch, last, buckets)
      && StreamsCount(log, streams)
    }

    constructor ()
      ensures Valid() && log == Empty
    {
      epoch, buckets, last, total, streams := None, [], 0, 0, map[];
      log := Empty;
    }

    /** Every count keeps agreeing with the log, whatever the order of times. */
    method Record(stream: StreamIndex, bytes: nat, at: nat)
      requires Valid()
      modifies this
      ensures Valid() && log == Then(old(log), Entry(stream, bytes, at))
    {
      ghost var was, e := log, Entry(stream, bytes, at);
      StreamsGrow(was, e, streams);
      BucketsGrow(was, e, epoch, buckets);
      log := Then(was, e);
      if bytes == 0 {
        return;
      }
      if epoch.None? {
        epoch := Some(at);
      }
      var idx := Index(at, epoch.value);
      if idx >= |buckets| {
        buckets := Resized(buckets, idx + 1);
      }
      buckets := buckets[idx := buckets[idx] + bytes];
      total := total + bytes;
      last := Max(last, at);
      CountStream(stream, bytes, at);
    }

    method CountStream(stream: StreamIndex, bytes: nat, at: nat)
      modifies this`streams
      ensures streams == Counted(old(streams), Entry(stream, bytes, at))
    {
      if stream !in streams {
        streams := streams[stream := StreamStats(stream, 0, at, at)];
      }
      var s := streams[stream];
      streams := streams[stream := s.(bytes := s.bytes + bytes, first := Min(s.first, at), last := Max(s.last, at))];
    }

    method Snapshot() returns (stats: Stats)
      requires Valid()
      ensures Honest(stats, log)
    {
      stats := Stats(if epoch.Some? then epoch.value else 0, BUCKET_MS, buckets, last, total,
                     InOrder(streams, STREAMS));
      Quiet(log);
      ghost var m := streams;
      assert StreamsCount(log, m) && stats.streams == InOrder(m, STREAMS);
    }
  }

  function Counted(streams: map<StreamIndex, StreamStats>, e: Entry): map<StreamIndex, StreamStats> {
    var s := if e.stream in streams then streams[e.stream] else StreamStats(e.stream, 0, e.at, e.at);
    streams[e.stream := s.(bytes := s.bytes + e.bytes, first := Min(s.first, e.at), last := Max(s.last, e.at))]
  }

  /** The streams below `n`, by index. */
  function InOrder(streams: map<StreamIndex, StreamStats>, n: nat): seq<StreamStats>
    requires n <= STREAMS
  {
    if n == 0 then []
    else InOrder(streams, n - 1) + (if n - 1 in streams then [streams[n - 1]] else [])
  }

  /** What a snapshot taken after `log` says. */
  ghost predicate Honest(stats: Stats, log: Log) {
    && stats.bucketMs == BUCKET_MS && stats.total == Total(log) && stats.last == Last(log)
    && BucketsFit(log, Epoch(log), stats.last, stats.buckets)
    && stats.epoch == (if Epoch(log).Some? then Epoch(log).value else 0)
    && (exists m :: StreamsCount(log, m) && stats.streams == InOrder(m, STREAMS))
  }

  // ----- One more record ---------------------------------------------------

  lemma {:induction false} Quiet(log: Log)
    ensures Epoch(log).None? <==> Total(log) == 0
    ensures Epoch(log).None? ==> Last(log) == 0
    ensures Epoch(log).Some? ==> Epoch(log).value <= Last(log)
  {
    if log.Then? {
      Quiet(log.past);
    }
  }

  lemma IndexGrows(a: nat, b: nat, epoch: nat)
    requires a <= b
    ensures Index(a, epoch) <= Index(b, epoch)
  {
  }

  lemma {:induction false} NothingBeyond(log: Log, epoch: nat, i: int)
    requires Total(log) == 0 || Index(Last(log), epoch) < i
    ensures InBucket(log, epoch, i) == 0
  {
    if log.Then? {
      IndexGrows(Last(log.past), Last(log), epoch);
      NothingBeyond(log.past, epoch, i);
      if log.entry.bytes > 0 {
        IndexGrows(log.entry.at, Last(log), epoch);
      }
    }
  }

  function Resized(buckets: seq<nat>, n: nat): seq<nat> {
    if n <= |buckets| then buckets else buckets + seq(n - |buckets|, _ => 0)
  }

  /** Adding one entry's bytes at its index counts the longer log. */
  lemma {:induction false} BucketGrows(was: Log, e: Entry, epoch: nat, buckets: seq<nat>)
    requires if Total(was) == 0 then buckets == [] else BucketsCount(was, epoch, Last(was), buckets)
    requires e.bytes > 0 && epoch <= Max(Last(was), e.at)
    ensures var idx := Index(e.at, epoch);
            var grown := Resized(buckets, idx + 1);
            BucketsCount(Then(was, e), epoch, Max(Last(was), e.at), grown[idx := grown[idx] + e.bytes])
  {
    var idx := Index(e.at, epoch);
    var grown := Resized(buckets, idx + 1);
    IndexGrows(Last(was), Max(Last(was), e.at), epoch);
    IndexGrows(e.at, Max(Last(was), e.at), epoch);
    Quiet(was);
    forall i | 0 <= i < |grown| ensures grown[i] == InBucket(was, epoch, i) {
      if i >= |buckets| {
        NothingBeyond(was, epoch, i);
      }
    }
  }

  lemma {:induction false} BucketsGrow(was: Log, e: Entry, epoch: Option<nat>, buckets: seq<nat>)
    requires BucketsFit(was, epoch, Last(was), buckets)
    ensures e.bytes == 0 ==> BucketsFit(Then(was, e), epoch, Last(was), buckets)
    ensures e.bytes > 0 ==>
      var start := if epoch.Some? then epoch.value else e.at;
      var idx := Index(e.at, start);
      var grown := Resized(buckets, idx + 1);
      BucketsFit(Then(was, e), Some(start), Max(Last(was), e.at), grown[idx := grown[idx] + e.bytes])
  {
    Quiet(was);
    if e.bytes > 0 {
      BucketGrows(was, e, if epoch.Some? then epoch.value else e.at, buckets);
    }
  }

  lemma StreamsGrow(was: Log, e: Entry, streams: map<StreamIndex, StreamStats>)
    requires StreamsCount(was, streams)
    ensures e.bytes == 0 ==> StreamsCount(Then(was, e), streams)
    ensures e.bytes > 0 ==> StreamsCount(Then(was, e), Counted(streams, e))
  {
    var now := Then(was, e);
    forall s | s in streams && (s != e.stream || e.bytes == 0) ensures Describes(now, s, streams[s]) {
      StreamKept(was, e, s, streams[s]);
    }
    if e.bytes > 0 {
      StreamGrows(was, e, streams);
    }
  }

  lemma StreamKept(was: Log, e: Entry, stream: int, s: StreamStats)
    requires Describes(was, stream, s) && (stream != e.stream || e.bytes == 0)
    ensures Describes(Then(was, e), stream, s)
  {
    var a :| Carried(was, stream, a) && a.at == s.first;
    var b :| Carried(was, stream, b) && b.at == s.last;
    assert Carried(Then(was, e), stream, a) && Carried(Then(was, e), stream, b);
    assert forall x :: Carried(Then(was, e), stream, x) ==> Carried(was, stream, x);
  }

  lemma {:induction false} CarriedCounts(log: Log, stream: int, e: Entry)
    requires Carried(log, stream, e)
    ensures OnStream(log, stream) >= e.bytes
  {
    if e != log.entry {
      CarriedCounts(log.past, stream, e);
    }
  }

  lemma StreamGrows(was: Log, e: Entry, streams: map<StreamIndex, StreamStats>)
    requires StreamsCount(was, streams) && e.bytes > 0
    ensures Describes(Then(was, e), e.stream, Counted(streams, e)[e.stream])
  {
    var now := Then(was, e);
    assert Carried(now, e.stream, e);
    if e.stream in streams {
      var s := streams[e.stream];
      var a :| Carried(was, e.stream, a) && a.at == s.first;
      var b :| Carried(was, e.stream, b) && b.at == s.last;
      assert Carried(now, e.stream, a) && Carried(now, e.stream, b);
      assert forall x :: Carried(now, e.stream, x) ==> x == e || Carried(was, e.stream, x);
    } else {
      forall x | Carried(was, e.stream, x) ensures false {
        CarriedCounts(was, e.stream, x);
      }
      assert forall x :: Carried(now, e.stream, x) ==> x == e || Carried(was, e.stream, x);
    }
  }
}
