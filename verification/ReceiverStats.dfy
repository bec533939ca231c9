/**
 What a receiver's stats say of its log: the consistency checks, the goodput
 after a warmup, and the bytes of an arbitrary window.
*/
module ReceiverStats {
  import opened Options
  import opened Receiver
  import opened Words

  function BucketNs(s: Stats): (ns: nat)
    ensures ns > 0
  {
    if s.bucketMs == 0 then BUCKET_NS else s.bucketMs * 1_000_000
  }

  function Sum(s: seq<nat>): nat {
    if s == [] then 0 else Sum(s[..|s| - 1]) + s[|s| - 1]
  }

  function StreamSum(s: seq<StreamStats>): nat {
    if s == [] then 0 else StreamSum(s[..|s| - 1]) + s[|s| - 1].bytes
  }

  // ----- Checks ------------------------------------------------------------

  predicate CheckInvariants(s: Stats) {
    Sum(s.buckets) == s.total && StreamSum(s.streams) == s.total
  }

  datatype SpanCheck = SpanOk | WrongWidth | LastBeforeFirst | SpanTooLong | TooManyBuckets

  function CheckSpan(s: Stats, maxSpan: nat): SpanCheck {
    if s.bucketMs != 0 && s.bucketMs != BUCKET_MS then WrongWidth
    else if s.total == 0 then SpanOk
    else if s.last < s.epoch then LastBeforeFirst
    else if s.last - s.epoch > maxSpan then SpanTooLong
    else if |s.buckets| > (s.last - s.epoch) / BUCKET_NS + 1 then TooManyBuckets
    else SpanOk
  }

  /** Bytes of the log in the buckets below `n`. */
  ghost function Below(log: Log, epoch: nat, n: int): nat {
    if log.Empty? then 0
    else Below(log.past, epoch, n) + (if Index(log.entry.at, epoch) < n then log.entry.bytes else 0)
  }

  lemma {:induction false} BelowGrows(log: Log, epoch: nat, n: nat)
    ensures Below(log, epoch, n) + InBucket(log, epoch, n) == Below(log, epoch, n + 1)
  {
    if log.Then? {
      BelowGrows(log.past, epoch, n);
    }
  }

  lemma {:induction false} BelowNone(log: Log, epoch: nat)
    ensures Below(log, epoch, 0) == 0
  {
    if log.Then? {
      BelowNone(log.past, epoch);
    }
  }

  lemma {:induction false} BelowAll(log: Log, epoch: nat, n: int)
    requires Total(log) == 0 || Index(Last(log), epoch) < n
    ensures Below(log, epoch, n) == Total(log)
  {
    if log.Then? {
      IndexGrows(Last(log.past), Last(log), epoch);
      BelowAll(log.past, epoch, n);
      if log.entry.bytes > 0 {
        IndexGrows(log.entry.at, Last(log), epoch);
      }
    }
  }

  lemma {:induction false} FirstBuckets(log: Log, epoch: nat, last: nat, buckets: seq<nat>, n: nat)
    requires BucketsCount(log, epoch, last, buckets) && n <= |buckets|
    ensures Sum(buckets[..n]) == Below(log, epoch, n)
    decreases n
  {
    BelowNone(log, epoch);
    if n > 0 {
      FirstBuckets(log, epoch, last, buckets, n - 1);
      BelowGrows(log, epoch, n - 1);
      assert buckets[..n][..n - 1] == buckets[..n - 1];
    }
  }

  /** The buckets of honest stats add up to the log's bytes. */
  lemma {:induction false} BucketTotal(s: Stats, log: Log)
    requires Honest(s, log)
    ensures Sum(s.buckets) == Total(log)
  {
    Quiet(log);
    if Epoch(log).Some? {
      FirstBuckets(log, s.epoch, s.last, s.buckets, |s.buckets|);
      BelowAll(log, s.epoch, |s.buckets|);
      assert s.buckets[..|s.buckets|] == s.buckets;
    }
  }

  ghost function OnStreamsBelow(log: Log, n: int): nat {
    if log.Empty? then 0
    else OnStreamsBelow(log.past, n) + (if log.entry.stream < n then log.entry.bytes else 0)
  }

  lemma {:induction false} NextStream(log: Log, n: nat)
    ensures OnStreamsBelow(log, n) + OnStream(log, n) == OnStreamsBelow(log, n + 1)
    ensures OnStreamsBelow(log, 0) == 0
  {
    if log.Then? {
      NextStream(log.past, n);
    }
  }

  lemma {:induction false} EveryStream(log: Log)
    ensures OnStreamsBelow(log, STREAMS) == Total(log)
  {
    if log.Then? {
      EveryStream(log.past);
    }
  }

  lemma {:induction false} FirstStreams(log: Log, m: map<StreamIndex, StreamStats>, n: nat)
    requires StreamsCount(log, m) && n <= STREAMS
    ensures StreamSum(InOrder(m, n)) == OnStreamsBelow(log, n)
  {
    NextStream(log, 0);
    if n > 0 {
      FirstStreams(log, m, n - 1);
      NextStream(log, n - 1);
      var i: StreamIndex := n - 1;
      if i in m {
        assert Describes(log, i, m[i]);
        assert InOrder(m, n)[..|InOrder(m, n - 1)|] == InOrder(m, n - 1);
      } else {
        assert InOrder(m, n) == InOrder(m, n - 1);
      }
    }
  }

  /** Honest stats always pass the totals check. */
  lemma HonestTotals(s: Stats, log: Log)
    requires Honest(s, log)
    ensures CheckInvariants(s)
  {
    BucketTotal(s, log);
    var m :| StreamsCount(log, m) && s.streams == InOrder(m, STREAMS);
    FirstStreams(log, m, STREAMS);
    EveryStream(log);
  }

  /** Honest stats pass the span check exactly when the data flowed no longer than the limit. */
  lemma HonestSpan(s: Stats, log: Log, maxSpan: nat)
    requires Honest(s, log)
    ensures CheckSpan(s, maxSpan) == SpanOk <==> s.last - s.epoch <= maxSpan
    ensures CheckSpan(s, maxSpan) in {SpanOk, SpanTooLong}
  {
    Quiet(log);
  }

  // ----- Goodput -----------------------------------------------------------

  datatype Goodput = NothingReceived | WindowTooShort
                   | Goodput(mbps: real, bytes: nat, start: nat, end: nat)

  function Mbps(bytes: real, windowNs: nat): Option<real> {
    if windowNs == 0 then None else Some(bytes * 8.0 / windowNs as real * 1000.0)
  }

  lemma MbpsLaw(bytes: real, windowNs: nat)
    requires windowNs > 0
    ensures Mbps(bytes, windowNs).value * windowNs as real == bytes * 8000.0
  {
    var w := windowNs as real;
    assert bytes * 8.0 / w * w == bytes * 8.0;
  }

  function Quotient(a: nat, b: nat): nat
    requires b > 0
  {
    a / b
  }

  lemma WarmBuckets(warmupSecs: nat)
    ensures Quotient(warmupSecs * SECOND_NS, BUCKET_NS) == 4 * warmupSecs
    ensures warmupSecs * SECOND_NS == BUCKET_NS * (4 * warmupSecs)
  {
  }

  function GoodputOf(s: Stats, warmupSecs: nat): Goodput {
    var warmup := warmupSecs * SECOND_NS;
    var span := Monus(s.last, s.epoch);
    if s.total == 0 then NothingReceived
    else if span < warmup + SECOND_NS then WindowTooShort
    else
      var warm := Sum(s.buckets[..Min(Quotient(warmup, BucketNs(s)), |s.buckets|)]);
      var bytes := Monus(s.total, warm);
      var rate := Mbps(bytes as real, span - warmup);
      Goodput(if rate.Some? then rate.value else 0.0, bytes, s.epoch + warmup, s.last)
  }

  /** The rate is the window's bits over its length. */
  lemma GoodputRate(s: Stats, warmupSecs: nat)
    ensures var g := GoodputOf(s, warmupSecs);
            g.Goodput? ==> && g.end >= g.start + SECOND_NS
                           && g.mbps * (g.end - g.start) as real == g.bytes as real * 8000.0
  {
    var g := GoodputOf(s, warmupSecs);
    if g.Goodput? {
      MbpsLaw(g.bytes as real, g.end - g.start);
    }
  }

  lemma EdgeOfBucket(at: nat, epoch: nat, n: nat)
    ensures Index(at, epoch) < n <==> Max(at, epoch) < epoch + BUCKET_NS * n
  {
  }

  lemma {:induction false} BelowOrSince(log: Log, epoch: nat, n: nat)
    ensures Below(log, epoch, n) + Since(log, epoch, epoch + BUCKET_NS * n) == Total(log)
  {
    if log.Then? {
      BelowOrSince(log.past, epoch, n);
      EdgeOfBucket(log.entry.at, epoch, n);
    }
  }

  lemma {:induction false} BucketIsWindow(log: Log, epoch: nat, i: nat)
    ensures InBucket(log, epoch, i) == Between(log, epoch, epoch + BUCKET_NS * i, epoch + BUCKET_NS * (i + 1))
  {
    if log.Then? {
      BucketIsWindow(log.past, epoch, i);
      EdgeOfBucket(log.entry.at, epoch, i);
      EdgeOfBucket(log.entry.at, epoch, i + 1);
    }
  }

  /** Bucket `i` holds exactly the bytes logged in its 250 ms of the timeline. */
  lemma BucketsAreWindows(s: Stats, log: Log)
    requires Honest(s, log)
    ensures forall i {:trigger s.buckets[i]} :: 0 <= i < |s.buckets| ==>
              s.buckets[i] == Between(log, s.epoch, s.epoch + BUCKET_NS * i, s.epoch + BUCKET_NS * (i + 1))
  {
    forall i {:trigger s.buckets[i]} | 0 <= i < |s.buckets|
      ensures s.buckets[i] == Between(log, s.epoch, s.epoch + BUCKET_NS * i, s.epoch + BUCKET_NS * (i + 1))
    {
      BucketIsWindow(log, s.epoch, i);
    }
  }

  /**
   Of honest stats the goodput window holds exactly the bytes logged at or
   after epoch + warmup, and is refused exactly when nothing came or the data
   flowed for less than warmup + 1 s.
  */
  lemma {:induction false} GoodputIsLogged(s: Stats, log: Log, warmupSecs: nat)
    requires Honest(s, log)
    ensures GoodputOf(s, warmupSecs).NothingReceived? <==> Total(log) == 0
    ensures Total(log) > 0 ==>
              && Epoch(log) == Some(s.epoch)
              && (GoodputOf(s, warmupSecs).WindowTooShort? <==> Last(log) < s.epoch + (warmupSecs + 1) * SECOND_NS)
    ensures var g := GoodputOf(s, warmupSecs);
            g.Goodput? ==>
              && g.start == s.epoch + warmupSecs * SECOND_NS && g.end == Last(log)
              && g.bytes == Since(log, s.epoch, g.start)
  {
    Quiet(log);
    var warmup := warmupSecs * SECOND_NS;
    if s.total > 0 && s.last - s.epoch >= warmup + SECOND_NS {
      var n := 4 * warmupSecs;
      WarmBuckets(warmupSecs);
      EdgeOfBucket(s.last, s.epoch, n);
      FirstBuckets(log, s.epoch, s.last, s.buckets, n);
      BelowOrSince(log, s.epoch, n);
    }
  }

  // ----- Windows -----------------------------------------------------------

  function Start(s: Stats, i: nat): nat {
    s.epoch + BucketNs(s) * i
  }

  function End(s: Stats, i: nat): nat {
    if i + 1 == |s.buckets| then Max(s.last, Start(s, i)) else Start(s, i) + BucketNs(s)
  }

  function Portion(bytes: nat, part: nat, whole: nat): real
    requires whole > 0
  {
    bytes as real * part as real / whole as real
  }

  function Share(s: Stats, i: nat, from: nat, to: nat): real
    requires i < |s.buckets|
  {
    var bs, be := Start(s, i), End(s, i);
    if be == bs then (if from <= bs <= to then s.buckets[i] as real else 0.0)
    else Portion(s.buckets[i], Monus(Min(be, to), Max(bs, from)), be - bs)
  }

  function Shares(s: Stats, n: nat, from: nat, to: nat): real
    requires n <= |s.buckets|
  {
    if n == 0 then 0.0 else Shares(s, n - 1, from, to) + Share(s, n - 1, from, to)
  }

  function Window(s: Stats, from: nat, to: nat): real {
    if to <= from then 0.0 else Shares(s, |s.buckets|, from, to)
  }

  method BytesBetween(s: Stats, from: nat, to: nat) returns (total: real)
    ensures total == Window(s, from, to)
  {
    if to <= from {
      return 0.0;
    }
    total := 0.0;
    for i := 0 to |s.buckets|
      invariant total == Shares(s, i, from, to)
    {
      var bs, be := Start(s, i), End(s, i);
      if be == bs {
        if from <= bs <= to {
          total := total + s.buckets[i] as real;
        }
      } else {
        var lo, hi := Max(bs, from), Min(be, to);
        PortionLaws(s.buckets[i], 0, 0, be - bs);
        if hi > lo {
          total := total + Portion(s.buckets[i], hi - lo, be - bs);
        }
      }
    }
  }

  lemma PortionLaws(bytes: nat, part: nat, more: nat, whole: nat)
    requires whole > 0
    ensures Portion(bytes, 0, whole) == 0.0
    ensures Portion(bytes, whole, whole) == bytes as real
    ensures part <= more ==> Portion(bytes, part, whole) <= Portion(bytes, more, whole)
    ensures Portion(bytes, part, whole) + Portion(bytes, more, whole) == Portion(bytes, part + more, whole)
  {
    var each := bytes as real / whole as real;
    assert each >= 0.0;
    assert Portion(bytes, part, whole) == each * part as real;
    assert Portion(bytes, more, whole) == each * more as real;
    assert Portion(bytes, part + more, whole) == each * (part as real + more as real);
    assert Portion(bytes, whole, whole) == each * whole as real == bytes as real;
    if part <= more {
      assert each * part as real <= each * more as real;
    }
  }

  lemma ShareGrows(s: Stats, i: nat, from: nat, to: nat, from': nat, to': nat)
    requires i < |s.buckets| && from' <= from && to <= to'
    ensures 0.0 <= Share(s, i, from, to) <= Share(s, i, from', to')
  {
    var bs, be := Start(s, i), End(s, i);
    if be != bs {
      PortionLaws(s.buckets[i], Monus(Min(be, to), Max(bs, from)), Monus(Min(be, to'), Max(bs, from')), be - bs);
      PortionLaws(s.buckets[i], 0, Monus(Min(be, to), Max(bs, from)), be - bs);
    }
  }

  lemma {:induction false} SharesGrow(s: Stats, n: nat, from: nat, to: nat, from': nat, to': nat)
    requires n <= |s.buckets| && from' <= from && to <= to'
    ensures 0.0 <= Shares(s, n, from, to) <= Shares(s, n, from', to')
  {
    if n > 0 {
      SharesGrow(s, n - 1, from, to, from', to');
      ShareGrows(s, n - 1, from, to, from', to');
    }
  }

  /** A wider window never holds fewer bytes. */
  lemma WindowGrows(s: Stats, from: nat, to: nat, from': nat, to': nat)
    requires from' <= from && to <= to'
    ensures 0.0 <= Window(s, from, to) <= Window(s, from', to')
  {
    SharesGrow(s, |s.buckets|, from, to, from', to');
    SharesGrow(s, |s.buckets|, from', to', from', to');
  }

  /** The bytes both halves count when a window is cut at `mid`: a final bucket of no length, there. */
  function Twice(s: Stats, mid: nat): nat {
    var n := |s.buckets|;
    if n > 0 && Start(s, n - 1) == End(s, n - 1) == mid then s.buckets[n - 1] else 0
  }

  lemma ShareSplits(s: Stats, i: nat, from: nat, mid: nat, to: nat)
    requires i < |s.buckets| && from < mid < to
    ensures Share(s, i, from, mid) + Share(s, i, mid, to)
            == Share(s, i, from, to) + (if i + 1 == |s.buckets| then Twice(s, mid) as real else 0.0)
  {
    var bs, be := Start(s, i), End(s, i);
    if be != bs {
      PortionLaws(s.buckets[i], Monus(Min(be, mid), Max(bs, from)), Monus(Min(be, to), Max(bs, mid)), be - bs);
    }
  }

  lemma {:induction false} SharesSplit(s: Stats, n: nat, from: nat, mid: nat, to: nat)
    requires n <= |s.buckets| && from < mid < to
    ensures Shares(s, n, from, mid) + Shares(s, n, mid, to)
            == Shares(s, n, from, to) + (if 0 < n == |s.buckets| then Twice(s, mid) as real else 0.0)
  {
    if n > 0 {
      SharesSplit(s, n - 1, from, mid, to);
      ShareSplits(s, n - 1, from, mid, to);
    }
  }

  /** Adjacent windows add up exactly unless the cut falls on a non-empty final bucket of no length. */
  lemma WindowsAddUp(s: Stats, from: nat, mid: nat, to: nat)
    requires from < mid < to
    ensures Window(s, from, mid) + Window(s, mid, to) == Window(s, from, to) + Twice(s, mid) as real
    ensures Window(s, from, mid) + Window(s, mid, to) == Window(s, from, to) <==> Twice(s, mid) == 0
  {
    SharesSplit(s, |s.buckets|, from, mid, to);
  }

  /**
   Stats that pass the span check with payload in them have no more buckets
   than the limit holds, and none starts after the last byte.
  */
  lemma SpanBounds(s: Stats, maxSpan: nat, i: nat)
    requires CheckSpan(s, maxSpan) == SpanOk && s.total > 0 && i < |s.buckets|
    ensures |s.buckets| <= maxSpan / BUCKET_NS + 1
    ensures s.epoch <= Start(s, i) <= s.last <= s.epoch + maxSpan
  {
    assert BucketNs(s) == BUCKET_NS;
    EdgeOfBucket(s.last, s.epoch, i);
    IndexGrows(s.last, s.epoch + maxSpan, s.epoch);
  }

  /** Stats without payload pass both checks with any number of empty buckets, whatever the limit. */
  lemma NoPayloadNoBound(n: nat, maxSpan: nat)
    ensures var s := Stats(0, BUCKET_MS, seq(n, _ => 0), 0, 0, []);
            |s.buckets| == n && CheckInvariants(s) && CheckSpan(s, maxSpan) == SpanOk
  {
    ZeroSum(n);
  }

  lemma {:induction false} ZeroSum(n: nat)
    ensures Sum(seq(n, _ => 0)) == 0
  {
    if n > 0 {
      ZeroSum(n - 1);
      assert seq(n, _ => 0)[..n - 1] == seq(n - 1, _ => 0);
    }
  }

  // ----- Windows of honest stats -------------------------------------------

  lemma BucketsWithin(s: Stats, log: Log, i: nat)
    requires Honest(s, log) && i < |s.buckets|
    ensures s.epoch <= Start(s, i) == s.epoch + BUCKET_NS * i <= End(s, i) <= s.last
    ensures i + 1 < |s.buckets| ==> End(s, i) == s.epoch + BUCKET_NS * (i + 1)
  {
    assert BucketNs(s) == BUCKET_NS;
    EdgeOfBucket(s.last, s.epoch, i);
    EdgeOfBucket(s.last, s.epoch, i + 1);
  }

  lemma WholeShare(s: Stats, i: nat, from: nat, to: nat)
    requires i < |s.buckets| && from <= Start(s, i) && End(s, i) <= to
    ensures Share(s, i, from, to) == s.buckets[i] as real
  {
    var bs, be := Start(s, i), End(s, i);
    if be != bs {
      PortionLaws(s.buckets[i], 0, 0, be - bs);
    }
  }

  /** A window from the epoch to the edge `k` counts the first `k` buckets whole. */
  lemma {:induction false} WholeShares(s: Stats, log: Log, n: nat, to: nat)
    requires Honest(s, log) && n <= |s.buckets|
    requires forall i: nat {:trigger End(s, i)} :: i < n ==> End(s, i) <= to
    ensures Shares(s, n, s.epoch, to) == Sum(s.buckets[..n]) as real
  {
    if n > 0 {
      WholeShares(s, log, n - 1, to);
      BucketsWithin(s, log, n - 1);
      WholeShare(s, n - 1, s.epoch, to);
      assert s.buckets[..n][..n - 1] == s.buckets[..n - 1];
    }
  }

  /** From the first byte to the last, the window holds the total exactly when time passed between them. */
  lemma FullWindow(s: Stats, log: Log)
    requires Honest(s, log) && s.total > 0
    ensures Window(s, s.epoch, s.last) == s.total as real <==> s.last > s.epoch
  {
    Quiet(log);
    if s.last > s.epoch {
      forall i: nat {:trigger End(s, i)} | i < |s.buckets| ensures End(s, i) <= s.last {
        BucketsWithin(s, log, i);
      }
      WholeShares(s, log, |s.buckets|, s.last);
      BucketTotal(s, log);
      assert s.buckets[..|s.buckets|] == s.buckets;
    }
  }

  lemma NoShare(s: Stats, i: nat, from: nat, to: nat)
    requires i < |s.buckets| && from <= to <= Start(s, i)
    ensures Share(s, i, from, to) == (if Start(s, i) == End(s, i) == to then s.buckets[i] as real else 0.0)
  {
    var bs, be := Start(s, i), End(s, i);
    if be != bs {
      PortionLaws(s.buckets[i], 0, 0, be - bs);
    }
  }

  lemma {:induction false} LaterShares(s: Stats, log: Log, k: nat, n: nat, to: nat)
    requires Honest(s, log) && k <= n <= |s.buckets| && to == s.epoch + BUCKET_NS * k
    ensures Shares(s, n, s.epoch, to)
            == Shares(s, k, s.epoch, to) + (if k < n == |s.buckets| == k + 1 then Twice(s, to) as real else 0.0)
  {
    if n > k {
      LaterShares(s, log, k, n - 1, to);
      BucketsWithin(s, log, n - 1);
      NoShare(s, n - 1, s.epoch, to);
    }
  }

  /**
   On bucket edges nothing is estimated: the window up to edge `k` holds the
   bytes logged before it, plus a final bucket of no length that starts there.
  */
  lemma {:induction false} EdgeWindow(s: Stats, log: Log, k: nat)
    requires Honest(s, log) && 0 < k < |s.buckets|
    ensures var edge := s.epoch + BUCKET_NS * k;
            Window(s, s.epoch, edge) == (Total(log) - Since(log, s.epoch, edge) + Twice(s, edge)) as real
  {
    var edge := s.epoch + BUCKET_NS * k;
    LaterShares(s, log, k, |s.buckets|, edge);
    forall i: nat {:trigger End(s, i)} | i < k ensures End(s, i) <= edge {
      BucketsWithin(s, log, i);
      assert BUCKET_NS * (i + 1) <= BUCKET_NS * k;
    }
    WholeShares(s, log, k, edge);
    FirstBuckets(log, s.epoch, s.last, s.buckets, k);
    BelowOrSince(log, s.epoch, k);
    BucketsWithin(s, log, |s.buckets| - 1);
  }

  // ----- Any window against the log ----------------------------------------

  /** Bytes logged in the window, both ends included, their time raised to at least `epoch`. */
  ghost function During(log: Log, epoch: nat, from: nat, to: nat): nat {
    if log.Empty? then 0
    else During(log.past, epoch, from, to)
         + (if from <= Max(log.entry.at, epoch) <= to then log.entry.bytes else 0)
  }

  /** Those of bucket `i`. */
  ghost function DuringIn(log: Log, epoch: nat, i: int, from: nat, to: nat): nat {
    if log.Empty? then 0
    else DuringIn(log.past, epoch, i, from, to)
         + (if Index(log.entry.at, epoch) == i && from <= Max(log.entry.at, epoch) <= to then log.entry.bytes else 0)
  }

  ghost function DuringBelow(log: Log, epoch: nat, n: int, from: nat, to: nat): nat {
    if log.Empty? then 0
    else DuringBelow(log.past, epoch, n, from, to)
         + (if Index(log.entry.at, epoch) < n && from <= Max(log.entry.at, epoch) <= to then log.entry.bytes else 0)
  }

  lemma {:induction false} DuringGrows(log: Log, epoch: nat, n: nat, from: nat, to: nat)
    ensures DuringBelow(log, epoch, n, from, to) + DuringIn(log, epoch, n, from, to)
            == DuringBelow(log, epoch, n + 1, from, to)
    ensures DuringBelow(log, epoch, 0, from, to) == 0
    ensures DuringIn(log, epoch, n, from, to) <= InBucket(log, epoch, n)
  {
    if log.Then? {
      DuringGrows(log.past, epoch, n, from, to);
    }
  }

  lemma {:induction false} DuringAll(log: Log, epoch: nat, n: int, from: nat, to: nat)
    requires Total(log) == 0 || Index(Last(log), epoch) < n
    ensures DuringBelow(log, epoch, n, from, to) == During(log, epoch, from, to)
  {
    if log.Then? {
      IndexGrows(Last(log.past), Last(log), epoch);
      DuringAll(log.past, epoch, n, from, to);
      if log.entry.bytes > 0 {
        IndexGrows(log.entry.at, Last(log), epoch);
      }
    }
  }

  /** A bucket whose time, up to the last byte, lies in the window counts whole. */
  lemma {:induction false} DuringWhole(log: Log, epoch: nat, i: nat, last: nat, from: nat, to: nat)
    requires Last(log) <= last && from <= epoch + BUCKET_NS * i
    requires epoch + BUCKET_NS * (i + 1) <= to || (last <= to && epoch <= to)
    ensures DuringIn(log, epoch, i, from, to) == InBucket(log, epoch, i)
  {
    if log.Then? {
      DuringWhole(log.past, epoch, i, last, from, to);
      EdgeOfBucket(log.entry.at, epoch, i);
      EdgeOfBucket(log.entry.at, epoch, i + 1);
    }
  }

  /** A bucket wholly before the window or wholly after it does not count. */
  lemma {:induction false} DuringNone(log: Log, epoch: nat, i: nat, last: nat, from: nat, to: nat)
    requires Last(log) <= last
    requires epoch + BUCKET_NS * (i + 1) <= from || (last < from && epoch < from) || to < epoch + BUCKET_NS * i
    ensures DuringIn(log, epoch, i, from, to) == 0
  {
    if log.Then? {
      DuringNone(log.past, epoch, i, last, from, to);
      EdgeOfBucket(log.entry.at, epoch, i);
      EdgeOfBucket(log.entry.at, epoch, i + 1);
    }
  }

  /** The bytes of bucket `i` if it is the one `t` falls in. */
  ghost function Cut(s: Stats, i: nat, t: nat): nat
    requires i < |s.buckets|
  {
    if t >= s.epoch && Index(t, s.epoch) == i then s.buckets[i] else 0
  }

  /** The bytes of the bucket that `t` falls in, 0 if in none. */
  ghost function CutAt(s: Stats, t: nat): nat {
    if t >= s.epoch && Index(t, s.epoch) < |s.buckets| then s.buckets[Index(t, s.epoch)] else 0
  }

  lemma PassedShare(s: Stats, i: nat, from: nat, to: nat)
    requires i < |s.buckets| && End(s, i) <= from <= to && Start(s, i) < from
    ensures Share(s, i, from, to) == 0.0
  {
    var bs, be := Start(s, i), End(s, i);
    if be != bs {
      PortionLaws(s.buckets[i], 0, 0, be - bs);
    }
  }

  lemma ShareIsPart(s: Stats, i: nat, from: nat, to: nat)
    requires i < |s.buckets| && from <= to
    ensures 0.0 <= Share(s, i, from, to) <= s.buckets[i] as real
  {
    var low, high := Min(from, Start(s, i)), Max(to, End(s, i));
    ShareGrows(s, i, from, to, low, high);
    WholeShare(s, i, low, high);
  }

  /** A bucket the window does not cut is shared exactly as it was logged. */
  lemma ShareNear(s: Stats, log: Log, i: nat, from: nat, to: nat)
    requires Honest(s, log) && i < |s.buckets| && from < to
    ensures var logged, cut := DuringIn(log, s.epoch, i, from, to), Cut(s, i, from) + Cut(s, i, to);
            Near(Share(s, i, from, to), logged, cut)
  {
    BucketsWithin(s, log, i);
    DuringGrows(log, s.epoch, i, from, to);
    ShareIsPart(s, i, from, to);
    EdgeOfBucket(s.last, s.epoch, i + 1);
    var bs, be, final := Start(s, i), End(s, i), i + 1 == |s.buckets|;
    if from <= bs && be <= to {
      WholeShare(s, i, from, to);
      DuringWhole(log, s.epoch, i, s.last, from, to);
    } else if to < bs {
      NoShare(s, i, from, to);
      DuringNone(log, s.epoch, i, s.last, from, to);
    } else if bs < from && (be < from || (!final && be == from)) {
      PassedShare(s, i, from, to);
      DuringNone(log, s.epoch, i, s.last, from, to);
    } else {
      CutIsFound(s, log, i, from, to);
    }
  }

  lemma CutIsFound(s: Stats, log: Log, i: nat, from: nat, to: nat)
    requires Honest(s, log) && i < |s.buckets| && from < to
    requires var bs, be := Start(s, i), End(s, i);
             && !(from <= bs && be <= to) && !(to < bs)
             && !(bs < from && (be < from || (i + 1 < |s.buckets| && be == from)))
    ensures Cut(s, i, from) + Cut(s, i, to) >= s.buckets[i]
  {
    BucketsWithin(s, log, i);
    EdgeOfBucket(s.last, s.epoch, i + 1);
    EdgeOfBucket(from, s.epoch, i);
    EdgeOfBucket(from, s.epoch, i + 1);
    EdgeOfBucket(to, s.epoch, i);
    EdgeOfBucket(to, s.epoch, i + 1);
  }

  lemma {:induction false} SharesNear(s: Stats, log: Log, n: nat, from: nat, to: nat)
    requires Honest(s, log) && n <= |s.buckets| && from < to
    ensures var logged, cut := DuringBelow(log, s.epoch, n, from, to), CutBelow(s, n, from) + CutBelow(s, n, to);
            Near(Shares(s, n, from, to), logged, cut)
  {
    DuringGrows(log, s.epoch, 0, from, to);
    if n > 0 {
      SharesNear(s, log, n - 1, from, to);
      ShareNear(s, log, n - 1, from, to);
      DuringGrows(log, s.epoch, n - 1, from, to);
      NearAdds(Shares(s, n - 1, from, to), DuringBelow(log, s.epoch, n - 1, from, to),
               CutBelow(s, n - 1, from) + CutBelow(s, n - 1, to),
               Share(s, n - 1, from, to), DuringIn(log, s.epoch, n - 1, from, to),
               Cut(s, n - 1, from) + Cut(s, n - 1, to));
    }
  }

  ghost predicate Near(x: real, bytes: nat, off: nat) {
    bytes as real - off as real <= x <= bytes as real + off as real
  }

  lemma NearAdds(x: real, bytes: nat, off: nat, y: real, more: nat, off': nat)
    requires Near(x, bytes, off) && Near(y, more, off')
    ensures Near(x + y, bytes + more, off + off')
  {
  }

  ghost function CutBelow(s: Stats, n: nat, t: nat): nat
    requires n <= |s.buckets|
  {
    if n == 0 then 0 else CutBelow(s, n - 1, t) + Cut(s, n - 1, t)
  }

  lemma {:induction false} OneCut(s: Stats, n: nat, t: nat)
    requires n <= |s.buckets|
    ensures CutBelow(s, n, t) == if t >= s.epoch && Index(t, s.epoch) < n then CutAt(s, t) else 0
  {
    if n > 0 {
      OneCut(s, n - 1, t);
    }
  }

  /**
   Any window of honest stats is within the bytes of the two buckets its ends
   cut of the bytes logged in it.
  */
  lemma WindowNearLog(s: Stats, log: Log, from: nat, to: nat)
    requires Honest(s, log) && from < to
    ensures var logged, cut := During(log, s.epoch, from, to), CutAt(s, from) + CutAt(s, to);
            Near(Window(s, from, to), logged, cut)
  {
    var n := |s.buckets|;
    Quiet(log);
    SharesNear(s, log, n, from, to);
    OneCut(s, n, from);
    OneCut(s, n, to);
    DuringAll(log, s.epoch, n, from, to);
  }
}
