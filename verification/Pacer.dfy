/**
 The data-plane pacer: a virtual-schedule (GCRA, Annex A of ITU-T I.371) form
 of a token bucket. Times are nanoseconds since the pacer was made; rates and
 times are `real`.
*/
module Pacer {
  import opened Options

  const TICK_NS: real := 1_000_000.0

  const CATCH_UP_NS: real := 8_000_000.0

  const BURST_NS: real := 2_000_000.0

  const MIN_RATE: real := 0.000000000001

  function Max(a: real, b: real): real {
    if a < b then b else a
  }

  // ----- The schedule, in time ---------------------------------------------

  /** The tolerance and, once set, the theoretical send time, in ns. */
  datatype Schedule = Schedule(tau: real, tat: Option<real>)

  /** A datagram offered at `now`, which takes `cost` ns at the rate. */
  datatype Send = Send(now: real, bytes: nat, cost: real)

  /** The send time a datagram at `now` is measured against. */
  function Base(p: Schedule, now: real): real {
    Max(if p.tat.Some? then p.tat.value else now, now - CATCH_UP_NS)
  }

  predicate Granted(p: Schedule, now: real) {
    now >= Base(p, now) - p.tau
  }

  function Step(p: Schedule, s: Send): Schedule {
    if Granted(p, s.now) then p.(tat := Some(Base(p, s.now) + s.cost)) else p
  }

  ghost function After(p: Schedule, sends: seq<Send>): (q: Schedule)
    ensures q.tau == p.tau
  {
    if sends == [] then p else Step(After(p, sends[..|sends| - 1]), sends[|sends| - 1])
  }

  /** The sends granted, in order. */
  ghost function Grants(p: Schedule, sends: seq<Send>): seq<Send> {
    if sends == [] then []
    else
      var past, last := sends[..|sends| - 1], sends[|sends| - 1];
      Grants(p, past) + (if Granted(After(p, past), last.now) then [last] else [])
  }

  ghost function Costs(sends: seq<Send>): real {
    if sends == [] then 0.0 else Costs(sends[..|sends| - 1]) + sends[|sends| - 1].cost
  }

  ghost function Bytes(sends: seq<Send>): nat {
    if sends == [] then 0 else Bytes(sends[..|sends| - 1]) + sends[|sends| - 1].bytes
  }

  ghost predicate Within(sends: seq<Send>, from: real, length: real) {
    forall i :: 0 <= i < |sends| ==> from <= sends[i].now <= from + length && sends[i].cost >= 0.0
  }

  /** What the grants of a window cost, they cost after the lag cap at its start. */
  lemma {:induction false} WindowBound(p: Schedule, sends: seq<Send>, from: real, length: real)
    requires p.tau >= 0.0 && Within(sends, from, length) && length >= 0.0
    ensures var g := Grants(p, sends);
            g != [] ==>
              && Costs(g[..|g| - 1]) <= length + p.tau + CATCH_UP_NS
              && After(p, sends).tat.Some? && Costs(g) <= After(p, sends).tat.value - from + CATCH_UP_NS
    decreases |sends|
  {
    if sends != [] {
      var past, last := sends[..|sends| - 1], sends[|sends| - 1];
      WindowBound(p, past, from, length);
      if Granted(After(p, past), last.now) {
        assert Grants(p, sends)[..|Grants(p, past)|] == Grants(p, past);
      } else {
        assert Grants(p, sends) == Grants(p, past);
      }
    }
  }

  /** Never more than 8 ms behind the schedule: the lag cap changes nothing. */
  ghost predicate NeverLags(p: Schedule, sends: seq<Send>) {
    sends == []
    || (NeverLags(p, sends[..|sends| - 1]) && InTime(After(p, sends[..|sends| - 1]), sends[|sends| - 1].now))
  }

  ghost predicate InTime(p: Schedule, now: real) {
    p.tat.Some? ==> now - CATCH_UP_NS <= p.tat.value
  }

  lemma {:induction false} ScheduleIsBooked(p: Schedule, sends: seq<Send>)
    requires p.tau >= 0.0 && p.tat.None? && sends != [] && NeverLags(p, sends)
    ensures After(p, sends).tat == Some(sends[0].now + Costs(Grants(p, sends)))
    decreases |sends|
  {
    var past, last := sends[..|sends| - 1], sends[|sends| - 1];
    if past == [] {
      assert After(p, past) == p && Grants(p, past) == [];
      assert Grants(p, sends) == [last] && [last][..0] == [];
    } else {
      ScheduleIsBooked(p, past);
      if Granted(After(p, past), last.now) {
        assert Grants(p, sends)[..|Grants(p, past)|] == Grants(p, past);
      } else {
        assert Grants(p, sends) == Grants(p, past);
      }
    }
  }

  /** From a fresh schedule that never lags past the cap, refusal is being ahead of the booked time. */
  lemma {:induction false} AheadIsRefused(p: Schedule, sends: seq<Send>, now: real)
    requires p.tau >= 0.0 && p.tat.None? && sends != [] && NeverLags(p, sends) && InTime(After(p, sends), now)
    ensures !Granted(After(p, sends), now) <==> Costs(Grants(p, sends)) > now - sends[0].now + p.tau
  {
    ScheduleIsBooked(p, sends);
  }

  // ----- Rates -------------------------------------------------------------

  function RateOf(mbps: real): (rate: real)
    ensures rate >= MIN_RATE
  {
    Max(Max(mbps, 0.0) * 1_000_000.0 / 8.0 / 1_000_000_000.0, MIN_RATE)
  }

  /** A megabit per second is 1/8000 of a byte per ns; slower than the floor, the floor. */
  lemma RateLaw(mbps: real)
    ensures RateOf(mbps) * 8000.0 == Max(mbps, 8000.0 * MIN_RATE)
  {
  }

  function DepthOf(rate: real, datagram: real): real {
    Max(datagram, rate * BURST_NS)
  }

  function TauOf(rate: real, datagram: real): real
    requires rate > 0.0
  {
    (DepthOf(rate, datagram) - datagram) / rate
  }

  lemma TimesOver(x: real, rate: real)
    requires rate > 0.0
    ensures rate * (x / rate) == x
    ensures x >= 0.0 ==> x / rate >= 0.0
  {
    Scaled(rate, 0.0, x / rate);
  }

  lemma Scaled(rate: real, a: real, b: real)
    requires rate > 0.0
    ensures a <= b <==> rate * a <= rate * b
    ensures a < b <==> rate * a < rate * b
  {
  }

  /** The tolerance is the depth less one datagram, in time, and never above 2 ms. */
  lemma TauLaw(rate: real, datagram: real)
    requires rate > 0.0 && datagram >= 0.0
    ensures rate * TauOf(rate, datagram) + datagram == DepthOf(rate, datagram)
    ensures 0.0 <= TauOf(rate, datagram) <= BURST_NS
  {
    var tau := TauOf(rate, datagram);
    TimesOver(DepthOf(rate, datagram) - datagram, rate);
    Scaled(rate, tau, BURST_NS);
    assert rate * 0.0 == 0.0;
    assert datagram >= rate * BURST_NS ==> rate * tau <= rate * BURST_NS by {
      Scaled(rate, 0.0, BURST_NS);
    }
  }

  // ----- Runs, in bytes ----------------------------------------------------

  function Cost(bytes: nat, rate: real): real
    requires rate > 0.0
  {
    bytes as real / rate
  }

  ghost predicate PricedAt(s: Send, rate: real) {
    s.cost >= 0.0 && rate * s.cost == s.bytes as real
  }

  lemma CostIsPrice(now: real, bytes: nat, rate: real)
    requires rate > 0.0
    ensures PricedAt(Send(now, bytes, Cost(bytes, rate)), rate)
  {
    TimesOver(bytes as real, rate);
  }

  /** Every cost is that of its bytes at the rate. */
  ghost predicate Priced(sends: seq<Send>, rate: real) {
    sends == [] || (Priced(sends[..|sends| - 1], rate) && PricedAt(sends[|sends| - 1], rate))
  }

  lemma Spread(rate: real, a: real, b: real)
    ensures rate * (a + b) == rate * a + rate * b
  {
  }

  lemma {:induction false} BytesAreCosts(sends: seq<Send>, rate: real, costs: real)
    requires Priced(sends, rate) && costs == Costs(sends)
    ensures Bytes(sends) as real == rate * costs
    decreases |sends|
  {
    if sends != [] {
      var past, last := sends[..|sends| - 1], sends[|sends| - 1];
      var before := Costs(past);
      BytesAreCosts(past, rate, before);
      assert PricedAt(last, rate);
      Spread(rate, before, last.cost);
    }
  }

  lemma {:induction false} GrantsArePriced(p: Schedule, sends: seq<Send>, rate: real)
    requires Priced(sends, rate)
    ensures Priced(Grants(p, sends), rate)
    decreases |sends|
  {
    if sends != [] {
      var past, last := sends[..|sends| - 1], sends[|sends| - 1];
      GrantsArePriced(p, past, rate);
      if Granted(After(p, past), last.now) {
        assert Grants(p, sends)[..|Grants(p, past)|] == Grants(p, past);
      } else {
        assert Grants(p, sends) == Grants(p, past);
      }
    }
  }

  ghost predicate SentWithin(sends: seq<Send>, from: real, length: real) {
    forall i :: 0 <= i < |sends| ==> from <= sends[i].now <= from + length
  }

  /**
   Whatever was booked before, the datagrams granted within any window of the
   given length hold, but for the last of them, at most
   rate * (length + tau + 8 ms) bytes.
  */
  lemma {:induction false} BurstBound(p: Schedule, sends: seq<Send>, rate: real, from: real, length: real, cap: real)
    requires rate > 0.0 && p.tau >= 0.0 && length >= 0.0
    requires Priced(sends, rate) && SentWithin(sends, from, length)
    requires cap == length + p.tau + CATCH_UP_NS
    ensures var g := Grants(p, sends);
            g != [] ==> Bytes(g) as real <= rate * cap + g[|g| - 1].bytes as real
  {
    PricedWithin(sends, rate, from, length);
    WindowBound(p, sends, from, length);
    GrantsArePriced(p, sends, rate);
    if Grants(p, sends) != [] {
      AllButLast(Grants(p, sends), rate, cap);
    }
  }

  lemma {:induction false} PricedWithin(sends: seq<Send>, rate: real, from: real, length: real)
    requires Priced(sends, rate) && SentWithin(sends, from, length)
    ensures Within(sends, from, length)
    decreases |sends|
  {
    if sends != [] {
      PricedWithin(sends[..|sends| - 1], rate, from, length);
    }
  }

  lemma {:induction false} AllButLast(g: seq<Send>, rate: real, cap: real)
    requires rate > 0.0 && g != [] && Priced(g, rate) && Costs(g[..|g| - 1]) <= cap
    ensures Bytes(g) as real <= rate * cap + g[|g| - 1].bytes as real
  {
    var costs := Costs(g[..|g| - 1]);
    BytesAreCosts(g[..|g| - 1], rate, costs);
    Scaled(rate, costs, cap);
  }

  lemma ScaledOver(rate: real, cap: real, costs: real, bytes: real)
    requires rate > 0.0 && bytes == rate * costs
    ensures costs > cap <==> bytes > rate * cap
  {
    Scaled(rate, cap, costs);
  }

  lemma {:induction false} OverBudget(g: seq<Send>, rate: real, cap: real)
    requires rate > 0.0 && Priced(g, rate)
    ensures Costs(g) > cap <==> Bytes(g) as real > rate * cap
  {
    var costs := Costs(g);
    BytesAreCosts(g, rate, costs);
    ScaledOver(rate, cap, costs, Bytes(g) as real);
  }

  /**
   The other side of the bound: from a fresh pacer that never lags past the
   cap, a datagram is refused exactly when more than rate * (now - first + tau)
   was booked.
  */
  lemma {:induction false} RefusedIffAhead(p: Schedule, sends: seq<Send>, rate: real, now: real, due: real)
    requires rate > 0.0 && p.tau >= 0.0 && p.tat.None? && sends != [] && Priced(sends, rate)
    requires NeverLags(p, sends) && InTime(After(p, sends), now)
    requires due == now - sends[0].now + p.tau
    ensures !Granted(After(p, sends), now) <==> Bytes(Grants(p, sends)) as real > rate * due
  {
    AheadIsRefused(p, sends, now);
    GrantsArePriced(p, sends, rate);
    OverBudget(Grants(p, sends), rate, due);
  }

  // ----- The token bucket --------------------------------------------------

  /** A literal bucket: `tokens` bytes at time `at`; unstarted, it is full. */
  datatype Bucket = Unstarted | Bucket(tokens: real, at: real)

  function Filled(b: Bucket, now: real, rate: real, depth: real): real {
    if b.Unstarted? then depth
    else
      var t := b.tokens + rate * (now - b.at);
      if t > depth + rate * CATCH_UP_NS then depth + rate * CATCH_UP_NS else t
  }

  predicate Holds(b: Bucket, now: real, rate: real, depth: real, datagram: real) {
    Filled(b, now, rate, depth) >= datagram
  }

  function Draw(b: Bucket, s: Send, rate: real, depth: real, datagram: real): Bucket {
    var tokens := Filled(b, s.now, rate, depth);
    Bucket(if Holds(b, s.now, rate, depth, datagram) then tokens - s.bytes as real else tokens, s.now)
  }

  ghost predicate Simulates(p: Schedule, b: Bucket, rate: real, depth: real) {
    match b
    case Unstarted => p.tat.None?
    case Bucket(tokens, at) => p.tat.Some? && tokens == depth + rate * (at - p.tat.value)
  }

  lemma FilledIsBase(p: Schedule, b: Bucket, now: real, rate: real, depth: real)
    requires rate > 0.0 && Simulates(p, b, rate, depth)
    ensures Filled(b, now, rate, depth) == depth + rate * (now - Base(p, now))
  {
    if b.Bucket? {
      var tat := p.tat.value;
      assert b.tokens + rate * (now - b.at) == depth + rate * (now - tat) by {
        Spread(rate, b.at - tat, now - b.at);
      }
      Scaled(rate, now - tat, CATCH_UP_NS);
    } else {
      assert rate * 0.0 == 0.0;
    }
  }

  /** One attempt: the bucket and the schedule decide alike and stay in step. */
  lemma DrawIsStep(p: Schedule, b: Bucket, s: Send, rate: real, depth: real, datagram: real)
    requires rate > 0.0 && PricedAt(s, rate)
    requires rate * p.tau + datagram == depth && Simulates(p, b, rate, depth)
    requires p.tau >= 0.0
    ensures Holds(b, s.now, rate, depth, datagram) <==> Granted(p, s.now)
    ensures Simulates(Step(p, s), Draw(b, s, rate, depth, datagram), rate, depth)
  {
    var base, filled := Base(p, s.now), Filled(b, s.now, rate, depth);
    FilledIsBase(p, b, s.now, rate, depth);
    EnoughIff(rate, s.now, base, p.tau, depth, datagram, filled);
    if Granted(p, s.now) {
      Spent(rate, s.now, base, base + s.cost, s.cost, s.bytes as real, depth, filled);
    } else {
      assert p.tat.Some? && base == p.tat.value;
    }
  }

  lemma EnoughIff(rate: real, now: real, base: real, tau: real, depth: real, datagram: real, filled: real)
    requires rate > 0.0 && rate * tau + datagram == depth && filled == depth + rate * (now - base)
    ensures filled >= datagram <==> now >= base - tau
  {
    var slack := now - base + tau;
    Spread(rate, now - base, tau);
    assert filled - datagram == rate * slack;
    Scaled(rate, 0.0, slack);
  }

  lemma Spent(rate: real, now: real, base: real, due: real, cost: real, bytes: real, depth: real, filled: real)
    requires due == base + cost && rate * cost == bytes && filled == depth + rate * (now - base)
    ensures filled - bytes == depth + rate * (now - due)
  {
    var left := now - due;
    Spread(rate, left, cost);
  }

  ghost function Drawn(b: Bucket, sends: seq<Send>, rate: real, depth: real, datagram: real): Bucket {
    if sends == [] then b
    else Draw(Drawn(b, sends[..|sends| - 1], rate, depth, datagram), sends[|sends| - 1], rate, depth, datagram)
  }

  lemma {:induction false} StaysInStep(p: Schedule, b: Bucket, sends: seq<Send>, rate: real, depth: real,
                                       datagram: real)
    requires rate > 0.0 && Priced(sends, rate)
    requires p.tau >= 0.0 && rate * p.tau + datagram == depth && Simulates(p, b, rate, depth)
    ensures Simulates(After(p, sends), Drawn(b, sends, rate, depth, datagram), rate, depth)
    decreases |sends|
  {
    if sends != [] {
      var past, last := sends[..|sends| - 1], sends[|sends| - 1];
      StaysInStep(p, b, past, rate, depth, datagram);
      DrawIsStep(After(p, past), Drawn(b, past, rate, depth, datagram), last, rate, depth, datagram);
    }
  }

  lemma {:induction false} InStepDecidesAlike(p: Schedule, b: Bucket, sends: seq<Send>, rate: real, depth: real,
                                              datagram: real, now: real)
    requires rate > 0.0 && Priced(sends, rate)
    requires p.tau >= 0.0 && rate * p.tau + datagram == depth && Simulates(p, b, rate, depth)
    ensures Holds(Drawn(b, sends, rate, depth, datagram), now, rate, depth, datagram)
            <==> Granted(After(p, sends), now)
  {
    StaysInStep(p, b, sends, rate, depth, datagram);
    assert PricedAt(Send(now, 0, 0.0), rate);
    DrawIsStep(After(p, sends), Drawn(b, sends, rate, depth, datagram), Send(now, 0, 0.0), rate, depth, datagram);
  }

  /**
   The pacer is a token bucket: over any run of sends it grants exactly what a
   bucket of the configured depth grants that starts full, fills at the rate,
   holds at most its depth plus 8 ms of tokens, and lets a datagram go once it
   holds one.
  */
  lemma PacerIsTokenBucket(rate: real, datagram: real, sends: seq<Send>, now: real)
    requires rate > 0.0 && datagram >= 0.0 && Priced(sends, rate)
    ensures var depth := DepthOf(rate, datagram);
            Holds(Drawn(Unstarted, sends, rate, depth, datagram), now, rate, depth, datagram)
            <==> Granted(After(Schedule(TauOf(rate, datagram), None), sends), now)
  {
    TauLaw(rate, datagram);
    InStepDecidesAlike(Schedule(TauOf(rate, datagram), None), Unstarted, sends, rate, DepthOf(rate, datagram),
                       datagram, now);
  }

  /** Restarted at a time, it is that bucket full at that time: no credit or debt from before. */
  lemma RestartedIsFullBucket(rate: real, datagram: real, at: real, sends: seq<Send>, now: real)
    requires rate > 0.0 && datagram >= 0.0 && Priced(sends, rate)
    ensures var depth := DepthOf(rate, datagram);
            Holds(Drawn(Bucket(depth, at), sends, rate, depth, datagram), now, rate, depth, datagram)
            <==> Granted(After(Schedule(TauOf(rate, datagram), Some(at)), sends), now)
  {
    TauLaw(rate, datagram);
    var p, depth := Schedule(TauOf(rate, datagram), Some(at)), DepthOf(rate, datagram);
    assert Simulates(p, Bucket(depth, at), rate, depth) by {
      assert rate * (at - at) == 0.0;
    }
    InStepDecidesAlike(p, Bucket(depth, at), sends, rate, depth, datagram, now);
  }

  // ----- The pacer ---------------------------------------------------------

  function Ceil(x: real): int {
    -((-x).Floor)
  }

  /** The first whole tick at or after `t`. */
  function NextTick(t: real): real {
    Ceil(t / TICK_NS) as real * TICK_NS
  }

  lemma NextTickLaw(t: real)
    ensures t <= NextTick(t) < t + TICK_NS
  {
    var n := Ceil(t / TICK_NS);
    assert (n - 1) as real < t / TICK_NS <= n as real;
  }

  /** A datagram refused at `start` may go at the next tick after its time, or any time later. */
  lemma WakeGrants(p: Schedule, start: real, at: real)
    requires p.tau >= 0.0 && !Granted(p, start) && at >= NextTick(Base(p, start) - p.tau)
    ensures at > start && Granted(p, at)
  {
    NextTickLaw(Base(p, start) - p.tau);
  }

  class Pacer {
    var rate: real
    var depth: real
    const datagram: real
    var tau: real
    var tat: Option<real>
    var burst: nat
    var maxBurst: nat
    var lateTotal: real
    var lateMax: real
    var sleeps: nat

    ghost predicate Valid()
      reads this
    {
      && datagram >= 1.0 && rate > 0.0
      && depth == DepthOf(rate, datagram) && tau == TauOf(rate, datagram)
      && burst <= maxBurst && 0.0 <= lateMax <= lateTotal
    }

    ghost function Value(): Schedule
      reads this
    {
      Schedule(tau, tat)
    }

    constructor (mbps: real, datagramBytes: nat)
      ensures Valid() && tat == None && rate == RateOf(mbps) && sleeps == 0 && burst == 0
      ensures datagram == Max(datagramBytes as real, 1.0)
    {
      datagram := Max(datagramBytes as real, 1.0);
      tat, burst, maxBurst, lateTotal, lateMax, sleeps := None, 0, 0, 0.0, 0.0, 0;
      rate := RateOf(mbps);
      new;
      depth := DepthOf(rate, datagram);
      tau := (depth - datagram) / rate;
    }

    /** The schedule carries on; only its pace changes. */
    method SetRate(mbps: real)
      requires Valid()
      modifies this`rate, this`depth, this`tau
      ensures Valid() && rate == RateOf(mbps)
    {
      rate := RateOf(mbps);
      depth := DepthOf(rate, datagram);
      tau := (depth - datagram) / rate;
    }

    method RestartAt(at: real, mbps: real)
      requires Valid()
      modifies this`rate, this`depth, this`tau, this`tat
      ensures Valid() && rate == RateOf(mbps)
      ensures Value() == Schedule(TauOf(rate, datagram), Some(Max(at, 0.0)))
    {
      SetRate(mbps);
      tat := Some(Max(at, 0.0));
    }

    /** Books the bytes when they may go; otherwise says when they may. */
    method TryTake(bytes: nat, now: real) returns (refused: Option<real>)
      requires rate > 0.0
      modifies this`tat
      ensures Value() == Step(old(Value()), Send(now, bytes, Cost(bytes, rate)))
      ensures refused.None? <==> Granted(old(Value()), now)
      ensures refused.Some? ==> refused.value == Base(Value(), now) - tau
      ensures PricedAt(Send(now, bytes, Cost(bytes, rate)), rate)
    {
      CostIsPrice(now, bytes, rate);
      var t := Max(if tat.Some? then tat.value else now, now - CATCH_UP_NS);
      var earliest := t - tau;
      if now >= earliest {
        tat := Some(t + Cost(bytes, rate));
        refused := None;
      } else {
        refused := Some(earliest);
      }
    }

    method NoteLate(late: real)
      requires late >= 0.0 && 0.0 <= lateMax <= lateTotal
      modifies this`lateTotal, this`lateMax, this`sleeps
      ensures lateTotal == old(lateTotal) + late && lateMax == Max(old(lateMax), late)
      ensures lateMax <= lateTotal && sleeps == old(sleeps) + 1
    {
      lateTotal, lateMax, sleeps := lateTotal + late, Max(lateMax, late), sleeps + 1;
    }

    /**
     Waits until the bytes may go. `later(t)` is the clock when something that
     may not end before `t` has ended, so no sleep wakes early: then the pacer
     sleeps at most once, and only when the first look refuses; it grants at a
     time the schedule allows, no earlier than the tick it slept to.
    */
    method Wait(bytes: nat, start: real, later: real -> real) returns (at: real)
      requires Valid() && start >= 0.0
      requires forall t :: later(t) >= t
      modifies this
      ensures Valid() && rate == old(rate) && at >= start
      ensures sleeps == old(sleeps) + (if Granted(old(Value()), start) then 0 else 1)
      ensures Granted(old(Value()), at) && Value() == Step(old(Value()), Send(at, bytes, Cost(bytes, rate)))
      ensures Granted(old(Value()), start) ==> at == start && burst == old(burst) + 1
      ensures !Granted(old(Value()), start) ==>
                at >= NextTick(Base(old(Value()), start) - tau) && burst == 1
      ensures maxBurst >= old(maxBurst) && maxBurst >= burst
    {
      assert tau >= 0.0 by {
        TauLaw(rate, datagram);
      }
      at := start;
      var slept := false;
      var refused := TryTake(bytes, at);
      while refused.Some?
        invariant rate == old(rate) && tau == old(tau) && depth == old(depth) && at >= start
        invariant 0.0 <= lateMax <= lateTotal
        invariant refused.Some? ==> Value() == old(Value()) && !slept && at == start
        invariant refused.None? ==> Value() == Step(old(Value()), Send(at, bytes, Cost(bytes, rate)))
        invariant refused.None? <==> Granted(old(Value()), at)
        invariant refused.Some? ==> refused.value == Base(Value(), at) - tau
        invariant slept || refused.Some? <==> !Granted(old(Value()), start)
        invariant sleeps == old(sleeps) + (if slept then 1 else 0)
        invariant burst == old(burst) && maxBurst == old(maxBurst)
        invariant slept ==> at >= NextTick(Base(old(Value()), start) - tau)
        invariant !slept && refused.None? ==> at == start
        decreases if refused.Some? then 1 else 0
      {
        var next := NextTick(refused.value);
        at := later(Max(at, next));
        var late := Max(at - next, 0.0);
        NoteLate(late);
        slept := true;
        at := later(at);
        WakeGrants(old(Value()), start, at);
        refused := TryTake(bytes, at);
      }
      burst := if slept then 1 else burst + 1;
      if burst > maxBurst {
        maxBurst := burst;
      }
    }
  }
}
