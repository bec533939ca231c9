/**
 NTP-style clock offsets (section 8 of RFC 5905): from several exchanges the
 one with the smallest delay gives the offset, with half its delay as the
 uncertainty. Timestamps are u64, and the results are narrowed to i64 as the
 code's casts narrow them.
*/
module Clock {
  import opened Options
  import opened Words

  const TWO_63 := 0x8000_0000_0000_0000

  const TWO_64 := 0x1_0000_0000_0000_0000

  /** t1 local send, t2 peer receive, t3 peer reply, t4 local receive. */
  datatype Sample = Sample(t1: U64, t2: U64, t3: U64, t4: U64)

  datatype Offset = Offset(offset: int, delay: int, uncertainty: nat, at: nat, samples: nat)

  /** `as i64`. */
  function Narrow(x: int): int {
    (x + TWO_63) % TWO_64 - TWO_63
  }

  /** Division by two toward zero. */
  function Half(x: int): int {
    if x >= 0 then x / 2 else -((-x) / 2)
  }

  function TrueDelay(s: Sample): int {
    (s.t4 - s.t1) - (s.t3 - s.t2)
  }

  function TrueOffset(s: Sample): int {
    Half((s.t2 - s.t1) + (s.t3 - s.t4))
  }

  function Delay(s: Sample): int {
    Narrow(TrueDelay(s))
  }

  function OffsetOf(s: Sample): int {
    Narrow(TrueOffset(s))
  }

  predicate Consistent(s: Sample) {
    s.t4 >= s.t1 && s.t3 >= s.t2
  }

  function Usable(samples: seq<Sample>): seq<Sample> {
    if samples == [] then []
    else
      var rest := Usable(samples[..|samples| - 1]);
      if Consistent(samples[|samples| - 1]) then rest + [samples[|samples| - 1]] else rest
  }

  /** The first sample of the smallest delay. */
  function Fastest(samples: seq<Sample>): (s: Sample)
    requires samples != []
    ensures s in samples
    ensures forall q :: q in samples ==> Delay(s) <= Delay(q)
  {
    var last := samples[|samples| - 1];
    if |samples| == 1 then last
    else
      var s := Fastest(samples[..|samples| - 1]);
      assert forall q :: q in samples ==> q == last || q in samples[..|samples| - 1];
      if Delay(last) < Delay(s) then last else s
  }

  /** Half of a non-negative delay, rounded up. */
  function Uncertainty(delay: int): nat {
    if delay <= 0 then 0 else (delay + 1) / 2
  }

  function BestOffset(samples: seq<Sample>): Option<Offset> {
    var usable := Usable(samples);
    if usable == [] then None
    else
      var s := Fastest(usable);
      Some(Offset(OffsetOf(s), Delay(s), Uncertainty(Delay(s)), s.t4, |usable|))
  }

  // ----- The bound ---------------------------------------------------------

  /** The peer's clock is ahead by `theta`, and neither one-way delay is negative. */
  ghost predicate Honest(s: Sample, theta: int) {
    s.t2 - s.t1 - theta >= 0 && s.t4 - s.t3 + theta >= 0
  }

  predicate Fits(x: int) {
    -TWO_63 <= x < TWO_63
  }

  ghost predicate Within(s: Sample, theta: int) {
    theta - Uncertainty(Delay(s)) <= OffsetOf(s) <= theta + Uncertainty(Delay(s))
  }

  /** Truncation costs less than the rounding up of the uncertainty gains. */
  lemma HalfIsClose(theta: int, out: nat, back: nat)
    ensures var x := 2 * theta + out - back;
            -((out + back + 1) / 2) <= Half(x) - theta <= (out + back + 1) / 2
  {
  }

  /** What an honest exchange's narrowed values are when they do not fit. */
  lemma Overflows(s: Sample, theta: int)
    requires Honest(s, theta) && Consistent(s)
    ensures 0 <= TrueDelay(s) < TWO_64
    ensures Delay(s) == if Fits(TrueDelay(s)) then TrueDelay(s) else TrueDelay(s) - TWO_64
    ensures theta - Uncertainty(TrueDelay(s)) <= TrueOffset(s) <= theta + Uncertainty(TrueDelay(s))
    ensures -TWO_64 < TrueOffset(s) < TWO_64
    ensures Fits(TrueOffset(s)) ==> OffsetOf(s) == TrueOffset(s)
    ensures !Fits(TrueOffset(s)) ==> OffsetOf(s) == TrueOffset(s) - TWO_64 || OffsetOf(s) == TrueOffset(s) + TWO_64
  {
    var out, back := s.t2 - s.t1 - theta, s.t4 - s.t3 + theta;
    HalfIsClose(theta, out, back);
    assert TrueDelay(s) == out + back;
    assert (s.t2 - s.t1) + (s.t3 - s.t4) == 2 * theta + out - back;
  }

  /**
   One exchange: its offset is within the reported uncertainty of the truth
   exactly when the offset fits an i64 and the delay does too, or the offset is
   exact. A delay that does not fit turns negative and reports no uncertainty
   at all; an offset that does not fit is off by 2^64.
  */
  lemma OffsetBoundIff(s: Sample, theta: int)
    requires Honest(s, theta) && Consistent(s)
    ensures Within(s, theta) <==> Fits(TrueOffset(s)) && (Fits(TrueDelay(s)) || OffsetOf(s) == theta)
  {
    Overflows(s, theta);
  }

  /**
   Whatever the truth behind it, an exchange keeps the bound exactly when its
   delay and its offset fit an i64, which can be seen from the exchange alone.
  */
  lemma OffsetBoundKnown(s: Sample)
    requires Consistent(s) && TrueDelay(s) >= 0
    ensures (forall theta :: Honest(s, theta) ==> Within(s, theta)) <==> Fits(TrueDelay(s)) && Fits(TrueOffset(s))
  {
    var low, high := s.t3 - s.t4, s.t2 - s.t1;
    OffsetBoundIff(s, low);
    OffsetBoundIff(s, high);
    if Fits(TrueDelay(s)) && Fits(TrueOffset(s)) {
      forall theta | Honest(s, theta) ensures Within(s, theta) {
        OffsetBoundIff(s, theta);
      }
    }
  }

  lemma {:induction false} UsableAre(samples: seq<Sample>, s: Sample)
    ensures s in Usable(samples) <==> s in samples && Consistent(s)
    decreases |samples|
  {
    if samples != [] {
      var last := samples[|samples| - 1];
      assert samples == samples[..|samples| - 1] + [last];
      UsableAre(samples[..|samples| - 1], s);
    }
  }

  lemma UsableExactly(samples: seq<Sample>)
    ensures forall s :: s in Usable(samples) <==> s in samples && Consistent(s)
    ensures Usable(samples) == [] <==> forall s :: s in samples ==> !Consistent(s)
  {
    forall s ensures s in Usable(samples) <==> s in samples && Consistent(s) {
      UsableAre(samples, s);
    }
    if Usable(samples) != [] {
      assert Usable(samples)[0] in Usable(samples);
    }
  }

  /** Every consistent exchange is honest about the one true offset. */
  ghost predicate AllHonest(samples: seq<Sample>, theta: int) {
    forall s :: s in samples && Consistent(s) ==> Honest(s, theta)
  }

  ghost predicate DelaysFit(samples: seq<Sample>) {
    forall s :: s in samples && Consistent(s) ==> Fits(TrueDelay(s))
  }

  ghost predicate BestWithin(samples: seq<Sample>, theta: int)
    requires BestOffset(samples).Some?
  {
    var r := BestOffset(samples).value;
    theta - r.uncertainty <= r.offset <= theta + r.uncertainty
  }

  /** The exchange the estimate is taken from. */
  ghost function Best(samples: seq<Sample>): Sample
    requires Usable(samples) != []
  {
    Fastest(Usable(samples))
  }

  /** One delay that does not fit wins the comparison, so the best fits exactly when all do. */
  lemma BestFitsIffAllFit(samples: seq<Sample>, theta: int)
    requires AllHonest(samples, theta) && Usable(samples) != []
    ensures Fits(TrueDelay(Best(samples))) <==> DelaysFit(samples)
    ensures Best(samples) in samples && Consistent(Best(samples)) && Honest(Best(samples), theta)
  {
    UsableExactly(samples);
    Overflows(Best(samples), theta);
    forall s | s in samples && Consistent(s) ensures s in Usable(samples) && Delay(Best(samples)) <= Delay(s) {
    }
    forall s | s in samples && Consistent(s)
      ensures Delay(s) == if Fits(TrueDelay(s)) then TrueDelay(s) else TrueDelay(s) - TWO_64
      ensures 0 <= TrueDelay(s) < TWO_64
    {
      Overflows(s, theta);
    }
  }

  /**
   The estimate of any exchanges with non-negative one-way delays and one true
   offset. It exists exactly when some exchange is consistent. It is within its
   uncertainty of the truth exactly when its offset fits an i64 and every
   consistent delay does, or the offset is exact. With every delay fitting, no
   consistent exchange promised less uncertainty.
  */
  lemma BestOffsetBound(samples: seq<Sample>, theta: int)
    requires AllHonest(samples, theta)
    ensures BestOffset(samples).Some? <==> exists s :: s in samples && Consistent(s)
    ensures BestOffset(samples).Some? ==>
              var r, best := BestOffset(samples).value, Best(samples);
              && best in samples && Consistent(best)
              && (BestWithin(samples, theta) <==>
                    Fits(TrueOffset(best)) && (DelaysFit(samples) || r.offset == theta))
              && (DelaysFit(samples) ==>
                    && r.delay == TrueDelay(best) && r.uncertainty == (r.delay + 1) / 2
                    && forall s :: s in samples && Consistent(s) ==> r.uncertainty <= (TrueDelay(s) + 1) / 2)
  {
    UsableExactly(samples);
    if Usable(samples) != [] {
      var best := Best(samples);
      BestFitsIffAllFit(samples, theta);
      OffsetBoundIff(best, theta);
      Overflows(best, theta);
      forall s | s in samples && Consistent(s) && DelaysFit(samples) ensures TrueDelay(best) <= TrueDelay(s) {
        assert s in Usable(samples);
        Overflows(s, theta);
      }
    }
  }

  /** Some consistent exchange went out without delay, and some came back without, at the offset `x`. */
  ghost predicate Pins(samples: seq<Sample>, x: int) {
    && (exists s :: s in samples && Consistent(s) && s.t2 - s.t1 == x)
    && (exists s :: s in samples && Consistent(s) && s.t3 - s.t4 == x)
  }

  /** That is exactly when the exchanges leave no other true offset. */
  lemma PinsIsOnlyTruth(samples: seq<Sample>, some: int, x: int)
    requires AllHonest(samples, some)
    ensures Pins(samples, x) <==> forall theta :: AllHonest(samples, theta) ==> theta == x
  {
    if Pins(samples, x) {
      var s :| s in samples && Consistent(s) && s.t2 - s.t1 == x;
      var q :| q in samples && Consistent(q) && q.t3 - q.t4 == x;
      assert forall theta :: AllHonest(samples, theta) ==> Honest(s, theta) && Honest(q, theta);
    }
    if forall theta :: AllHonest(samples, theta) ==> theta == x {
      assert AllHonest(samples, x) && !AllHonest(samples, x + 1) && !AllHonest(samples, x - 1);
      var s :| s in samples && Consistent(s) && !Honest(s, x + 1);
      var q :| q in samples && Consistent(q) && !Honest(q, x - 1);
      assert Honest(s, x) && Honest(q, x);
    }
  }

  /**
   Whatever the truth behind them, exchanges that some true offset explains
   keep the bound exactly when the estimate's offset fits an i64 and every
   consistent delay does, or two of them pin the truth to the reported offset.
   All of it can be seen from the exchanges alone.
  */
  lemma BestOffsetKnown(samples: seq<Sample>, some: int)
    requires AllHonest(samples, some) && Usable(samples) != []
    ensures (forall theta :: AllHonest(samples, theta) ==> BestWithin(samples, theta))
            <==> && Fits(TrueOffset(Best(samples)))
                 && (DelaysFit(samples) || Pins(samples, BestOffset(samples).value.offset))
  {
    UsableExactly(samples);
    forall theta | AllHonest(samples, theta)
      ensures BestWithin(samples, theta) <==>
                Fits(TrueOffset(Best(samples))) && (DelaysFit(samples) || BestOffset(samples).value.offset == theta)
    {
      BestOffsetBound(samples, theta);
    }
    PinsIsOnlyTruth(samples, some, BestOffset(samples).value.offset);
    assert BestWithin(samples, some) <==>
             Fits(TrueOffset(Best(samples))) && (DelaysFit(samples) || BestOffset(samples).value.offset == some);
  }

  /** A one-way delay of 2^63 ns is reported as an exact offset, and the offset is wrong. */
  lemma HugeDelayBreaksTheBound()
    ensures var s := Sample(0, TWO_63, TWO_63, TWO_63);
            && Honest(s, 0) && Consistent(s)
            && BestOffset([s]) == Some(Offset(TWO_63 / 2, -TWO_63, 0, TWO_63, 1))
            && !BestWithin([s], 0)
  {
    var s := Sample(0, TWO_63, TWO_63, TWO_63);
    assert [s][..0] == [];
    assert Usable([s]) == [s];
  }

  /** A peer's clock 2^63 ns ahead is reported as far behind, with an uncertainty of 1 ns. */
  lemma FarClockBreaksTheBound()
    ensures var s := Sample(0, TWO_63 + 5, TWO_63 + 5, 1);
            && Honest(s, TWO_63 + 4) && Consistent(s) && TrueDelay(s) == 1
            && BestOffset([s]) == Some(Offset(4 - TWO_63, 1, 1, 1, 1))
            && !BestWithin([s], TWO_63 + 4)
  {
    var s := Sample(0, TWO_63 + 5, TWO_63 + 5, 1);
    assert [s][..0] == [];
    assert Usable([s]) == [s];
  }
}
