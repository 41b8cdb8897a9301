/**
  The arithmetic of the Relative Strength Index as script.js computes it:
  the split of a price difference into a gain and a loss, Wilder's smoothing,
  the seed mean over the first Period differences and the RSI formula.
  Exact `real` arithmetic stands in for JavaScript doubles.
 */
module Indicator {
  import opened Config

  /**
    An RSI as script.js holds it. `Undefined` is the NaN that
    `avgGain / avgLoss` yields when both averages are 0: the source has no
    guard for that case, so the model carries the NaN instead of a chosen value.
   */
  datatype Rsi = Value(v: real) | Undefined

  /** Every defined RSI lies in [0, 100]. */
  predicate InRange(r: Rsi) {
    r.Value? ==> 0.0 <= r.v <= 100.0
  }

  /** The gain of one step: the difference when it is positive, else 0. */
  function Gain(diff: real): (g: real)
    ensures g >= 0.0
  {
    if diff > 0.0 then diff else 0.0
  }

  /** The loss of one step: the absolute difference when it is negative, else 0. */
  function Loss(diff: real): (l: real)
    ensures l >= 0.0
  {
    if diff < 0.0 then -diff else 0.0
  }

  /** A difference splits into a gain and a loss, both non-negative, at most one non-zero, with gain - loss == diff. */
  lemma GainLossSplit(diff: real)
    ensures Gain(diff) >= 0.0 && Loss(diff) >= 0.0
    ensures Gain(diff) == 0.0 || Loss(diff) == 0.0
    ensures Gain(diff) - Loss(diff) == diff
  {
  }

  /** One step of Wilder's smoothing: avg = (avg * (Period - 1) + x) / Period. */
  function Smooth(avg: real, x: real): (r: real)
    ensures avg <= x ==> avg <= r <= x
    ensures x <= avg ==> x <= r <= avg
    ensures avg > 0.0 && x >= 0.0 ==> r > 0.0
  {
    (avg * (Period - 1) as real + x) / Period as real
  }

  /**
    Wilder's smoothing applied to every value of `ys` in order, starting from
    `avg`; a non-negative average smoothed with non-negative values stays
    non-negative.
   */
  function Wilder(avg: real, ys: seq<real>): (r: real)
    ensures avg >= 0.0 && (forall i :: 0 <= i < |ys| ==> ys[i] >= 0.0) ==> r >= 0.0
    decreases |ys|
  {
    if ys == [] then avg else Smooth(Wilder(avg, ys[..|ys| - 1]), ys[|ys| - 1])
  }

  /** The sum of `s`, added left to right as Array.prototype.reduce does. */
  function Sum(s: seq<real>): (r: real)
    ensures (forall i :: 0 <= i < |s| ==> 0.0 <= s[i]) ==> 0.0 <= r
    decreases |s|
  {
    if s == [] then 0.0 else Sum(s[..|s| - 1]) + s[|s| - 1]
  }

  /**
    The seed average: the sum of the first Period values (all of them when there
    are fewer, as `slice(0, Period)` clamps) divided by Period.
   */
  function Seed(xs: seq<real>): (r: real)
    ensures (forall i :: 0 <= i < |xs| ==> 0.0 <= xs[i]) ==> 0.0 <= r
    ensures |xs| < Period ==> r == Sum(xs) / Period as real
  {
    assert xs[..|xs|] == xs;
    Sum(xs[..Min(Period, |xs|)]) / Period as real
  }

  /**
    The average after the seed and Wilder's smoothing over the values past the
    first Period; with no more than Period values no smoothing step is taken.
   */
  function InitialAverage(xs: seq<real>): (r: real)
    ensures |xs| <= Period ==> r == Seed(xs)
  {
    Wilder(Seed(xs), xs[Min(Period, |xs|)..])
  }

  /** The difference between the last two closes of a history of at least two. */
  function LastDiff(closes: seq<real>): real
    requires |closes| >= 2
  {
    closes[|closes| - 1] - closes[|closes| - 2]
  }

  /** The gains of the consecutive differences of `closes`, oldest first. */
  function Gains(closes: seq<real>): (r: seq<real>)
    ensures |r| == if closes == [] then 0 else |closes| - 1
    ensures forall i :: 0 <= i < |r| ==> r[i] >= 0.0
    decreases |closes|
  {
    if |closes| <= 1 then [] else Gains(closes[..|closes| - 1]) + [Gain(LastDiff(closes))]
  }

  /** The losses of the consecutive differences of `closes`, oldest first. */
  function Losses(closes: seq<real>): (r: seq<real>)
    ensures |r| == if closes == [] then 0 else |closes| - 1
    ensures forall i :: 0 <= i < |r| ==> r[i] >= 0.0
    decreases |closes|
  {
    if |closes| <= 1 then [] else Losses(closes[..|closes| - 1]) + [Loss(LastDiff(closes))]
  }

  /**
    The RSI of a pair of averages, 100 - 100 / (1 + avgGain / avgLoss), with the
    division by zero made explicit: a positive gain over no loss is JavaScript's
    Infinity, for which the formula gives exactly 100; no gain over no loss is NaN.
   */
  function RsiOf(avgGain: real, avgLoss: real): (r: Rsi)
    requires avgGain >= 0.0 && avgLoss >= 0.0
    ensures InRange(r)
    ensures r.Undefined? <==> avgGain == 0.0 && avgLoss == 0.0
    ensures r == Value(100.0) <==> avgGain > 0.0 && avgLoss == 0.0
    ensures r == Value(0.0) <==> avgGain == 0.0 && avgLoss > 0.0
  {
    if avgLoss > 0.0 then
      RatioBounds(avgGain, avgLoss);
      Value(100.0 - 100.0 / (1.0 + avgGain / avgLoss))
    else if avgGain > 0.0 then Value(100.0)
    else Undefined
  }

  /** The RSI formula on a positive loss lies in [0, 100), and is 0 exactly when there is no gain. */
  lemma RatioBounds(avgGain: real, avgLoss: real)
    requires avgGain >= 0.0 && avgLoss > 0.0
    ensures 0.0 <= 100.0 - 100.0 / (1.0 + avgGain / avgLoss) < 100.0
    ensures 100.0 - 100.0 / (1.0 + avgGain / avgLoss) == 0.0 <==> avgGain == 0.0
  {
  }

  /** On a positive loss the RSI is the gain's share of the total movement: 100 * avgGain / (avgGain + avgLoss). */
  lemma RsiShare(avgGain: real, avgLoss: real)
    requires avgGain >= 0.0 && avgLoss > 0.0
    ensures RsiOf(avgGain, avgLoss) == Value(100.0 * avgGain / (avgGain + avgLoss))
  {
  }

  // Properties of the averages over a history

  /** Smoothing values of at least `lo`, starting from at least `lo`, stays at least `lo`. */
  lemma {:induction false} WilderAtLeast(avg: real, ys: seq<real>, lo: real)
    requires lo <= avg
    requires forall i :: 0 <= i < |ys| ==> lo <= ys[i]
    ensures lo <= Wilder(avg, ys)
    decreases |ys|
  {
    if ys != [] {
      WilderAtLeast(avg, ys[..|ys| - 1], lo);
    }
  }

  /** Smoothing values of at most `hi`, starting from at most `hi`, stays at most `hi`. */
  lemma {:induction false} WilderAtMost(avg: real, ys: seq<real>, hi: real)
    requires avg <= hi
    requires forall i :: 0 <= i < |ys| ==> ys[i] <= hi
    ensures Wilder(avg, ys) <= hi
    decreases |ys|
  {
    if ys != [] {
      WilderAtMost(avg, ys[..|ys| - 1], hi);
    }
  }

  /** Smoothing the values xs[k..i + 1] is smoothing xs[k..i] and then one step with xs[i]. */
  lemma WilderStep(avg: real, xs: seq<real>, k: nat, i: nat)
    requires k <= i < |xs|
    ensures Wilder(avg, xs[k..i + 1]) == Smooth(Wilder(avg, xs[k..i]), xs[i])
  {
    assert xs[k..i + 1][..i - k] == xs[k..i];
  }

  /** Smoothing non-negative values from a positive start stays positive. */
  lemma {:induction false} WilderPositive(avg: real, ys: seq<real>)
    requires avg > 0.0
    requires forall i :: 0 <= i < |ys| ==> ys[i] >= 0.0
    ensures Wilder(avg, ys) > 0.0
    decreases |ys|
  {
    if ys != [] {
      WilderPositive(avg, ys[..|ys| - 1]);
    }
  }

  /** The sum of n values of at most `hi` is at most n * hi. */
  lemma {:induction false} SumAtMost(s: seq<real>, hi: real)
    requires forall i :: 0 <= i < |s| ==> s[i] <= hi
    ensures Sum(s) <= |s| as real * hi
    decreases |s|
  {
    if s != [] {
      var init := s[..|s| - 1];
      assert forall i :: 0 <= i < |init| ==> init[i] <= hi;
      SumAtMost(init, hi);
      assert Sum(s) == Sum(init) + s[|s| - 1];
      assert (|s| - 1) as real * hi + hi == |s| as real * hi;
    }
  }

  /** The sum of a non-empty sequence of positive values is positive. */
  lemma {:induction false} SumPositive(s: seq<real>)
    requires s != []
    requires forall i :: 0 <= i < |s| ==> s[i] > 0.0
    ensures Sum(s) > 0.0
    decreases |s|
  {
    if |s| > 1 {
      SumPositive(s[..|s| - 1]);
    }
  }

  /** The initial average of non-negative values is non-negative. */
  lemma InitialAverageNonNegative(xs: seq<real>)
    requires forall i :: 0 <= i < |xs| ==> 0.0 <= xs[i]
    ensures 0.0 <= InitialAverage(xs)
  {
    WilderAtLeast(Seed(xs), xs[Min(Period, |xs|)..], 0.0);
  }

  /** The initial average of values from [0, hi] lies in [0, hi]: it never exceeds the largest single value. */
  lemma InitialAverageWithin(xs: seq<real>, hi: real)
    requires hi >= 0.0
    requires forall i :: 0 <= i < |xs| ==> 0.0 <= xs[i] <= hi
    ensures 0.0 <= InitialAverage(xs) <= hi
  {
    var k := Min(Period, |xs|);
    InitialAverageNonNegative(xs);
    SumAtMost(xs[..k], hi);
    assert (Period - k) as real * hi >= 0.0;
    assert k as real * hi <= Period as real * hi;
    assert Seed(xs) == Sum(xs[..k]) / Period as real <= Period as real * hi / Period as real == hi;
    WilderAtMost(Seed(xs), xs[k..], hi);
  }

  /** The initial average of positive values is positive. */
  lemma InitialAveragePositive(xs: seq<real>)
    requires xs != []
    requires forall i :: 0 <= i < |xs| ==> xs[i] > 0.0
    ensures InitialAverage(xs) > 0.0
  {
    var k := Min(Period, |xs|);
    SumPositive(xs[..k]);
    WilderPositive(Seed(xs), xs[k..]);
  }

  /**
    Once there are at least Period values, one more value changes the initial
    average by exactly one more step of Wilder's smoothing.
   */
  lemma InitialAverageExtend(xs: seq<real>, x: real)
    requires |xs| >= Period
    ensures InitialAverage(xs + [x]) == Smooth(InitialAverage(xs), x)
  {
    var ys := xs + [x];
    assert ys[..Period] == xs[..Period];
    assert ys[Period..] == xs[Period..] + [x];
    assert (xs[Period..] + [x])[..|xs| - Period] == xs[Period..];
  }

  /** A history of n closes gives n - 1 gains and losses, split from the consecutive differences. */
  lemma {:induction false} SplitHistory(closes: seq<real>)
    requires closes != []
    ensures |Gains(closes)| == |Losses(closes)| == |closes| - 1
    ensures forall i :: 0 <= i < |closes| - 1 ==>
      && Gains(closes)[i] == Gain(closes[i + 1] - closes[i])
      && Losses(closes)[i] == Loss(closes[i + 1] - closes[i])
    decreases |closes|
  {
    if |closes| > 1 {
      var prefix := closes[..|closes| - 1];
      SplitHistory(prefix);
      assert forall i :: 0 <= i < |prefix| ==> prefix[i] == closes[i];
    }
  }

  /** Appending a close appends the gain and the loss of its difference from the previous last close. */
  lemma {:induction false} HistoryExtend(closes: seq<real>, price: real)
    requires closes != []
    ensures Gains(closes + [price]) == Gains(closes) + [Gain(price - closes[|closes| - 1])]
    ensures Losses(closes + [price]) == Losses(closes) + [Loss(price - closes[|closes| - 1])]
  {
  }

  /** The gains and losses of any history are non-negative, and so are their initial averages. */
  lemma HistoryAveragesNonNegative(closes: seq<real>)
    ensures forall i :: 0 <= i < |Gains(closes)| ==> Gains(closes)[i] >= 0.0
    ensures forall i :: 0 <= i < |Losses(closes)| ==> Losses(closes)[i] >= 0.0
    ensures InitialAverage(Gains(closes)) >= 0.0 && InitialAverage(Losses(closes)) >= 0.0
  {
    if closes != [] {
      SplitHistory(closes);
    }
    InitialAverageNonNegative(Gains(closes));
    InitialAverageNonNegative(Losses(closes));
  }

  /** Every consecutive pair of closes rises. */
  predicate Rising(closes: seq<real>) {
    forall i :: 0 <= i < |closes| - 1 ==> closes[i] < closes[i + 1]
  }

  /** Every consecutive pair of closes falls. */
  predicate Falling(closes: seq<real>) {
    forall i :: 0 <= i < |closes| - 1 ==> closes[i] > closes[i + 1]
  }

  /** Every consecutive pair of closes is equal. */
  predicate Flat(closes: seq<real>) {
    forall i :: 0 <= i < |closes| - 1 ==> closes[i] == closes[i + 1]
  }

  /** A strictly rising history has no average loss, a positive average gain and RSI 100. */
  lemma RisingHistory(closes: seq<real>)
    requires |closes| >= 2 && Rising(closes)
    ensures InitialAverage(Losses(closes)) == 0.0
    ensures InitialAverage(Gains(closes)) > 0.0
    ensures RsiOf(InitialAverage(Gains(closes)), InitialAverage(Losses(closes))) == Value(100.0)
  {
    SplitHistory(closes);
    forall i | 0 <= i < |closes| - 1 ensures Losses(closes)[i] == 0.0 && Gains(closes)[i] > 0.0 {
      assert closes[i] < closes[i + 1];
    }
    InitialAverageWithin(Losses(closes), 0.0);
    InitialAveragePositive(Gains(closes));
  }

  /** A strictly falling history has no average gain, a positive average loss and RSI 0. */
  lemma FallingHistory(closes: seq<real>)
    requires |closes| >= 2 && Falling(closes)
    ensures InitialAverage(Gains(closes)) == 0.0
    ensures InitialAverage(Losses(closes)) > 0.0
    ensures RsiOf(InitialAverage(Gains(closes)), InitialAverage(Losses(closes))) == Value(0.0)
  {
    SplitHistory(closes);
    forall i | 0 <= i < |closes| - 1 ensures Gains(closes)[i] == 0.0 && Losses(closes)[i] > 0.0 {
      assert closes[i] > closes[i + 1];
    }
    InitialAverageWithin(Gains(closes), 0.0);
    InitialAveragePositive(Losses(closes));
  }

  /** A history without movement leaves both averages 0, so the RSI is the NaN of 0 / 0. */
  lemma FlatHistory(closes: seq<real>)
    requires |closes| >= 2 && Flat(closes)
    ensures InitialAverage(Gains(closes)) == 0.0 && InitialAverage(Losses(closes)) == 0.0
    ensures RsiOf(InitialAverage(Gains(closes)), InitialAverage(Losses(closes))) == Undefined
  {
    SplitHistory(closes);
    forall i | 0 <= i < |closes| - 1 ensures Gains(closes)[i] == 0.0 && Losses(closes)[i] == 0.0 {
      assert closes[i] == closes[i + 1];
    }
    InitialAverageWithin(Gains(closes), 0.0);
    InitialAverageWithin(Losses(closes), 0.0);
  }
}
