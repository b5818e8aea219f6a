/**
  The indicator engine: the relative strength index with Wilder smoothing
  and the seeded exponential moving average, over exact reals.
 */
module Indicators {

  // ---------------------------------------------------------------------
  // Exponential moving average
  // ---------------------------------------------------------------------

  /** The smoothing constant `2 / (period + 1)`. */
  function EmaWeight(period: int): real
    requires period != -1
  {
    2.0 / ((period + 1) as real)
  }

  /** One EMA step: the new value weighted by `k`, the previous average by `1 - k`. */
  function Blend(v: real, prev: real, k: real): real
  {
    v * k + prev * (1.0 - k)
  }

  /**
    `out` is the EMA of `values`: as long as the input, seeded with the
    first value, and each later entry blends the new value with the
    previous entry using the smoothing constant.
   */
  ghost predicate IsEma(values: seq<real>, period: int, out: seq<real>)
    requires period != -1
  {
    var k := EmaWeight(period);
    && |out| == |values|
    && (|values| > 0 ==> out[0] == values[0])
    && forall i :: 1 <= i < |out| ==> out[i] == Blend(values[i], out[i-1], k)
  }

  /** `CalcEMA`, built prefix by prefix. */
  function CalcEMA(values: seq<real>, period: int): (out: seq<real>)
    requires period != -1
    ensures IsEma(values, period, out)
    decreases |values|
  {
    if |values| <= 1 then values
    else
      var n := |values|;
      var k := EmaWeight(period);
      var init := values[..n - 1];
      var prev := CalcEMA(init, period);
      var out := prev + [Blend(values[n - 1], prev[n - 2], k)];
      assert forall i :: 0 <= i < n - 1 ==> init[i] == values[i] && out[i] == prev[i];
      out
  }

  /** The recurrence pins the EMA down: two series satisfying it are equal. */
  lemma {:induction false} EmaUnique(values: seq<real>, period: int, a: seq<real>, b: seq<real>)
    requires period != -1
    requires IsEma(values, period, a) && IsEma(values, period, b)
    ensures a == b
  {
    var k := EmaWeight(period);
    var i := 0;
    while i < |a|
      invariant 0 <= i <= |a|
      invariant forall j :: 0 <= j < i ==> a[j] == b[j]
    {
      if i > 0 {
        assert a[i] == Blend(values[i], a[i-1], k);
        assert b[i] == Blend(values[i], b[i-1], k);
      }
      i := i + 1;
    }
  }

  /** A constant input has the same constant EMA, whatever the period. */
  lemma {:induction false} EmaOfConstant(values: seq<real>, period: int, x: real)
    requires period != -1
    requires forall i :: 0 <= i < |values| ==> values[i] == x
    ensures forall i :: 0 <= i < |values| ==> CalcEMA(values, period)[i] == x
  {
    var out := CalcEMA(values, period);
    var k := EmaWeight(period);
    var i := 0;
    while i < |values|
      invariant 0 <= i <= |values|
      invariant forall j :: 0 <= j < i ==> out[j] == x
    {
      if i > 0 {
        assert IsEma(values, period, out);
        assert out[i] == Blend(values[i], out[i-1], k);
        assert out[i] == Blend(x, x, k);
      }
      i := i + 1;
    }
  }

  /** With a positive period the EMA is a running convex blend, so it stays within the input's bounds. */
  lemma {:induction false} EmaWithinBounds(values: seq<real>, period: int, lo: real, hi: real)
    requires period >= 1
    requires forall i :: 0 <= i < |values| ==> lo <= values[i] <= hi
    ensures forall i :: 0 <= i < |values| ==> lo <= CalcEMA(values, period)[i] <= hi
    decreases |values|
  {
    if |values| > 1 {
      EmaWithinBounds(values[..|values| - 1], period, lo, hi);
      EmaExtendBounds(values, period, CalcEMA(values[..|values| - 1], period), lo, hi);
    }
  }

  /** If the EMA of all but the last value is within bounds, so is the EMA of all values. */
  lemma EmaExtendBounds(values: seq<real>, period: int, prev: seq<real>, lo: real, hi: real)
    requires period >= 1 && |values| > 1
    requires prev == CalcEMA(values[..|values| - 1], period)
    requires lo <= values[|values| - 1] <= hi
    requires forall i :: 0 <= i < |prev| ==> lo <= prev[i] <= hi
    ensures forall i :: 0 <= i < |values| ==> lo <= CalcEMA(values, period)[i] <= hi
  {
    var n := |values|;
    EmaEntryBounds(values[n - 1], prev[n - 2], period, lo, hi);
    EmaSnoc(values, period);
  }

  /** One EMA step with a positive period stays within bounds that hold for both of its inputs. */
  lemma EmaEntryBounds(v: real, p: real, period: int, lo: real, hi: real)
    requires period >= 1
    requires lo <= v <= hi && lo <= p <= hi
    ensures lo <= Blend(v, p, EmaWeight(period)) <= hi
  {
    WeightInUnit(period);
    BlendBounds(v, p, EmaWeight(period), lo, hi);
  }

  /** The EMA of a longer input extends the EMA of the shorter one by one blended entry. */
  lemma EmaSnoc(values: seq<real>, period: int)
    requires period != -1 && |values| > 1
    ensures var n := |values|;
            var prev := CalcEMA(values[..n - 1], period);
            CalcEMA(values, period) == prev + [Blend(values[n - 1], prev[n - 2], EmaWeight(period))]
  {
  }

  /** A positive period gives a smoothing constant in `(0, 1]`. */
  lemma WeightInUnit(period: int)
    requires period >= 1
    ensures 0.0 < EmaWeight(period) <= 1.0
  {
    var d := (period + 1) as real;
    assert d >= 2.0;
    assert EmaWeight(period) * d == 2.0;
  }

  lemma BlendBounds(v: real, p: real, k: real, lo: real, hi: real)
    requires 0.0 <= k <= 1.0
    requires lo <= v <= hi && lo <= p <= hi
    ensures lo <= v * k + p * (1.0 - k) <= hi
  {
    MulNonneg(v - lo, k);
    MulNonneg(p - lo, 1.0 - k);
    MulNonneg(hi - v, k);
    MulNonneg(hi - p, 1.0 - k);
    assert v * k + p * (1.0 - k) - lo == (v - lo) * k + (p - lo) * (1.0 - k);
    assert hi - (v * k + p * (1.0 - k)) == (hi - v) * k + (hi - p) * (1.0 - k);
  }

  lemma MulNonneg(x: real, y: real)
    requires x >= 0.0 && y >= 0.0
    ensures x * y >= 0.0
  {
  }

  // ---------------------------------------------------------------------
  // Relative strength index (Wilder smoothing)
  // ---------------------------------------------------------------------

  /** The gain carried by a price difference. */
  function Gain(d: real): real { if d > 0.0 then d else 0.0 }

  /** The loss carried by a price difference (non-positive differences count as losses). */
  function Loss(d: real): real { if d > 0.0 then 0.0 else -d }

  function Diff(closes: seq<real>, i: int): real
    requires 1 <= i < |closes|
  {
    closes[i] - closes[i-1]
  }

  /** Total gain over the differences at indices 1..m. */
  function SeedGain(closes: seq<real>, m: int): (g: real)
    requires 0 <= m < |closes|
    ensures g >= 0.0
    decreases m
  {
    if m == 0 then 0.0 else SeedGain(closes, m - 1) + Gain(Diff(closes, m))
  }

  /** Total loss over the differences at indices 1..m. */
  function SeedLoss(closes: seq<real>, m: int): (l: real)
    requires 0 <= m < |closes|
    ensures l >= 0.0
    decreases m
  {
    if m == 0 then 0.0 else SeedLoss(closes, m - 1) + Loss(Diff(closes, m))
  }

  datatype Averages = Averages(gain: real, loss: real)

  /** Wilder's update of one average with weight `1 / p`: `(prior * (p - 1) + x) / p`. */
  function Smooth(prior: real, x: real, p: real): (r: real)
    requires p >= 1.0 && prior >= 0.0 && x >= 0.0
    ensures r >= 0.0
  {
    MulNonneg(prior, p - 1.0);
    (prior * (p - 1.0) + x) / p
  }

  /**
    Wilder's smoothed average gain and loss at index `i`: the plain mean of
    the first `period` differences at `i == period`, then each later
    difference is blended in with weight `1 / period`.
   */
  function WilderAverages(closes: seq<real>, period: int, i: int): (a: Averages)
    requires 1 <= period <= i < |closes|
    ensures a.gain >= 0.0 && a.loss >= 0.0
    decreases i
  {
    var p := period as real;
    if i == period then
      Averages(SeedGain(closes, period) / p, SeedLoss(closes, period) / p)
    else
      var prev := WilderAverages(closes, period, i - 1);
      var diff := Diff(closes, i);
      if diff > 0.0 then
        Averages(Smooth(prev.gain, diff, p), Smooth(prev.loss, 0.0, p))
      else
        Averages(Smooth(prev.gain, 0.0, p), Smooth(prev.loss, -diff, p))
  }

  /** The RSI of a pair of averages; 100 when there is no average loss. */
  function RsiOf(a: Averages): (v: real)
    requires a.gain >= 0.0 && a.loss >= 0.0
    ensures 0.0 <= v <= 100.0
    ensures v == 100.0 <==> a.loss == 0.0
  {
    if a.loss == 0.0 then 100.0
    else
      var rs := a.gain / a.loss;
      assert rs >= 0.0;
      assert 100.0 / (1.0 + rs) * (1.0 + rs) == 100.0;
      100.0 - 100.0 / (1.0 + rs)
  }

  /**
    `CalcRSI`: one entry per closing price; zero while fewer than `period`
    differences are available (and everywhere when the series is too
    short), otherwise the RSI of Wilder's averages at that index.
   */
  function CalcRSI(closes: seq<real>, period: int): (rsi: seq<real>)
    requires period >= 1
    ensures |rsi| == |closes|
    ensures |closes| <= period ==> forall i :: 0 <= i < |rsi| ==> rsi[i] == 0.0
    ensures forall i :: 0 <= i < |rsi| && i < period ==> rsi[i] == 0.0
    ensures forall i :: 0 <= i < |rsi| ==> 0.0 <= rsi[i] <= 100.0
  {
    seq(|closes|, i requires 0 <= i < |closes| =>
      if |closes| <= period || i < period then 0.0
      else RsiOf(WilderAverages(closes, period, i)))
  }

  /** When none of the first `period` differences is negative, the first RSI value is 100. */
  lemma RsiSeedWithoutLoss(closes: seq<real>, period: int)
    requires 1 <= period < |closes|
    requires forall i :: 1 <= i <= period ==> closes[i] >= closes[i-1]
    ensures CalcRSI(closes, period)[period] == 100.0
  {
    SeedLossZero(closes, period);
  }

  lemma {:induction false} SeedLossZero(closes: seq<real>, m: int)
    requires 0 <= m < |closes|
    requires forall i :: 1 <= i <= m ==> closes[i] >= closes[i-1]
    ensures SeedLoss(closes, m) == 0.0
    decreases m
  {
    if m > 0 {
      SeedLossZero(closes, m - 1);
    }
  }

  /**
    Each step after the seed is Wilder's smoothing in its textbook form:
    the new average moves toward the current gain (loss) by `1 / period`
    of the distance.
   */
  lemma WilderStep(closes: seq<real>, period: int, i: int)
    requires 1 <= period < i < |closes|
    ensures var a, prev := WilderAverages(closes, period, i), WilderAverages(closes, period, i - 1);
            var p := period as real;
            && a.gain == prev.gain + (Gain(Diff(closes, i)) - prev.gain) / p
            && a.loss == prev.loss + (Loss(Diff(closes, i)) - prev.loss) / p
  {
    var prev := WilderAverages(closes, period, i - 1);
    var p := period as real;
    var d := Diff(closes, i);
    var a := WilderAverages(closes, period, i);
    assert a.gain == Smooth(prev.gain, Gain(d), p);
    assert a.loss == Smooth(prev.loss, Loss(d), p);
    SmoothingForm(prev.gain, Gain(d), p);
    SmoothingForm(prev.loss, Loss(d), p);
  }

  /** `(prior * (p - 1) + x) / p` is `prior + (x - prior) / p`. */
  lemma SmoothingForm(prior: real, x: real, p: real)
    requires p >= 1.0 && prior >= 0.0 && x >= 0.0
    ensures Smooth(prior, x, p) == prior + (x - prior) / p
  {
    assert prior * (p - 1.0) + x == (prior + (x - prior) / p) * p;
  }
}
