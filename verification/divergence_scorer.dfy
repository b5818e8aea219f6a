/**
  The RSI-divergence scorer: over the last 20 bars, compares the latest bar
  with the prior swing high and swing low (the final 3 bars excluded), and
  fires only when the price/RSI divergence is confirmed by a reversal
  pattern among the last 3 bars.
 */
module DivergenceScorer {
  import opened Types
  import opened Candles

  /** Number of bars the scorer looks at. */
  const Window: int := 20
  /** Trailing bars excluded from the swing search and searched for a reversal. */
  const Recent: int := 3

  const DivergenceConfidence: real := 0.8
  const DivergenceTtl: int := 2 * Minute

  /** `h` is the first bar with the highest high among bars `0..k-1`. */
  ghost predicate IsFirstHighest(c: seq<Candle>, h: int, k: int)
    requires k <= |c|
  {
    && 0 <= h < k
    && (forall j :: 0 <= j < k ==> c[j].high <= c[h].high)
    && (forall j :: 0 <= j < h ==> c[j].high < c[h].high)
  }

  /** `l` is the first bar with the lowest low among bars `0..k-1`. */
  ghost predicate IsFirstLowest(c: seq<Candle>, l: int, k: int)
    requires k <= |c|
  {
    && 0 <= l < k
    && (forall j :: 0 <= j < k ==> c[j].low >= c[l].low)
    && (forall j :: 0 <= j < l ==> c[j].low > c[l].low)
  }

  /** The state of the swing search: the best indices so far and whether either ever moved off bar 0. */
  datatype Swing = Swing(highIdx: int, lowIdx: int, highFound: bool, lowFound: bool)

  /**
    The swing search after visiting bars `1..k-1`: an index moves only to a
    strictly higher high (strictly lower low), and the matching flag records
    that it moved.
   */
  function SwingScan(c: seq<Candle>, k: int): (s: Swing)
    requires 1 <= k <= |c|
    ensures IsFirstHighest(c, s.highIdx, k) && IsFirstLowest(c, s.lowIdx, k)
    ensures s.highFound <==> exists i :: 1 <= i < k && c[i].high > c[0].high
    ensures s.lowFound <==> exists i :: 1 <= i < k && c[i].low < c[0].low
    decreases k
  {
    if k == 1 then Swing(0, 0, false, false)
    else
      var s := SwingScan(c, k - 1);
      var i := k - 1;
      var s' := if c[i].high > c[s.highIdx].high then s.(highIdx := i, highFound := true) else s;
      if c[i].low < c[s'.lowIdx].low then s'.(lowIdx := i, lowFound := true) else s'
  }

  lemma FirstHighestUnique(c: seq<Candle>, h1: int, h2: int, k: int)
    requires k <= |c|
    requires IsFirstHighest(c, h1, k) && IsFirstHighest(c, h2, k)
    ensures h1 == h2
  {
    assert c[h1].high <= c[h2].high && c[h2].high <= c[h1].high;
  }

  lemma FirstLowestUnique(c: seq<Candle>, l1: int, l2: int, k: int)
    requires k <= |c|
    requires IsFirstLowest(c, l1, k) && IsFirstLowest(c, l2, k)
    ensures l1 == l2
  {
    assert c[l1].low >= c[l2].low && c[l2].low >= c[l1].low;
  }

  /** Some bar of the swing range is higher, or lower, than its first bar. */
  ghost predicate SwingPointsExist(c: seq<Candle>)
    requires |c| == Window
  {
    exists i :: 1 <= i < Window - Recent && (c[i].high > c[0].high || c[i].low < c[0].low)
  }

  /** Bearish divergence in a 20-bar window: higher high, lower RSI, bearish reversal. */
  ghost predicate WindowBearish(c: seq<Candle>, rv: seq<real>)
    requires |c| == Window && |rv| == Window
  {
    && SwingPointsExist(c)
    && (exists h :: IsFirstHighest(c, h, Window - Recent)
                    && c[Window - 1].high > c[h].high && rv[Window - 1] < rv[h])
    && RevDir(c[Window - Recent..]) == Some(Down)
  }

  /** Bullish divergence in a 20-bar window: lower low, higher RSI, bullish reversal. */
  ghost predicate WindowBullish(c: seq<Candle>, rv: seq<real>)
    requires |c| == Window && |rv| == Window
  {
    && SwingPointsExist(c)
    && (exists l :: IsFirstLowest(c, l, Window - Recent)
                    && c[Window - 1].low < c[l].low && rv[Window - 1] > rv[l])
    && RevDir(c[Window - Recent..]) == Some(Up)
  }

  /**
    Bearish divergence confirmed over the last 20 bars: swing points exist,
    the latest high exceeds the prior swing high while the latest RSI is
    below the RSI there, and the latest reversal among the last 3 bars is
    bearish.
   */
  ghost predicate BearishDivergence(candles: seq<Candle>, rsi: seq<real>)
  {
    && |candles| >= Window && |rsi| == |candles|
    && WindowBearish(candles[|candles| - Window..], rsi[|rsi| - Window..])
  }

  /** The mirror image: lower low, higher RSI, bullish reversal. */
  ghost predicate BullishDivergence(candles: seq<Candle>, rsi: seq<real>)
  {
    && |candles| >= Window && |rsi| == |candles|
    && WindowBullish(candles[|candles| - Window..], rsi[|rsi| - Window..])
  }

  /** The divergence test on one 20-bar window and its RSI values. */
  function ScoreWindow(symbol: string, c: seq<Candle>, rv: seq<real>): (r: seq<Signal>)
    requires |c| == Window && |rv| == Window
    ensures |r| <= 1
    ensures forall k :: 0 <= k < |r| ==>
              r[k].symbol == symbol && r[k].confidence == 0.8 && r[k].ttl == 2 * Minute
    ensures HasDirection(r, Down) <==> WindowBearish(c, rv)
    ensures HasDirection(r, Up) <==> WindowBullish(c, rv)
  {
    var lookback := |c| - Recent;
    var sw := SwingScan(c, lookback);
    DivergenceSelect(c, rv, sw);
    var latest := |c| - 1;
    var rev := RevDir(c[|c| - Recent..]);
    var swings := sw.highFound || sw.lowFound;
    var down := swings && c[latest].high > c[sw.highIdx].high && rv[latest] < rv[sw.highIdx] && rev == Some(Down);
    var up := swings && c[latest].low < c[sw.lowIdx].low && rv[latest] > rv[sw.lowIdx] && rev == Some(Up);
    Emit(symbol, down, up)
  }

  /**
    The signals appended by the two checks: a DOWN when `down` holds, then
    an UP when `up` holds, both with the divergence confidence and TTL.
   */
  function Emit(symbol: string, down: bool, up: bool): (r: seq<Signal>)
    ensures |r| == (if down then 1 else 0) + (if up then 1 else 0)
    ensures forall k :: 0 <= k < |r| ==>
              r[k].symbol == symbol && r[k].confidence == 0.8 && r[k].ttl == 2 * Minute
    ensures HasDirection(r, Down) <==> down
    ensures HasDirection(r, Up) <==> up
    ensures down ==> r[0].direction == Down
  {
    var d := if down then [Signal(symbol, Down, DivergenceConfidence, DivergenceTtl)] else [];
    var u := if up then [Signal(symbol, Up, DivergenceConfidence, DivergenceTtl)] else [];
    var r := d + u;
    assert down ==> r[0].direction == Down;
    assert up ==> r[|d|].direction == Up;
    r
  }

  /**
    `ScoreRSIDivergence` (context and logger dropped): nothing on too few
    bars or mismatched RSI length, otherwise the divergence test on the
    last 20 bars. The swing search cannot come up empty-handed for lack of
    bars (`lookback` is always 17), so that early return is not modelled.
   */
  function ScoreRSIDivergence(symbol: string, candles: seq<Candle>, rsi: seq<real>): (r: seq<Signal>)
    ensures |candles| < Window || |rsi| != |candles| ==> r == []
    ensures |r| <= 1
    ensures forall k :: 0 <= k < |r| ==>
              r[k].symbol == symbol && r[k].confidence == 0.8 && r[k].ttl == 2 * Minute
  {
    var n := |candles|;
    if n < Window || n != |rsi| then []
    else
      var c, rv := candles[n - Window..], rsi[|rsi| - Window..];
      var r := ScoreWindow(symbol, c, rv);
      r
  }

  /** On valid input the scorer is the window test on the last 20 bars. */
  lemma DivergenceOnWindow(symbol: string, candles: seq<Candle>, rsi: seq<real>)
    requires |candles| >= Window && |candles| == |rsi|
    ensures ScoreRSIDivergence(symbol, candles, rsi)
         == ScoreWindow(symbol, candles[|candles| - Window..], rsi[|rsi| - Window..])
  {
  }

  /** A DOWN signal is emitted exactly on a confirmed bearish divergence. */
  lemma DivergenceDownIff(symbol: string, candles: seq<Candle>, rsi: seq<real>)
    ensures HasDirection(ScoreRSIDivergence(symbol, candles, rsi), Down) <==> BearishDivergence(candles, rsi)
  {
    var n := |candles|;
    if n >= Window && n == |rsi| {
      DivergenceOnWindow(symbol, candles, rsi);
    }
  }

  /** An UP signal is emitted exactly on a confirmed bullish divergence. */
  lemma DivergenceUpIff(symbol: string, candles: seq<Candle>, rsi: seq<real>)
    ensures HasDirection(ScoreRSIDivergence(symbol, candles, rsi), Up) <==> BullishDivergence(candles, rsi)
  {
    var n := |candles|;
    if n >= Window && n == |rsi| {
      DivergenceOnWindow(symbol, candles, rsi);
    }
  }

  /** Connects the swing search with the predicates' unique swing points. */
  lemma DivergenceSelect(c: seq<Candle>, rv: seq<real>, sw: Swing)
    requires |c| == Window && |rv| == Window
    requires sw == SwingScan(c, Window - Recent)
    ensures SwingPointsExist(c) <==> sw.highFound || sw.lowFound
    ensures (exists h :: IsFirstHighest(c, h, Window - Recent)
                         && c[Window - 1].high > c[h].high && rv[Window - 1] < rv[h])
            <==> c[Window - 1].high > c[sw.highIdx].high && rv[Window - 1] < rv[sw.highIdx]
    ensures (exists l :: IsFirstLowest(c, l, Window - Recent)
                         && c[Window - 1].low < c[l].low && rv[Window - 1] > rv[l])
            <==> c[Window - 1].low < c[sw.lowIdx].low && rv[Window - 1] > rv[sw.lowIdx]
  {
    SelectHigh(c, rv, sw.highIdx);
    SelectLow(c, rv, sw.lowIdx);
  }

  /** The bearish test at the first highest bar is the test at some highest bar. */
  lemma SelectHigh(c: seq<Candle>, rv: seq<real>, hi: int)
    requires |c| == Window && |rv| == Window
    requires IsFirstHighest(c, hi, Window - Recent)
    ensures (exists h :: IsFirstHighest(c, h, Window - Recent)
                         && c[Window - 1].high > c[h].high && rv[Window - 1] < rv[h])
            <==> c[Window - 1].high > c[hi].high && rv[Window - 1] < rv[hi]
  {
    if exists h :: IsFirstHighest(c, h, Window - Recent)
                   && c[Window - 1].high > c[h].high && rv[Window - 1] < rv[h] {
      var h :| IsFirstHighest(c, h, Window - Recent)
               && c[Window - 1].high > c[h].high && rv[Window - 1] < rv[h];
      FirstHighestUnique(c, h, hi, Window - Recent);
    }
  }

  /** The bullish test at the first lowest bar is the test at some lowest bar. */
  lemma SelectLow(c: seq<Candle>, rv: seq<real>, lo: int)
    requires |c| == Window && |rv| == Window
    requires IsFirstLowest(c, lo, Window - Recent)
    ensures (exists l :: IsFirstLowest(c, l, Window - Recent)
                         && c[Window - 1].low < c[l].low && rv[Window - 1] > rv[l])
            <==> c[Window - 1].low < c[lo].low && rv[Window - 1] > rv[lo]
  {
    if exists l :: IsFirstLowest(c, l, Window - Recent)
                   && c[Window - 1].low < c[l].low && rv[Window - 1] > rv[l] {
      var l :| IsFirstLowest(c, l, Window - Recent)
               && c[Window - 1].low < c[l].low && rv[Window - 1] > rv[l];
      FirstLowestUnique(c, l, lo, Window - Recent);
    }
  }

  /** Without a bar breaking the first bar's high or low in the swing range, nothing fires. */
  lemma NoSwingNoSignal(symbol: string, candles: seq<Candle>, rsi: seq<real>)
    requires |candles| >= Window
    requires !SwingPointsExist(candles[|candles| - Window..])
    ensures ScoreRSIDivergence(symbol, candles, rsi) == []
  {
  }

  /** The result depends only on the last 20 bars and the last 20 RSI values. */
  lemma DivergenceLastWindow(symbol: string, candles: seq<Candle>, rsi: seq<real>)
    requires |candles| >= Window && |rsi| == |candles|
    ensures ScoreRSIDivergence(symbol, candles, rsi)
         == ScoreRSIDivergence(symbol, candles[|candles| - Window..], rsi[|rsi| - Window..])
  {
    var n := |candles|;
    assert candles[n - Window..][0..] == candles[n - Window..];
    assert rsi[n - Window..][0..] == rsi[n - Window..];
  }
}
