/**
  The EMA-interaction scorer: a crossover of the fast EMA through the slow
  EMA between the last two bars, confirmed by the close.
 */
module EmaScorer {
  import opened Types

  const EmaConfidence: real := 0.6
  const EmaTtl: int := Minute

  /** The fast EMA crosses above the slow one at the last bar and the close confirms it. */
  ghost predicate BullishCross(candles: seq<Candle>, ema8: seq<real>, ema21: seq<real>)
    requires 2 <= |candles| == |ema8| == |ema21|
  {
    var n := |candles|;
    ema8[n-2] <= ema21[n-2] && ema8[n-1] > ema21[n-1] && candles[n-1].close > ema8[n-1]
  }

  /** The fast EMA crosses below the slow one at the last bar and the close confirms it. */
  ghost predicate BearishCross(candles: seq<Candle>, ema8: seq<real>, ema21: seq<real>)
    requires 2 <= |candles| == |ema8| == |ema21|
  {
    var n := |candles|;
    ema8[n-2] >= ema21[n-2] && ema8[n-1] < ema21[n-1] && candles[n-1].close < ema8[n-1]
  }

  /** `ScoreEMAInteractions`: at most one signal, for the direction of the crossover. */
  function ScoreEMAInteractions(symbol: string, candles: seq<Candle>, ema8: seq<real>, ema21: seq<real>)
    : (r: seq<Signal>)
    ensures |candles| < 2 || |ema8| != |candles| || |ema21| != |candles| ==> r == []
    ensures |r| <= 1
    ensures HasDirection(r, Up) <==>
              2 <= |candles| == |ema8| == |ema21| && BullishCross(candles, ema8, ema21)
    ensures HasDirection(r, Down) <==>
              2 <= |candles| == |ema8| == |ema21| && BearishCross(candles, ema8, ema21)
    ensures forall k :: 0 <= k < |r| ==>
              r[k].symbol == symbol && r[k].confidence == 0.6 && r[k].ttl == Minute
  {
    var n := |candles|;
    if n < 2 || n != |ema8| || n != |ema21| then []
    else
      var prev := n - 2;
      var last := n - 1;
      var up :=
        if ema8[prev] <= ema21[prev] && ema8[last] > ema21[last] && candles[last].close > ema8[last]
        then [Signal(symbol, Up, EmaConfidence, EmaTtl)] else [];
      var down :=
        if ema8[prev] >= ema21[prev] && ema8[last] < ema21[last] && candles[last].close < ema8[last]
        then [Signal(symbol, Down, EmaConfidence, EmaTtl)] else [];
      var r := up + down;
      assert forall k :: 0 <= k < |r| ==> (r[k].direction == Up <==> k < |up|);
      assert |up| > 0 ==> r[0].direction == Up;
      assert |down| > 0 ==> r[|up|].direction == Down;
      r
  }

  /** Only the entries at the last two indices are consulted. */
  lemma EmaLastTwo(symbol: string, candles: seq<Candle>, ema8: seq<real>, ema21: seq<real>)
    requires 2 <= |candles| == |ema8| == |ema21|
    ensures ScoreEMAInteractions(symbol, candles, ema8, ema21)
         == ScoreEMAInteractions(symbol, candles[|candles|-2..], ema8[|ema8|-2..], ema21[|ema21|-2..])
  {
    var n := |candles|;
    assert candles[n-2..][1] == candles[n-1];
    assert ema8[n-2..][0] == ema8[n-2] && ema8[n-2..][1] == ema8[n-1];
    assert ema21[n-2..][0] == ema21[n-2] && ema21[n-2..][1] == ema21[n-1];
  }
}
