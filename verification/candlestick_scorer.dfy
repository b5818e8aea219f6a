/**
  The candlestick classifier: classifies the two most recent bars as a
  bullish and/or bearish reversal (engulfing pair or pin bar).
 */
module CandlestickScorer {
  import opened Types
  import opened Candles

  const CandleConfidence: real := 0.5
  const CandleTtl: int := Minute

  /** `ScoreCandlestickPatterns`: an UP signal for a bullish last bar, then a DOWN signal for a bearish one. */
  function ScoreCandlestickPatterns(symbol: string, candles: seq<Candle>): (r: seq<Signal>)
    ensures |candles| < 2 ==> r == []
    ensures |r| <= 2
    ensures HasDirection(r, Up) <==> |candles| >= 2 && BullishAt(candles, |candles| - 1)
    ensures HasDirection(r, Down) <==> |candles| >= 2 && BearishAt(candles, |candles| - 1)
    ensures forall k :: 0 <= k < |r| ==>
              r[k].symbol == symbol && r[k].confidence == 0.5 && r[k].ttl == Minute
    ensures forall k, m :: 0 <= k < m < |r| ==> r[k].direction == Up && r[m].direction == Down
  {
    var n := |candles|;
    if n < 2 then []
    else
      var last := n - 1;
      var up := if BullishAt(candles, last) then [Signal(symbol, Up, CandleConfidence, CandleTtl)] else [];
      var down := if BearishAt(candles, last) then [Signal(symbol, Down, CandleConfidence, CandleTtl)] else [];
      var r := up + down;
      assert forall k :: 0 <= k < |r| ==> (r[k].direction == Up <==> k < |up|);
      assert |up| > 0 ==> r[0].direction == Up;
      assert |down| > 0 ==> r[|up|].direction == Down;
      r
  }

  /** Only the last two bars influence the classification. */
  lemma CandlestickLastTwo(symbol: string, candles: seq<Candle>)
    requires |candles| >= 2
    ensures ScoreCandlestickPatterns(symbol, candles)
         == ScoreCandlestickPatterns(symbol, candles[|candles| - 2..])
  {
    var n := |candles|;
    var tail := candles[n - 2..];
    assert tail[1] == candles[n - 1] && tail[0] == candles[n - 2];
    assert IsBullishEngulfing(candles, n - 1) == IsBullishEngulfing(tail, 1);
    assert IsBearishEngulfing(candles, n - 1) == IsBearishEngulfing(tail, 1);
  }
}
