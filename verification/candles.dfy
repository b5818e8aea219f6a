/**
  Candlestick primitives shared by the candlestick classifier and the
  RSI-divergence scorer: body and range of a bar, pin bars, engulfing pairs,
  and the latest-first reversal search `revDir`.
 */
module Candles {
  import opened Types

  function Body(c: Candle): (b: real)
    ensures b >= 0.0
    ensures b == c.close - c.open || b == c.open - c.close
  {
    if c.close - c.open >= 0.0 then c.close - c.open else c.open - c.close
  }

  function RangeSize(c: Candle): real
  {
    c.high - c.low
  }

  function Min(a: real, b: real): real { if a <= b then a else b }

  function Max(a: real, b: real): real { if a >= b then a else b }

  /** A small body near the top of the bar with a long lower wick. */
  predicate IsBullishPinBar(c: Candle)
    ensures IsBullishPinBar(c) ==> RangeSize(c) > 0.0 && Body(c) <= RangeSize(c) / 3.0
    ensures IsBullishPinBar(c) ==> Min(c.open, c.close) - c.low >= RangeSize(c) * 2.0 / 3.0 > 0.0
  {
    var r := RangeSize(c);
    if r == 0.0 then false
    else
      var lowerWick := Min(c.open, c.close) - c.low;
      Body(c) <= r / 3.0 && lowerWick >= r * 2.0 / 3.0
  }

  /** A small body near the bottom of the bar with a long upper wick. */
  predicate IsBearishPinBar(c: Candle)
    ensures IsBearishPinBar(c) ==> RangeSize(c) > 0.0 && Body(c) <= RangeSize(c) / 3.0
    ensures IsBearishPinBar(c) ==> c.high - Max(c.open, c.close) >= RangeSize(c) * 2.0 / 3.0 > 0.0
  {
    var r := RangeSize(c);
    if r == 0.0 then false
    else
      var upperWick := c.high - Max(c.open, c.close);
      Body(c) <= r / 3.0 && upperWick >= r * 2.0 / 3.0
  }

  /** Bar `i` rises and its body strictly contains the falling body of bar `i - 1`. */
  predicate IsBullishEngulfing(c: seq<Candle>, i: int)
    requires 0 <= i < |c|
    ensures IsBullishEngulfing(c, i) <==>
              0 < i && c[i].open < c[i-1].close < c[i-1].open < c[i].close
  {
    if i == 0 then false
    else
      var p := c[i-1];
      var cur := c[i];
      if cur.close <= cur.open || p.close >= p.open then false
      else cur.open < p.close && cur.close > p.open
  }

  /** Bar `i` falls and its body strictly contains the rising body of bar `i - 1`. */
  predicate IsBearishEngulfing(c: seq<Candle>, i: int)
    requires 0 <= i < |c|
    ensures IsBearishEngulfing(c, i) <==>
              0 < i && c[i].close < c[i-1].open < c[i-1].close < c[i].open
  {
    if i == 0 then false
    else
      var p := c[i-1];
      var cur := c[i];
      if cur.close >= cur.open || p.close <= p.open then false
      else cur.open > p.close && cur.close < p.open
  }

  /** A bullish reversal pattern shows at bar `i`. */
  predicate BullishAt(c: seq<Candle>, i: int)
    requires 0 <= i < |c|
  {
    IsBullishEngulfing(c, i) || IsBullishPinBar(c[i])
  }

  /** A bearish reversal pattern shows at bar `i`. */
  predicate BearishAt(c: seq<Candle>, i: int)
    requires 0 <= i < |c|
  {
    IsBearishEngulfing(c, i) || IsBearishPinBar(c[i])
  }

  /** No reversal pattern of either kind at any bar strictly between `i` and `k`. */
  ghost predicate QuietAfter(c: seq<Candle>, i: int, k: int)
    requires -1 <= i && k <= |c|
  {
    forall j :: i < j < k ==> !BullishAt(c, j) && !BearishAt(c, j)
  }

  /** No bar is both a bullish and a bearish pin bar: the two long wicks cannot fit in one range. */
  lemma PinBarsExclusive(c: Candle)
    ensures !(IsBullishPinBar(c) && IsBearishPinBar(c))
  {
  }

  /** A bar cannot be both a bullish and a bearish engulfing of its predecessor. */
  lemma EngulfingExclusive(c: seq<Candle>, i: int)
    requires 0 <= i < |c|
    ensures !(IsBullishEngulfing(c, i) && IsBearishEngulfing(c, i))
  {
  }

  /**
    Scans bars `k - 1` down to `0` and reports the direction of the first
    reversal pattern met; the bullish test is made first at each bar.
   */
  function RevScan(c: seq<Candle>, k: int): (d: Option<Direction>)
    requires 0 <= k <= |c|
    decreases k
  {
    if k == 0 then None
    else if BullishAt(c, k - 1) then Some(Up)
    else if BearishAt(c, k - 1) then Some(Down)
    else RevScan(c, k - 1)
  }

  /** `revDir`: the direction of the latest reversal pattern among `c`, if any. */
  function RevDir(c: seq<Candle>): Option<Direction>
  {
    RevScan(c, |c|)
  }

  /** The scan finds nothing exactly when no bar below `k` shows a pattern. */
  lemma {:induction false} RevScanNone(c: seq<Candle>, k: int)
    requires 0 <= k <= |c|
    ensures RevScan(c, k) == None <==> QuietAfter(c, -1, k)
    decreases k
  {
    if k > 0 {
      RevScanNone(c, k - 1);
      if !BullishAt(c, k - 1) && !BearishAt(c, k - 1) {
        assert QuietAfter(c, -1, k) <==> QuietAfter(c, -1, k - 1);
      }
    }
  }

  /** The scan reports UP exactly when the latest patterned bar below `k` shows a bullish pattern. */
  lemma {:induction false} RevScanUp(c: seq<Candle>, k: int)
    requires 0 <= k <= |c|
    ensures RevScan(c, k) == Some(Up) <==>
              exists i :: 0 <= i < k && BullishAt(c, i) && QuietAfter(c, i, k)
    decreases k
  {
    if k > 0 {
      RevScanUp(c, k - 1);
      if BullishAt(c, k - 1) {
        assert QuietAfter(c, k - 1, k);
      } else if BearishAt(c, k - 1) {
        forall i | 0 <= i < k ensures !(BullishAt(c, i) && QuietAfter(c, i, k)) {
          if i < k - 1 {
            assert BearishAt(c, k - 1);
          }
        }
      } else {
        forall i | 0 <= i < k - 1 ensures QuietAfter(c, i, k) <==> QuietAfter(c, i, k - 1) {
        }
      }
    }
  }

  /** The scan reports DOWN exactly when the latest patterned bar below `k` shows only a bearish pattern. */
  lemma {:induction false} RevScanDown(c: seq<Candle>, k: int)
    requires 0 <= k <= |c|
    ensures RevScan(c, k) == Some(Down) <==>
              exists i :: 0 <= i < k && BearishAt(c, i) && !BullishAt(c, i) && QuietAfter(c, i, k)
    decreases k
  {
    if k > 0 {
      RevScanDown(c, k - 1);
      if BullishAt(c, k - 1) {
        forall i | 0 <= i < k ensures !(BearishAt(c, i) && !BullishAt(c, i) && QuietAfter(c, i, k)) {
          if i < k - 1 {
            assert BullishAt(c, k - 1);
          }
        }
      } else if BearishAt(c, k - 1) {
        assert QuietAfter(c, k - 1, k);
      } else {
        forall i | 0 <= i < k - 1 ensures QuietAfter(c, i, k) <==> QuietAfter(c, i, k - 1) {
        }
      }
    }
  }

  /** `revDir` on the whole slice, as the scorers call it. */
  lemma RevDirSpec(c: seq<Candle>)
    ensures RevDir(c) == None <==> QuietAfter(c, -1, |c|)
    ensures RevDir(c) == Some(Up) <==>
              exists i :: 0 <= i < |c| && BullishAt(c, i) && QuietAfter(c, i, |c|)
    ensures RevDir(c) == Some(Down) <==>
              exists i :: 0 <= i < |c| && BearishAt(c, i) && !BullishAt(c, i) && QuietAfter(c, i, |c|)
  {
    RevScanNone(c, |c|);
    RevScanUp(c, |c|);
    RevScanDown(c, |c|);
  }
}
